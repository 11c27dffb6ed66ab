/** finance_config/compiler.py (dispatch index and ambiguity check) and
    finance_services/pack_policy_source.py: which accounting policy an event is dispatched to. */
module Dispatch {
  import opened Common
  import opened StableSort
  import Lexicographic

  /** isOverride: mode.lower() == "override". */
  datatype Precedence = Precedence(isOverride: bool, priority: int, overrides: seq<string>)

  type WhereClause = seq<(string, string)>

  datatype Policy = Policy(
    name: string, eventType: string, where: WhereClause, tags: seq<string>,
    effectiveFrom: int, effectiveTo: Option<int>, scope: string, precedence: Option<Precedence>)

  datatype DispatchError = NotFound | MultipleMatch(names: seq<string>)

  /** What an event brings to dispatch; payload, when given, says which where-clauses it satisfies. */
  datatype Request = Request(date: int, scope: string, payload: Option<WhereClause -> bool>)

  type Capabilities = map<string, bool>

  function LowerChar(c: char): char {
    if 'A' <= c <= 'Z' then c - 'A' + 'a' else c
  }

  function Lower(s: string): (r: string)
    ensures |r| == |s|
    ensures forall i :: 0 <= i < |s| && 'A' <= s[i] <= 'Z' ==> r[i] as int == s[i] as int + 32
    ensures forall i :: 0 <= i < |s| && !('A' <= s[i] <= 'Z') ==> r[i] == s[i]
  {
    seq(|s|, i requires 0 <= i < |s| => LowerChar(s[i]))
  }

  predicate Admissible(p: Policy, capabilities: Capabilities) {
    forall tag :: tag in p.tags ==> Lower(tag) in capabilities && capabilities[Lower(tag)]
  }

  function Priority(p: Policy): int { if p.precedence.Some? then p.precedence.value.priority else 0 }

  predicate IsOverride(p: Policy) { p.precedence.Some? && p.precedence.value.isOverride }

  predicate HasSuffix(s: string, suffix: string) {
    |suffix| <= |s| && s[|s| - |suffix|..] == suffix
  }

  function Specificity(scope: string): int {
    if scope == "*" then 0
    else if HasSuffix(scope, ":*") then |scope| - 1
    else |scope| + 100
  }

  predicate ScopeMatches(p: Policy, scope: string) {
    || p.scope == "*"
    || (if HasSuffix(p.scope, ":*") then p.scope[..|p.scope| - 1] <= scope else p.scope == scope)
  }

  predicate EffectiveOn(p: Policy, date: int) {
    p.effectiveFrom <= date && (p.effectiveTo.None? || date <= p.effectiveTo.value)
  }

  predicate HasWhere(p: Policy) { p.where != [] }
  predicate NoWhere(p: Policy) { p.where == [] }

  // Filters as values, so that one filter can be applied to two lists.
  function IsFor(eventType: string): Policy -> bool { (p: Policy) => p.eventType == eventType }
  function IsAdmissible(c: Capabilities): Policy -> bool { (p: Policy) => Admissible(p, c) }
  function IsEffective(date: int): Policy -> bool { (p: Policy) => EffectiveOn(p, date) }
  function IsInScope(scope: string): Policy -> bool { (p: Policy) => ScopeMatches(p, scope) }
  function Satisfied(payload: WhereClause -> bool): Policy -> bool { (p: Policy) => payload(p.where) }
  function NotNamed(names: set<string>): Policy -> bool { (p: Policy) => p.name !in names }

  // ---- Precedence ----

  predicate MoreSpecific(a: Policy, b: Policy) { Specificity(a.scope) >= Specificity(b.scope) }
  predicate HigherPriority(a: Policy, b: Policy) { Priority(a) >= Priority(b) }
  predicate ByName(a: Policy, b: Policy) { Lexicographic.Leq(a.name, b.name) }

  function OverriddenBy(overrides: seq<Policy>): set<string> {
    set p, n | p in overrides && p.precedence.Some? && n in p.precedence.value.overrides :: n
  }

  /** The candidates left after override policies displace normal ones and one another. */
  function Contenders(candidates: seq<Policy>): seq<Policy> {
    var overrides := Filter(candidates, IsOverride);
    var remaining := Filter(overrides, NotNamed(OverriddenBy(overrides)));
    if remaining == [] then candidates else remaining
  }

  /** Unique most specific scope, else unique highest priority, else the first name if the first two
      differ in either. */
  function Decide(contenders: seq<Policy>): Outcome<Policy, DispatchError>
    requires contenders != []
  {
    SortKeeps(contenders, MoreSpecific);
    var byScope := Sort(contenders, MoreSpecific);
    SortKeeps(byScope, HigherPriority);
    var byPriority := Sort(byScope, HigherPriority);
    SortKeeps(byPriority, ByName);
    var byName := Sort(byPriority, ByName);
    if |contenders| == 1 then Ok(contenders[0])
    else if Specificity(byScope[0].scope) > Specificity(byScope[1].scope) then Ok(byScope[0])
    else if Priority(byPriority[0]) > Priority(byPriority[1]) then Ok(byPriority[0])
    else if Priority(byName[0]) == Priority(byName[1]) && Specificity(byName[0].scope) == Specificity(byName[1].scope)
    then Err(MultipleMatch(seq(|byName|, i requires 0 <= i < |byName| => byName[i].name)))
    else Ok(byName[0])
  }

  /** The candidates left before where-clauses are looked at. */
  function InScope(candidates: seq<Policy>, c: Capabilities, r: Request): seq<Policy> {
    Filter(Filter(Filter(candidates, IsAdmissible(c)), IsEffective(r.date)), IsInScope(r.scope))
  }

  /** The policies that pass every filter get_profile applies, in order. */
  function Matched(candidates: seq<Policy>, c: Capabilities, r: Request): seq<Policy> {
    var inScope := InScope(candidates, c, r);
    var without := Filter(inScope, NoWhere);
    if r.payload.None? then without
    else
      var specific := Filter(Filter(inScope, HasWhere), Satisfied(r.payload.value));
      if specific != [] then specific else without
  }

  function GetProfile(candidates: seq<Policy>, c: Capabilities, r: Request): Outcome<Policy, DispatchError> {
    var matched := Matched(candidates, c, r);
    if matched == [] then Err(NotFound)
    else if |matched| == 1 then Ok(matched[0])
    else Decide(Contenders(matched))
  }

  // ---- The selected policy ----

  lemma DecideChooses(contenders: seq<Policy>)
    requires contenders != []
    ensures Decide(contenders).Ok? ==> Decide(contenders).value in contenders
    ensures Decide(contenders) != Err(NotFound)
  {
    hide Specificity, Priority, Sort;
    SortKeeps(contenders, MoreSpecific);
    var byScope := Sort(contenders, MoreSpecific);
    SortKeeps(byScope, HigherPriority);
    SortKeeps(Sort(byScope, HigherPriority), ByName);
  }

  /** The filters of get_profile before the where-clause, applied to one policy directly. */
  predicate Eligible(p: Policy, eventType: string, c: Capabilities, r: Request) {
    p.eventType == eventType && Admissible(p, c) && EffectiveOn(p, r.date) && ScopeMatches(p, r.scope)
  }

  /** The same in terms of the policy's own fields: every capability it is tagged with is on, the date is
      within its effective dates, and its scope is everything, the event's, or a prefix of the event's. */
  ghost predicate InForce(p: Policy, eventType: string, c: Capabilities, r: Request) {
    && p.eventType == eventType
    && (forall tag :: tag in p.tags ==> Lower(tag) in c && c[Lower(tag)])
    && p.effectiveFrom <= r.date && (p.effectiveTo.Some? ==> r.date <= p.effectiveTo.value)
    && (p.scope == "*" || (if EndsOpen(p.scope) then p.scope[..|p.scope| - 1] <= r.scope else p.scope == r.scope))
  }

  ghost predicate EndsOpen(scope: string) { |scope| >= 2 && scope[|scope| - 2] == ':' && scope[|scope| - 1] == '*' }

  lemma EligibleIff(p: Policy, eventType: string, c: Capabilities, r: Request)
    ensures Eligible(p, eventType, c, r) <==> InForce(p, eventType, c, r)
  {
    assert HasSuffix(p.scope, ":*") <==> EndsOpen(p.scope) by {
      if EndsOpen(p.scope) {
        assert p.scope[|p.scope| - 2..] == ":*";
      }
    }
  }

  predicate WhereSatisfied(p: Policy, r: Request) { r.payload.Some? && r.payload.value(p.where) }

  /** The selection is a policy of the pack that passes every filter without the index, and a policy
      without a where-clause is selected under a payload only if no eligible where-clause holds. */
  lemma SelectionPassesFilters(policies: seq<Policy>, eventType: string, c: Capabilities, r: Request)
    requires GetProfile(Filter(policies, IsFor(eventType)), c, r).Ok?
    ensures var p := GetProfile(Filter(policies, IsFor(eventType)), c, r).value;
      && p in policies && Eligible(p, eventType, c, r) && InForce(p, eventType, c, r)
      && (p.where == [] || WhereSatisfied(p, r))
      && (p.where == [] ==>
          forall q :: q in policies && Eligible(q, eventType, c, r) && q.where != [] ==> !WhereSatisfied(q, r))
  {
    hide Decide, Admissible, EffectiveOn, ScopeMatches, Filter;
    var matched := Matched(Filter(policies, IsFor(eventType)), c, r);
    DecideChooses(Contenders(matched));
    var p := GetProfile(Filter(policies, IsFor(eventType)), c, r).value;
    assert p in matched;
    EligibleIff(p, eventType, c, r);
  }

  /** A policy on which nothing is ambiguous: alone in force, and without a where-clause, it is selected. */
  lemma OnlyPolicyIsSelected(policies: seq<Policy>, p: Policy, eventType: string, c: Capabilities, r: Request)
    requires p in policies && NoRepeats(policies) && p.where == [] && InForce(p, eventType, c, r)
    requires forall q :: q in policies && InForce(q, eventType, c, r) ==> q == p
    ensures GetProfile(Filter(policies, IsFor(eventType)), c, r) == Ok(p)
  {
    hide Decide, Admissible, EffectiveOn, ScopeMatches, Filter, InForce, NoRepeats;
    var candidates := Filter(policies, IsFor(eventType));
    var matched := Matched(candidates, c, r);
    forall q ensures Eligible(q, eventType, c, r) <==> InForce(q, eventType, c, r) {
      EligibleIff(q, eventType, c, r);
    }
    var inScope := InScope(candidates, c, r);
    assert forall q :: q in inScope <==> q in policies && Eligible(q, eventType, c, r);
    if r.payload.Some? {
      var specific := Filter(Filter(inScope, HasWhere), Satisfied(r.payload.value));
      assert forall q :: q !in specific;
      NothingIn(specific);
    }
    assert p in matched && forall q :: q in matched ==> q == p;
    assert forall i :: 0 <= i < |matched| ==> matched[i] in matched;
    MatchedNoRepeats(policies, eventType, c, r);
    CountsAtMostOne(matched, p);
    if |matched| > 1 {
      TwiceInCountsTwo(matched, 0, 1);
    }
  }

  lemma NothingIn(s: seq<Policy>)
    requires forall q :: q !in s
    ensures s == []
  {
    EmptyOrSome(s);
  }

  lemma EmptyOrSome(s: seq<Policy>)
    ensures s == [] || s[0] in s
  {
  }

  lemma CountsAtMostOne(s: seq<Policy>, p: Policy)
    requires NoRepeats(s)
    ensures multiset(s)[p] <= 1
  {
  }

  lemma FilterNoRepeats(s: seq<Policy>, keep: Policy -> bool)
    requires NoRepeats(s)
    ensures NoRepeats(Filter(s, keep))
  {
    forall x ensures multiset(Filter(s, keep))[x] <= 1 {
      FilterCounts(s, keep, x);
    }
  }

  lemma MatchedNoRepeats(policies: seq<Policy>, eventType: string, c: Capabilities, r: Request)
    requires NoRepeats(policies)
    ensures NoRepeats(Matched(Filter(policies, IsFor(eventType)), c, r))
  {
    hide NoRepeats, Filter;
    var s := Filter(policies, IsFor(eventType));
    FilterNoRepeats(policies, IsFor(eventType));
    FilterNoRepeats(s, IsAdmissible(c));
    FilterNoRepeats(Filter(s, IsAdmissible(c)), IsEffective(r.date));
    FilterNoRepeats(Filter(Filter(s, IsAdmissible(c)), IsEffective(r.date)), IsInScope(r.scope));
    var inScope := InScope(s, c, r);
    FilterNoRepeats(inScope, NoWhere);
    FilterNoRepeats(inScope, HasWhere);
    if r.payload.Some? {
      FilterNoRepeats(Filter(inScope, HasWhere), Satisfied(r.payload.value));
    }
  }

  /** Not finding a policy means that none is there to be found. */
  lemma NotFoundIff(policies: seq<Policy>, eventType: string, c: Capabilities, r: Request)
    ensures GetProfile(Filter(policies, IsFor(eventType)), c, r) == Err(NotFound) <==>
            forall p :: p in policies && InForce(p, eventType, c, r) ==>
              p.where != [] && (r.payload.Some? ==> !r.payload.value(p.where))
  {
    hide Decide, Admissible, EffectiveOn, ScopeMatches, Filter, InForce;
    forall p ensures Eligible(p, eventType, c, r) <==> InForce(p, eventType, c, r) {
      EligibleIff(p, eventType, c, r);
    }
    var matched := Matched(Filter(policies, IsFor(eventType)), c, r);
    if matched != [] {
      DecideChooses(Contenders(matched));
      assert matched[0] in matched;
    }
  }

  // ---- Who wins ----

  /** Among policies that match the same event scope, a higher specificity means a narrower policy:
      every scope the more specific one matches, the other matches too. */
  lemma SpecificityIsNarrowness(p: Policy, q: Policy, scope: string, other: string)
    requires ScopeMatches(p, scope) && ScopeMatches(q, scope)
    requires Specificity(p.scope) > Specificity(q.scope)
    ensures ScopeMatches(p, other) ==> ScopeMatches(q, other)
  {
    if ScopeMatches(p, other) && q.scope != "*" && HasSuffix(q.scope, ":*") {
      assert p.scope != "*";
      if HasSuffix(p.scope, ":*") {
        var a, b := p.scope[..|p.scope| - 1], q.scope[..|q.scope| - 1];
        assert |b| <= |a| && a <= scope && b <= scope;
        assert b == scope[..|b|] == a[..|b|] == other[..|b|];
      }
    }
  }

  /** And equal specificity on a shared event scope means equal scopes. */
  lemma SpecificityDistinguishes(p: Policy, q: Policy, scope: string)
    requires ScopeMatches(p, scope) && ScopeMatches(q, scope)
    requires Specificity(p.scope) == Specificity(q.scope)
    ensures p.scope == q.scope
  {
    if HasSuffix(p.scope, ":*") && HasSuffix(q.scope, ":*") && p.scope != "*" && q.scope != "*" {
      var n := |p.scope| - 1;
      assert p.scope[..n] == scope[..n] == q.scope[..n];
      assert p.scope == p.scope[..n] + [p.scope[n]] && q.scope == q.scope[..n] + [q.scope[n]];
      assert p.scope[n] == p.scope[n - 1..][1] == '*' && q.scope[n] == q.scope[n - 1..][1] == '*';
    }
  }

  /** Priority is that of the precedence record; a policy without one ranks as zero. */
  lemma UnrankedIsZero(p: Policy, q: Policy)
    requires p.precedence.None? && q.precedence.Some? && p.scope == q.scope
    ensures q.precedence.value.priority > 0 ==> Decide([p, q]) == Ok(q)
    ensures q.precedence.value.priority < 0 ==> Decide([p, q]) == Ok(p)
  {
    hide Decide, Specificity;
    var s := [p, q];
    assert multiset(s) == multiset{p, q} && p in s && q in s;
    if q.precedence.value.priority > 0 {
      PriorityWins(s, q);
    } else if q.precedence.value.priority < 0 {
      PriorityWins(s, p);
    }
  }

  ghost predicate MostSpecific(s: seq<Policy>, p: Policy) {
    p in s && forall q :: q in s && q != p ==> Specificity(p.scope) > Specificity(q.scope)
  }

  ghost predicate HighestPriority(s: seq<Policy>, p: Policy) {
    p in s && forall q :: q in s && q != p ==> Priority(p) > Priority(q)
  }

  /** The first two names, in order. */
  ghost predicate FirstNames(s: seq<Policy>, p: Policy, q: Policy) {
    && p in s && q in s && p != q && ByName(p, q)
    && forall x :: x in s && x != p && x != q ==> ByName(q, x)
  }

  /** Every other element comes strictly after p. */
  ghost predicate Alone(s: seq<Policy>, p: Policy, leq: (Policy, Policy) -> bool) {
    p in s && forall q :: q in s && q != p ==> !leq(q, p)
  }

  /** In a sorted arrangement without repeats the first element stands alone exactly when it comes
      strictly before the second, and nothing else can stand alone. */
  lemma TopIsStrict(s: seq<Policy>, leq: (Policy, Policy) -> bool, p: Policy)
    requires TotalPreorder(leq) && Sorted(s, leq) && NoRepeats(s) && |s| >= 2
    ensures !leq(s[1], s[0]) <==> Alone(s, s[0], leq)
    ensures Alone(s, p, leq) ==> p == s[0]
  {
    if s[0] == s[1] {
      TwiceInCountsTwo(s, 0, 1);
    }
    assert s[0] in s;
    if Alone(s, p, leq) {
      var k :| 0 <= k < |s| && s[k] == p;
    }
    if !leq(s[1], s[0]) {
      forall q | q in s && q != s[0] ensures !leq(q, s[0]) {
        var k :| 0 <= k < |s| && s[k] == q;
        assert k > 1 ==> leq(s[1], s[k]);
      }
    }
  }

  lemma SortTopIsStrict(s: seq<Policy>, leq: (Policy, Policy) -> bool, p: Policy)
    requires TotalPreorder(leq) && NoRepeats(s) && |s| >= 2
    ensures var t := Sort(s, leq);
            && |t| == |s| && NoRepeats(t) && (forall x :: x in t <==> x in s)
            && (!leq(t[1], t[0]) <==> Alone(s, t[0], leq))
            && (Alone(s, p, leq) ==> p == t[0])
  {
    hide Sort, TotalPreorder;
    SortKeeps(s, leq);
    SortSorts(s, leq);
    TopIsStrict(Sort(s, leq), leq, p);
  }

  lemma ComparesByKey()
    ensures TotalPreorder(MoreSpecific) && TotalPreorder(HigherPriority)
    ensures forall s, p :: MostSpecific(s, p) <==> Alone(s, p, MoreSpecific)
    ensures forall s, p :: HighestPriority(s, p) <==> Alone(s, p, HigherPriority)
  {
    hide Specificity, Priority;
  }

  /** How Decide reads its three sorted lists. */
  lemma DecideReads(s: seq<Policy>)
    requires |s| >= 2
    ensures var byScope := Sort(s, MoreSpecific);
            var byPriority := Sort(byScope, HigherPriority);
            var byName := Sort(byPriority, ByName);
            && |byScope| == |byPriority| == |byName| == |s|
            && (!MoreSpecific(byScope[1], byScope[0]) ==> Decide(s) == Ok(byScope[0]))
            && (MoreSpecific(byScope[1], byScope[0]) ==>
                  && (!HigherPriority(byPriority[1], byPriority[0]) ==> Decide(s) == Ok(byPriority[0]))
                  && (HigherPriority(byPriority[1], byPriority[0]) ==>
                        if Priority(byName[0]) == Priority(byName[1]) &&
                          Specificity(byName[0].scope) == Specificity(byName[1].scope)
                        then Decide(s).Err? && Decide(s).error.MultipleMatch?
                        else Decide(s) == Ok(byName[0])))
  {
    hide Specificity, Priority, Sort, ByName;
    SortKeeps(s, MoreSpecific);
    SortKeeps(Sort(s, MoreSpecific), HigherPriority);
    SortKeeps(Sort(Sort(s, MoreSpecific), HigherPriority), ByName);
  }

  lemma DecideAlone(p: Policy)
    ensures Decide([p]) == Ok(p)
  {
    hide Specificity, Priority, Sort, ByName;
  }

  lemma OnlyOne(s: seq<Policy>, p: Policy)
    requires p in s && |s| < 2
    ensures s == [p]
  {
  }

  /** A policy more specific than all the others is selected, whatever its priority. */
  lemma ScopeWins(s: seq<Policy>, p: Policy)
    requires NoRepeats(s) && MostSpecific(s, p)
    ensures Decide(s) == Ok(p)
  {
    hide Decide, Specificity, Sort, NoRepeats, TotalPreorder;
    if |s| < 2 {
      OnlyOne(s, p);
      DecideAlone(p);
    } else {
      ComparesByKey();
      SortTopIsStrict(s, MoreSpecific, p);
      DecideReads(s);
    }
  }

  /** Without a single most specific policy, one of highest priority among all is selected. */
  lemma PriorityWins(s: seq<Policy>, p: Policy)
    requires NoRepeats(s) && HighestPriority(s, p) && forall q :: !MostSpecific(s, q)
    ensures Decide(s) == Ok(p)
  {
    hide Decide, Specificity, Priority, Sort, NoRepeats, TotalPreorder, MostSpecific, HighestPriority;
    HighestIsThere(s, p);
    if |s| < 2 {
      OnlyOne(s, p);
      DecideAlone(p);
    } else {
      ComparesByKey();
      SortTopIsStrict(s, MoreSpecific, p);
      var byScope := Sort(s, MoreSpecific);
      assert !MostSpecific(s, byScope[0]);
      SortTopIsStrict(byScope, HigherPriority, p);
      DecideReads(s);
    }
  }

  /** No candidate is more specific. */
  ghost predicate TopScope(s: seq<Policy>, p: Policy) {
    p in s && forall q :: q in s ==> Specificity(q.scope) <= Specificity(p.scope)
  }

  /** "Scope before priority" decided by what the candidates are: one of them is most specific, or the
      one of highest priority shares the top scope, or, without such a one, the first by name does. */
  ghost predicate ScopeRespected(s: seq<Policy>) {
    || (exists p :: MostSpecific(s, p))
    || (exists p :: HighestPriority(s, p) && TopScope(s, p))
    || ((forall p :: !HighestPriority(s, p)) && exists p, q :: FirstNames(s, p, q) && TopScope(s, p))
  }

  /** The documented order "override > scope > priority" holds of a decision exactly then. */
  lemma TopScopeSelectedIff(s: seq<Policy>)
    requires DistinctNames(s) && s != [] && Decide(s).Ok?
    ensures TopScope(s, Decide(s).value) <==> ScopeRespected(s)
  {
    hide Decide, Specificity, Priority, NoRepeats, ByName;
    if p :| MostSpecific(s, p) {
      ScopeWins(s, p);
    } else if p :| HighestPriority(s, p) {
      PriorityWins(s, p);
      OnlyHighest(s, p);
    } else {
      var p, q := TwoFirstNames(s);
      NameDecides(s, p, q);
      OnlyFirstNames(s, p, q);
    }
  }

  lemma OnlyHighest(s: seq<Policy>, p: Policy)
    requires HighestPriority(s, p)
    ensures forall q :: HighestPriority(s, q) ==> q == p
  {
  }

  /** A list without a most specific policy has two first names. */
  lemma TwoFirstNames(s: seq<Policy>) returns (p: Policy, q: Policy)
    requires DistinctNames(s) && s != [] && forall x :: !MostSpecific(s, x)
    ensures FirstNames(s, p, q)
  {
    hide ByName, Sort, Specificity;
    assert s[0] in s;
    assert !MostSpecific(s, s[0]);
    var t := Sort(s, ByName);
    NameOrder();
    SortKeeps(s, ByName);
    SortSorts(s, ByName);
    p, q := t[0], t[1];
    if p == q {
      TwiceInCountsTwo(t, 0, 1);
    }
    assert p in t && q in t;
    forall x | x in s && x != p && x != q ensures ByName(q, x) {
      assert x in t;
      var k :| 0 <= k < |t| && t[k] == x;
      assert k > 1;
    }
  }

  lemma OnlyFirstNames(s: seq<Policy>, p: Policy, q: Policy)
    requires DistinctNames(s) && FirstNames(s, p, q)
    ensures forall a, b :: FirstNames(s, a, b) ==> a == p
  {
    hide ByName, Sort;
    forall a, b | FirstNames(s, a, b) ensures a == p {
      FirstTwoByName(s, p, q);
      FirstTwoByName(s, a, b);
    }
  }

  /** So scope is not a level of its own: two policies that share the top scope lose to a less
      specific one of higher priority. */
  lemma SharedScopeYieldsToPriority(a: Policy, b: Policy, w: Policy)
    requires a != b && Specificity(a.scope) == Specificity(b.scope) > Specificity(w.scope)
    requires Priority(w) > Priority(a) && Priority(w) > Priority(b)
    ensures Decide([a, b, w]) == Ok(w)
  {
    hide Decide, Specificity, Priority;
    var s := [a, b, w];
    assert multiset(s) == multiset{a, b, w};
    assert a in s && b in s && w in s && forall x :: x in s ==> x == a || x == b || x == w;
    PriorityWins(s, w);
  }

  function Plain(name: string, scope: string, priority: int): Policy {
    Policy(name, "sale", [], [], 0, None, scope, Some(Precedence(false, priority, [])))
  }

  /** A dispatch in which it fails: two policies for "US:CA" and a catch-all of higher priority, all
      matching the event; the catch-all is selected. */
  lemma CatchAllWinsOverScope()
    ensures var a, b, w := Plain("a", "US:CA", 0), Plain("b", "US:CA", 0), Plain("w", "*", 1);
            GetProfile([a, b, w], map[], Request(0, "US:CA", None)) == Ok(w)
  {
    hide Decide;
    var a, b, w := Plain("a", "US:CA", 0), Plain("b", "US:CA", 0), Plain("w", "*", 1);
    var r := Request(0, "US:CA", None);
    assert a.name[0] != b.name[0] && |"US:CA"| == 5 && |"*"| == 1 && "US:CA"[3..] != ":*" by {
      assert "US:CA"[3..][0] == 'C';
    }
    AllMatch([a, b, w], r);
    NobodyOverrides([a, b, w]);
    SharedScopeYieldsToPriority(a, b, w);
  }

  /** Without capabilities, where-clauses or payload, policies in date and scope all match. */
  lemma AllMatch(s: seq<Policy>, r: Request)
    requires r.payload.None?
    requires forall p :: p in s ==> p.tags == [] && p.where == [] && EffectiveOn(p, r.date) && ScopeMatches(p, r.scope)
    ensures Matched(s, map[], r) == s
  {
    hide ScopeMatches, EffectiveOn;
    FilterAll(s, IsAdmissible(map[]));
    FilterAll(s, IsEffective(r.date));
    FilterAll(s, IsInScope(r.scope));
    FilterAll(s, NoWhere);
  }

  lemma NobodyOverrides(s: seq<Policy>)
    requires forall p :: p in s ==> !IsOverride(p)
    ensures Contenders(s) == s
  {
    hide IsOverride;
    FilterNone(s, IsOverride);
  }

  lemma HighestIsThere(s: seq<Policy>, p: Policy)
    requires HighestPriority(s, p)
    ensures p in s
  {
  }

  /** With neither, the first name is selected unless it ties with the second on both counts. */
  lemma NameDecides(s: seq<Policy>, p: Policy, q: Policy)
    requires DistinctNames(s) && FirstNames(s, p, q)
    requires forall x :: !MostSpecific(s, x) && !HighestPriority(s, x)
    ensures if Priority(p) == Priority(q) && Specificity(p.scope) == Specificity(q.scope)
            then Decide(s).Err? && Decide(s).error.MultipleMatch?
            else Decide(s) == Ok(p)
  {
    hide Decide, Specificity, Priority, Sort, NoRepeats, ByName, TotalPreorder, MostSpecific, HighestPriority,
      FirstNames;
    FirstNamesAreThere(s, p, q);
    AtLeastTwo(s, p, q);
    ComparesByKey();
    SortTopIsStrict(s, MoreSpecific, p);
    var byScope := Sort(s, MoreSpecific);
    assert !MostSpecific(s, byScope[0]);
    SortTopIsStrict(byScope, HigherPriority, p);
    var byPriority := Sort(byScope, HigherPriority);
    assert !HighestPriority(s, byPriority[0]);
    FirstNamesOfPermutation(s, byPriority, p, q);
    FirstTwoByName(byPriority, p, q);
    DecideReads(s);
  }

  lemma FirstNamesAreThere(s: seq<Policy>, p: Policy, q: Policy)
    requires FirstNames(s, p, q)
    ensures p in s && q in s && p != q
  {
  }

  lemma FirstNamesOfPermutation(s: seq<Policy>, t: seq<Policy>, p: Policy, q: Policy)
    requires FirstNames(s, p, q) && forall x :: x in t <==> x in s
    ensures FirstNames(t, p, q)
  {
  }

  lemma AtLeastTwo(s: seq<Policy>, p: Policy, q: Policy)
    requires p in s && q in s && p != q
    ensures |s| >= 2
  {
  }

  lemma FirstTwoByName(s: seq<Policy>, p: Policy, q: Policy)
    requires DistinctNames(s) && FirstNames(s, p, q)
    ensures |Sort(s, ByName)| == |s| >= 2 && Sort(s, ByName)[0] == p && Sort(s, ByName)[1] == q
  {
    hide ByName, Sort;
    var t := Sort(s, ByName);
    NameOrder();
    SortKeeps(s, ByName);
    SortSorts(s, ByName);
    var i :| 0 <= i < |t| && t[i] == p;
    var j :| 0 <= j < |t| && t[j] == q;
    if i != 0 {
      assert ByName(t[0], p) && t[0] in t;
      if t[0] != p {
        SameName(t[0], p, q);
      }
    }
    assert t[0] == p;
    if j != 1 {
      assert ByName(t[1], q) && t[1] in t;
      if t[1] == p {
        TwiceInCountsTwo(t, 0, 1);
      } else {
        NamesAgree(t[1], q);
      }
    }
  }

  lemma NamesAgree(x: Policy, y: Policy)
    requires ByName(x, y) && ByName(y, x)
    ensures x.name == y.name
  {
    Lexicographic.Antisymmetric(x.name, y.name);
  }

  /** Nothing precedes the first name but itself. */
  lemma SameName(x: Policy, p: Policy, q: Policy)
    requires ByName(x, p) && ByName(p, q) && (x == q || ByName(q, x))
    ensures x.name == p.name
  {
    if x != q {
      Lexicographic.Transitive(p.name, q.name, x.name);
    }
    Lexicographic.Antisymmetric(x.name, p.name);
  }

  /** Overrides: if some override policy is not itself overridden, exactly those stay in contention;
      otherwise everyone does. */
  lemma ContendersAre(s: seq<Policy>, p: Policy)
    ensures p in Contenders(s) <==>
            && p in s
            && (Standing(s, p) || forall q :: q in s ==> !Standing(s, q))
  {
    hide Filter;
    var overrides := Filter(s, IsOverride);
    var remaining := Filter(overrides, NotNamed(OverriddenBy(overrides)));
    assert forall q :: q in remaining <==> q in s && Standing(s, q);
    assert remaining != [] ==> remaining[0] in remaining;
  }

  /** An override policy that no override policy of the list names. */
  ghost predicate Standing(s: seq<Policy>, p: Policy) {
    && p.precedence.Some? && p.precedence.value.isOverride
    && forall q :: q in s && q.precedence.Some? && q.precedence.value.isOverride ==>
         p.name !in q.precedence.value.overrides
  }

  // ---- Order independence ----

  /** Two sorted arrangements of the same elements agree on whether the first stands alone, and on
      which it is when it does. */
  lemma TopOfPermutation(s: seq<Policy>, t: seq<Policy>, leq: (Policy, Policy) -> bool)
    requires multiset(s) == multiset(t) && NoRepeats(s) && TotalPreorder(leq)
    requires Sorted(s, leq) && Sorted(t, leq) && |s| >= 2 && |t| >= 2
    requires !leq(s[1], s[0])
    ensures t[0] == s[0] && !leq(t[1], t[0])
  {
    SameMultisetSameElements(s, t);
    forall k | 1 <= k < |s| ensures !leq(s[k], s[0]) {
      if k > 1 {
        assert leq(s[1], s[k]);
      }
    }
    assert s[0] in t && t[0] in s && t[1] in s;
    var k :| 0 <= k < |s| && s[k] == t[0];
    assert leq(t[0], s[0]);
    if leq(t[1], t[0]) {
      var m :| 0 <= m < |s| && s[m] == t[1];
      TwiceInCountsTwo(t, 0, 1);
    }
  }

  lemma NameOrder()
    ensures TotalPreorder(ByName)
  {
    forall a: Policy, b: Policy ensures ByName(a, b) || ByName(b, a) {
      Lexicographic.Total(a.name, b.name);
    }
    forall a: Policy, b: Policy, c: Policy | ByName(a, b) && ByName(b, c) ensures ByName(a, c) {
      Lexicographic.Transitive(a.name, b.name, c.name);
    }
  }

  ghost predicate DistinctNames(s: seq<Policy>) {
    NoRepeats(s) && forall a, b :: a in s && b in s && a.name == b.name ==> a == b
  }

  lemma SortedByNameUnique(s: seq<Policy>, t: seq<Policy>)
    requires multiset(s) == multiset(t) && DistinctNames(s)
    ensures Sort(s, ByName) == Sort(t, ByName)
  {
    NameOrder();
    SortSorts(s, ByName);
    SortSorts(t, ByName);
    SortKeeps(s, ByName);
    SortKeeps(t, ByName);
    forall a, b | a in s && b in s && ByName(a, b) && ByName(b, a) ensures a == b {
      Lexicographic.Antisymmetric(a.name, b.name);
    }
    SortedUnique(Sort(s, ByName), Sort(t, ByName), ByName);
  }

  lemma SortTop(s: seq<Policy>, t: seq<Policy>, leq: (Policy, Policy) -> bool)
    requires multiset(s) == multiset(t) && NoRepeats(s) && TotalPreorder(leq) && |s| >= 2
    ensures |Sort(s, leq)| == |Sort(t, leq)| == |s| && multiset(Sort(s, leq)) == multiset(Sort(t, leq)) == multiset(s)
    ensures NoRepeats(Sort(s, leq))
    ensures var a, b := Sort(s, leq), Sort(t, leq);
            (leq(a[1], a[0]) <==> leq(b[1], b[0])) && (!leq(a[1], a[0]) ==> a[0] == b[0])
  {
    SameMultisetSameElements(s, t);
    SortKeeps(s, leq);
    SortKeeps(t, leq);
    SortSorts(s, leq);
    SortSorts(t, leq);
    var a, b := Sort(s, leq), Sort(t, leq);
    if !leq(a[1], a[0]) {
      TopOfPermutation(a, b, leq);
    } else if !leq(b[1], b[0]) {
      TopOfPermutation(b, a, leq);
    }
  }

  lemma DecideOfPermutation(s: seq<Policy>, t: seq<Policy>)
    requires multiset(s) == multiset(t) && DistinctNames(s) && s != [] && t != []
    ensures Decide(s) == Decide(t)
  {
    hide NoRepeats, Specificity, Priority, ByName, Sort;
    SameMultisetSameElements(s, t);
    if |s| == 1 {
      assert s[0] in t;
    } else {
      SortTop(s, t, MoreSpecific);
      SortTop(Sort(s, MoreSpecific), Sort(t, MoreSpecific), HigherPriority);
      NamesSurviveSorting(s);
      SortedByNameUnique(Sort(Sort(s, MoreSpecific), HigherPriority), Sort(Sort(t, MoreSpecific), HigherPriority));
    }
  }

  lemma NamesSurviveSorting(s: seq<Policy>)
    requires DistinctNames(s)
    ensures DistinctNames(Sort(Sort(s, MoreSpecific), HigherPriority))
  {
    SortKeeps(s, MoreSpecific);
    SortKeeps(Sort(s, MoreSpecific), HigherPriority);
  }

  lemma ContendersOfPermutation(s: seq<Policy>, t: seq<Policy>)
    requires multiset(s) == multiset(t)
    ensures multiset(Contenders(s)) == multiset(Contenders(t))
  {
    var a, b := Filter(s, IsOverride), Filter(t, IsOverride);
    FilterOfPermutation(s, t, IsOverride);
    SameMultisetSameElements(a, b);
    assert OverriddenBy(a) == OverriddenBy(b);
    FilterOfPermutation(a, b, NotNamed(OverriddenBy(a)));
    SameMultisetSameElements(Filter(a, NotNamed(OverriddenBy(a))), Filter(b, NotNamed(OverriddenBy(a))));
  }

  lemma FilterKeepsNames(s: seq<Policy>, keep: Policy -> bool)
    requires DistinctNames(s)
    ensures DistinctNames(Filter(s, keep))
  {
    forall x ensures multiset(Filter(s, keep))[x] <= 1 {
      FilterCounts(s, keep, x);
    }
  }

  lemma ContendersKeepNames(s: seq<Policy>)
    requires DistinctNames(s)
    ensures DistinctNames(Contenders(s)) && (s != [] ==> Contenders(s) != [])
  {
    FilterKeepsNames(s, IsOverride);
    FilterKeepsNames(Filter(s, IsOverride), NotNamed(OverriddenBy(Filter(s, IsOverride))));
  }

  lemma InScopeOfPermutation(s: seq<Policy>, t: seq<Policy>, c: Capabilities, r: Request)
    requires multiset(s) == multiset(t) && DistinctNames(s)
    ensures multiset(InScope(s, c, r)) == multiset(InScope(t, c, r)) && DistinctNames(InScope(s, c, r))
  {
    hide DistinctNames, Filter;
    FilterOfPermutation(s, t, IsAdmissible(c));
    FilterKeepsNames(s, IsAdmissible(c));
    var s1, t1 := Filter(s, IsAdmissible(c)), Filter(t, IsAdmissible(c));
    FilterOfPermutation(s1, t1, IsEffective(r.date));
    FilterKeepsNames(s1, IsEffective(r.date));
    var s2, t2 := Filter(s1, IsEffective(r.date)), Filter(t1, IsEffective(r.date));
    FilterOfPermutation(s2, t2, IsInScope(r.scope));
    FilterKeepsNames(s2, IsInScope(r.scope));
  }

  lemma MatchedOfPermutation(s: seq<Policy>, t: seq<Policy>, c: Capabilities, r: Request)
    requires multiset(s) == multiset(t) && DistinctNames(s)
    ensures multiset(Matched(s, c, r)) == multiset(Matched(t, c, r)) && DistinctNames(Matched(s, c, r))
  {
    hide DistinctNames, Filter;
    InScopeOfPermutation(s, t, c, r);
    var a, b := InScope(s, c, r), InScope(t, c, r);
    FilterOfPermutation(a, b, NoWhere);
    FilterKeepsNames(a, NoWhere);
    if r.payload.Some? {
      FilterOfPermutation(a, b, HasWhere);
      FilterKeepsNames(a, HasWhere);
      var f := Satisfied(r.payload.value);
      FilterOfPermutation(Filter(a, HasWhere), Filter(b, HasWhere), f);
      FilterKeepsNames(Filter(a, HasWhere), f);
      SameMultisetSameElements(Filter(Filter(a, HasWhere), f), Filter(Filter(b, HasWhere), f));
    }
  }

  /** Dispatch does not depend on the order of the pack: with distinct names, permuting the policies
      changes neither the selected policy nor the error, down to the names it lists. */
  lemma DispatchIsOrderIndependent(
    policies: seq<Policy>, permuted: seq<Policy>, eventType: string, c: Capabilities, r: Request)
    requires multiset(policies) == multiset(permuted) && DistinctNames(policies)
    ensures GetProfile(Filter(policies, IsFor(eventType)), c, r) == GetProfile(Filter(permuted, IsFor(eventType)), c, r)
  {
    hide DistinctNames, Filter, Matched, Contenders, Decide;
    var s, t := Filter(policies, IsFor(eventType)), Filter(permuted, IsFor(eventType));
    FilterOfPermutation(policies, permuted, IsFor(eventType));
    FilterKeepsNames(policies, IsFor(eventType));
    MatchedOfPermutation(s, t, c, r);
    var a, b := Matched(s, c, r), Matched(t, c, r);
    SameMultisetSameElements(a, b);
    if |a| == 1 {
      assert a[0] in b;
    } else if a != [] {
      ContendersOfPermutation(a, b);
      ContendersKeepNames(a);
      SameMultisetSameElements(Contenders(a), Contenders(b));
      DecideOfPermutation(Contenders(a), Contenders(b));
    }
  }

  // ---- Compile-time ambiguity check ----

  /** Same trigger and same precedence: nothing the compiler knows of tells the two apart. */
  predicate Clash(a: Policy, b: Policy) { a.where == b.where && Priority(a) == Priority(b) }

  function Priorities(group: seq<Policy>): set<int> { set p | p in group :: Priority(p) }

  ghost predicate SharesPriority(group: seq<Policy>) {
    exists i, j :: 0 <= i < j < |group| && Priority(group[i]) == Priority(group[j])
  }

  lemma SharesPriorityAppend(init: seq<Policy>, last: Policy)
    ensures SharesPriority(init + [last]) <==> SharesPriority(init) || Priority(last) in Priorities(init)
  {
    var group := init + [last];
    if SharesPriority(init) {
      var i, j :| 0 <= i < j < |init| && Priority(init[i]) == Priority(init[j]);
      assert Priority(group[i]) == Priority(group[j]);
    }
    if Priority(last) in Priorities(init) {
      var p :| p in init && Priority(p) == Priority(last);
      var i :| 0 <= i < |init| && init[i] == p;
      assert Priority(group[i]) == Priority(group[|init|]);
    }
    if SharesPriority(group) && !SharesPriority(init) {
      var i, j :| 0 <= i < j < |group| && Priority(group[i]) == Priority(group[j]);
      assert init[i] in init;
    }
  }

  /** len(priorities) < len(group) exactly when two of the group share a priority. */
  lemma {:induction false} FewerPrioritiesIff(group: seq<Policy>)
    ensures |Priorities(group)| <= |group|
    ensures |Priorities(group)| < |group| <==> SharesPriority(group)
  {
    if group != [] {
      hide SharesPriority, Priority;
      var init, last := group[..|group| - 1], group[|group| - 1];
      FewerPrioritiesIff(init);
      SharesPriorityAppend(init, last);
      assert group == init + [last];
      assert Priorities(group) == Priorities(init) + {Priority(last)};
    }
  }

  /** The policies with one where-clause, in order. */
  function Group(policies: seq<Policy>, where: WhereClause): seq<Policy> {
    if policies == [] then []
    else
      var last := policies[|policies| - 1];
      Group(policies[..|policies| - 1], where) + if last.where == where then [last] else []
  }

  ghost predicate ClashesOn(policies: seq<Policy>, where: WhereClause) {
    exists i, j :: 0 <= i < j < |policies| && policies[i].where == where && Clash(policies[i], policies[j])
  }

  lemma ClashesAppend(init: seq<Policy>, last: Policy, where: WhereClause)
    ensures ClashesOn(init + [last], where) <==>
            ClashesOn(init, where) || (last.where == where && exists p :: p in init && Clash(p, last))
  {
    var all := init + [last];
    if ClashesOn(init, where) {
      var i, j :| 0 <= i < j < |init| && init[i].where == where && Clash(init[i], init[j]);
      assert Clash(all[i], all[j]);
    }
    if last.where == where && exists p :: p in init && Clash(p, last) {
      var p :| p in init && Clash(p, last);
      var i :| 0 <= i < |init| && init[i] == p;
      assert Clash(all[i], all[|init|]);
    }
    if ClashesOn(all, where) && !ClashesOn(init, where) {
      var i, j :| 0 <= i < j < |all| && all[i].where == where && Clash(all[i], all[j]);
      assert init[i] in init;
    }
  }

  lemma {:induction false} GroupClashes(policies: seq<Policy>, where: WhereClause)
    ensures forall p :: p in Group(policies, where) <==> p in policies && p.where == where
    ensures SharesPriority(Group(policies, where)) <==> ClashesOn(policies, where)
  {
    if policies != [] {
      hide SharesPriority, ClashesOn;
      var init, last := policies[..|policies| - 1], policies[|policies| - 1];
      assert policies == init + [last];
      GroupClashes(init, where);
      ClashesAppend(init, last, where);
      SharesPriorityAppend(Group(init, where), last);
      assert Group(init, where) + [] == Group(init, where);
    }
  }

  function GroupOf(byWhere: map<WhereClause, seq<Policy>>, where: WhereClause): seq<Policy> {
    if where in byWhere then byWhere[where] else []
  }

  method GroupByWhere(policies: seq<Policy>) returns (byWhere: map<WhereClause, seq<Policy>>)
    ensures forall w :: GroupOf(byWhere, w) == Group(policies, w)
  {
    byWhere := map[];
    for i := 0 to |policies|
      invariant forall w :: GroupOf(byWhere, w) == Group(policies[..i], w)
    {
      assert policies[..i + 1][..i] == policies[..i];
      var p := policies[i];
      byWhere := byWhere[p.where := GroupOf(byWhere, p.where) + [p]];
    }
    assert policies[..|policies|] == policies;
  }

  /** Reports the where-clauses whose group has fewer priorities than policies. */
  method CheckDispatchAmbiguity(policies: seq<Policy>) returns (ambiguous: set<WhereClause>)
    ensures forall w :: w in ambiguous <==> ClashesOn(policies, w)
  {
    hide ClashesOn, SharesPriority, Group;
    var byWhere := GroupByWhere(policies);
    ambiguous := {};
    var rest := byWhere.Keys;
    while rest != {}
      invariant rest <= byWhere.Keys
      invariant forall w :: w in ambiguous <==> w in byWhere.Keys - rest && ClashesOn(policies, w)
      decreases |rest|
    {
      var w :| w in rest;
      rest := rest - {w};
      var group := GroupOf(byWhere, w);
      FewerPrioritiesIff(group);
      GroupClashes(policies, w);
      if |Priorities(group)| < |group| {
        ambiguous := ambiguous + {w};
      }
    }
    forall w | ClashesOn(policies, w) ensures w in byWhere {
      GroupClashes(policies, w);
      FewerPrioritiesIff(GroupOf(byWhere, w));
    }
  }

  method IndexByEventType(policies: seq<Policy>) returns (index: map<string, seq<Policy>>)
    ensures forall e :: Candidates(index, e) == Filter(policies, IsFor(e))
  {
    index := map[];
    for i := 0 to |policies|
      invariant forall e :: Candidates(index, e) == Filter(policies[..i], IsFor(e))
    {
      var p := policies[i];
      assert policies[..i + 1] == policies[..i] + [p];
      forall e ensures Filter(policies[..i + 1], IsFor(e)) ==
                       Filter(policies[..i], IsFor(e)) + if p.eventType == e then [p] else [] {
        FilterAppend(policies[..i], p, IsFor(e));
      }
      index := index[p.eventType := Candidates(index, p.eventType) + [p]];
    }
    assert policies[..|policies|] == policies;
  }

  /** The admissible policies of one event type. */
  function AdmissibleFor(policies: seq<Policy>, eventType: string, c: Capabilities): seq<Policy> {
    Filter(Filter(policies, IsFor(eventType)), IsAdmissible(c))
  }

  /** The index lists, for every event type, exactly its policies in pack order; a diagnostic for it
      is raised exactly when two admissible ones share a where-clause and a priority. */
  method BuildMatchIndex(policies: seq<Policy>, c: Capabilities)
      returns (index: map<string, seq<Policy>>, diagnostics: set<(string, WhereClause)>)
    ensures forall e :: Candidates(index, e) == Filter(policies, IsFor(e))
    ensures forall e, w :: (e, w) in diagnostics <==> ClashesOn(AdmissibleFor(policies, e, c), w)
  {
    hide ClashesOn, AdmissibleFor, Filter;
    index := IndexByEventType(policies);
    diagnostics := {};
    var rest := index.Keys;
    while rest != {}
      invariant rest <= index.Keys
      invariant forall e, w :: (e, w) in diagnostics <==>
                  e in index.Keys - rest && ClashesOn(AdmissibleFor(policies, e, c), w)
      decreases |rest|
    {
      var e :| e in rest;
      rest := rest - {e};
      AdmissibleCandidates(policies, index, e, c);
      var ambiguous := CheckDispatchAmbiguity(Filter(Candidates(index, e), IsAdmissible(c)));
      diagnostics := diagnostics + set w | w in ambiguous :: (e, w);
    }
    forall e, w | ClashesOn(AdmissibleFor(policies, e, c), w) ensures e in index {
      if e !in index {
        NothingClashes(policies, e, c, w);
      }
    }
  }

  lemma AdmissibleCandidates(policies: seq<Policy>, index: map<string, seq<Policy>>, e: string, c: Capabilities)
    requires Candidates(index, e) == Filter(policies, IsFor(e))
    ensures Filter(Candidates(index, e), IsAdmissible(c)) == AdmissibleFor(policies, e, c)
  {
  }

  lemma NothingClashes(policies: seq<Policy>, e: string, c: Capabilities, w: WhereClause)
    requires Filter(policies, IsFor(e)) == []
    ensures !ClashesOn(AdmissibleFor(policies, e, c), w)
  {
  }

  function Candidates(index: map<string, seq<Policy>>, eventType: string): seq<Policy> {
    if eventType in index then index[eventType] else []
  }

  // ---- The compile-time check is sound for dispatch ----

  /** Elements that agree on the where-clause differ in priority, and none occurs twice. */
  ghost predicate Ranked(s: seq<Policy>) {
    NoRepeats(s) && forall a, b :: a in s && b in s && a != b && a.where == b.where ==> Priority(a) != Priority(b)
  }

  lemma {:induction false} NoClashIsRanked(s: seq<Policy>)
    requires forall w :: !ClashesOn(s, w)
    ensures Ranked(s)
  {
    forall a, b | a in s && b in s && a != b && a.where == b.where ensures Priority(a) != Priority(b) {
      var i :| 0 <= i < |s| && s[i] == a;
      var j :| 0 <= j < |s| && s[j] == b;
      assert !ClashesOn(s, a.where);
      if i < j {
        assert !Clash(s[i], s[j]);
      } else {
        assert !Clash(s[j], s[i]);
      }
    }
    NoClashNoRepeats(s);
  }

  lemma {:induction false} NoClashNoRepeats(s: seq<Policy>)
    requires forall w :: !ClashesOn(s, w)
    ensures NoRepeats(s)
  {
    if s != [] {
      var init, last := s[..|s| - 1], s[|s| - 1];
      assert s == init + [last];
      forall w ensures !ClashesOn(init, w) {
        ClashesAppend(init, last, w);
      }
      NoClashNoRepeats(init);
      assert last !in init by {
        ClashesAppend(init, last, last.where);
        assert Clash(last, last);
      }
      assert multiset(s) == multiset(init) + multiset{last};
    }
  }

  lemma FilterKeepsRanked(s: seq<Policy>, keep: Policy -> bool)
    requires Ranked(s)
    ensures Ranked(Filter(s, keep))
  {
    forall x ensures multiset(Filter(s, keep))[x] <= 1 {
      FilterCounts(s, keep, x);
    }
  }

  lemma MatchedIsRanked(candidates: seq<Policy>, c: Capabilities, r: Request)
    requires Ranked(Filter(candidates, IsAdmissible(c)))
    ensures Ranked(Contenders(Matched(candidates, c, r)))
    ensures forall p :: p in Contenders(Matched(candidates, c, r)) ==> p in Matched(candidates, c, r)
  {
    hide Ranked, Filter;
    var s1 := Filter(candidates, IsAdmissible(c));
    FilterKeepsRanked(s1, IsEffective(r.date));
    FilterKeepsRanked(Filter(s1, IsEffective(r.date)), IsInScope(r.scope));
    var s := InScope(candidates, c, r);
    FilterKeepsRanked(s, NoWhere);
    FilterKeepsRanked(s, HasWhere);
    if r.payload.Some? {
      FilterKeepsRanked(Filter(s, HasWhere), Satisfied(r.payload.value));
    }
    var m := Matched(candidates, c, r);
    FilterKeepsRanked(m, IsOverride);
    FilterKeepsRanked(Filter(m, IsOverride), NotNamed(OverriddenBy(Filter(m, IsOverride))));
  }

  /** Ranked contenders with one where-clause between them are always told apart. */
  lemma RankedDecides(s: seq<Policy>)
    requires s != [] && Ranked(s) && forall a, b :: a in s && b in s ==> a.where == b.where
    ensures Decide(s).Ok?
  {
    SortKeeps(s, MoreSpecific);
    var byScope := Sort(s, MoreSpecific);
    SortKeeps(byScope, HigherPriority);
    var byPriority := Sort(byScope, HigherPriority);
    SortSorts(byScope, HigherPriority);
    if |s| > 1 {
      hide Specificity;
      var a, b := byPriority[0], byPriority[1];
      assert a in byPriority && b in byPriority;
      if a == b {
        TwiceInCountsTwo(byPriority, 0, 1);
      }
    }
  }

  /** If compilation raised no diagnostic for the event type, dispatch under the same capabilities
      reports a multiple match only when two matched policies have different where-clauses. */
  lemma CompileCheckIsSound(policies: seq<Policy>, eventType: string, c: Capabilities, r: Request)
    requires forall w :: !ClashesOn(AdmissibleFor(policies, eventType, c), w)
    ensures var candidates := Filter(policies, IsFor(eventType));
            var result := GetProfile(candidates, c, r);
            result.Err? && result.error.MultipleMatch? ==>
            exists a, b :: a in Matched(candidates, c, r) && b in Matched(candidates, c, r) && a.where != b.where
  {
    hide Ranked, Filter, ClashesOn, Contenders, Decide, Matched;
    var candidates := Filter(policies, IsFor(eventType));
    NoClashIsRanked(AdmissibleFor(policies, eventType, c));
    MatchedIsRanked(candidates, c, r);
    var m := Matched(candidates, c, r);
    if m != [] && forall a, b :: a in m && b in m ==> a.where == b.where {
      NonemptyContenders(m);
      RankedDecides(Contenders(m));
    }
  }

  lemma NonemptyContenders(s: seq<Policy>)
    ensures s != [] ==> Contenders(s) != []
  {
  }
}
