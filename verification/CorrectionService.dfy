/** finance_services/correction_service.py: the CorrectionEngine itself, whose methods read the link
    store, append compensating entries and mark artifacts as corrected. */
module CorrectionService {
  import opened Common
  import opened Graphs
  import opened LinkGraph
  import opened Correction

  class CorrectionEngine {
    const store: LinkStore
    const lookup: Lookup
    const periods: map<Ref, PeriodState>
    var journal: seq<Compensation>

    constructor (store: LinkStore, lookup: Lookup, periods: map<Ref, PeriodState>)
      ensures this.store == store && this.lookup == lookup && this.periods == periods && journal == []
    {
      this.store, this.lookup, this.periods, journal := store, lookup, periods, [];
    }

    /** Lists the not yet visited children of one artifact. */
    method VisitChildren(root: Ref, parent: Affected, before: seq<Affected>)
        returns (r: Outcome<seq<Affected>, CorrectionError>)
      requires Expanded(store.links, lookup, periods, root, before, parent.depth) && parent in before
      ensures r.Ok? ==> Expanded(store.links, lookup, periods, root, before + r.value, parent.depth)
      ensures r.Ok? ==> ChildrenListed(store.links, before + r.value, parent.ref)
      ensures r.Ok? ==> forall a :: a in r.value ==> a.depth == parent.depth + 1
      ensures r.Err? ==> r.error.PeriodIsClosing? && ClosingWithin(store.links, periods, root, parent.depth + 1)
      ensures r.Err? ==> CheckCanUnwind(store.links, periods, r.error.ref).Err?
    {
      hide Expanded, ChildrenListed, CheckCanUnwind, EntriesOf, EntryIds, DepthMap, Downstream, Children, ClosingWithin,
        ReachedBy;
      var affected, added: seq<Affected> := before, [];
      assert before + [] == before;
      var visited := DepthMap(before).Keys;
      var children := Children(store.links, parent.ref, DOWNSTREAM);
      for i := 0 to |children|
        invariant affected == before + added && parent in affected
        invariant visited == DepthMap(affected).Keys
        invariant Expanded(store.links, lookup, periods, root, affected, parent.depth)
        invariant forall j :: 0 <= j < i ==> children[j].child in visited
        invariant forall a :: a in added ==> a.depth == parent.depth + 1
      {
        var link := children[i];
        ChildIsDownstream(store.links, parent.ref, link);
        if link.child !in visited {
          var check := CheckCanUnwind(store.links, periods, link.child);
          if check.Err? {
            CheckRaises(store.links, periods, link.child);
            ClosingFound(store.links, lookup, periods, root, affected, parent, link.child);
            return Err(check.error);
          }
          var child := Affected(link.child, parent.depth + 1, parent.path + [link.child],
                                EntryIds(EntriesOf(lookup, link.child)), Some(link.kind), check.value);
          ReachedOverLink(store.links, lookup, periods, root, affected, parent, child, link);
          ExpandOne(store.links, lookup, periods, root, affected, parent, child);
          affected, added, visited := affected + [child], added + [child], visited + {link.child};
          assert before + added == affected;
        }
      }
      AllChildrenVisited(store.links, affected, parent.ref);
      r := Ok(added);
    }

    /** Lists the next level: the unvisited children of every artifact of the current one. */
    method VisitLevel(root: Ref, level: seq<Affected>, before: seq<Affected>, ghost d: nat)
        returns (r: Outcome<seq<Affected>, CorrectionError>)
      requires Expanded(store.links, lookup, periods, root, before, d)
      requires forall a :: a in level ==> a in before && a.depth == d
      ensures r.Ok? ==> Expanded(store.links, lookup, periods, root, before + r.value, d)
      ensures r.Ok? ==> forall a :: a in level ==> ChildrenListed(store.links, before + r.value, a.ref)
      ensures r.Ok? ==> forall a :: a in r.value ==> a.depth == d + 1
      ensures r.Err? ==> r.error.PeriodIsClosing? && ClosingWithin(store.links, periods, root, d + 1)
      ensures r.Err? ==> CheckCanUnwind(store.links, periods, r.error.ref).Err?
    {
      hide Expanded, ChildrenListed, ClosingWithin, CheckCanUnwind;
      var next: seq<Affected> := [];
      assert before + [] == before;
      for i := 0 to |level|
        invariant Expanded(store.links, lookup, periods, root, before + next, d)
        invariant forall j :: 0 <= j < i ==> ChildrenListed(store.links, before + next, level[j].ref)
        invariant forall a :: a in next ==> a.depth == d + 1
      {
        assert level[i] in level;
        var added := VisitChildren(root, level[i], before + next);
        if added.Err? {
          return Err(added.error);
        }
        assert before + next + added.value == before + (next + added.value);
        forall j | 0 <= j < i ensures ChildrenListed(store.links, before + next + added.value, level[j].ref) {
          ListedChildrenStay(store.links, before + next, added.value, level[j].ref);
        }
        next := next + added.value;
      }
      r := Ok(next);
    }

    method TraverseDownstream(root: Ref, maxDepth: int) returns (r: Outcome<seq<Affected>, CorrectionError>)
      ensures r.Ok? ==> Expanded(store.links, lookup, periods, root, r.value, Max(0, maxDepth))
      ensures r.Ok? ==> forall a :: a in r.value ==> a.depth <= Max(0, maxDepth)
      ensures r.Err? <==> ClosingWithin(store.links, periods, root, Max(0, maxDepth))
      ensures r.Err? ==> r.error.PeriodIsClosing? && CheckCanUnwind(store.links, periods, r.error.ref).Err?
    {
      hide Expanded, ChildrenListed, EntriesOf, EntryIds, ClosingWithin, CheckCanUnwind;
      var rootArtifact := Affected(root, 0, [root], EntryIds(EntriesOf(lookup, root)), None, None);
      var affected, current := [rootArtifact], [rootArtifact];
      StartTraversal(store.links, lookup, periods, rootArtifact);
      var depth := 0;
      while depth < maxDepth
        invariant 0 <= depth <= Max(0, maxDepth)
        invariant Expanded(store.links, lookup, periods, root, affected, depth)
        invariant forall a :: a in affected ==> a.depth <= depth
        invariant forall a :: a in current ==> a in affected && a.depth == depth
        invariant forall a :: a in affected && a.depth == depth ==> a in current
      {
        var next := VisitLevel(root, current, affected, depth);
        if next.Err? {
          ClosingMore(store.links, periods, root, depth + 1, maxDepth);
          return Err(next.error);
        }
        LevelDone(store.links, lookup, periods, root, affected + next.value, depth);
        if next.value == [] {
          assert affected + next.value == affected;
          NothingDeeper(store.links, lookup, periods, root, affected, depth, maxDepth);
          NothingClosing(store.links, lookup, periods, root, affected, maxDepth);
          return Ok(affected);
        }
        affected, current, depth := affected + next.value, next.value, depth + 1;
      }
      NothingClosing(store.links, lookup, periods, root, affected, depth);
      r := Ok(affected);
    }

    /** One reversal per unwindable artifact with journal lines; an unbalanced one is refused. */
    method GenerateEntries(affected: seq<Affected>) returns (r: Outcome<seq<Compensation>, CorrectionError>)
      ensures r.Ok? ==> r.value == PlanEntries(lookup, affected)
      ensures r.Ok? <==> forall c :: c in PlanEntries(lookup, affected) ==> Balanced(c.lines)
      ensures r.Err? ==> r.error.Unbalanced? && DoesNotBalance(lookup, r.error.ref)
    {
      hide ReversalOf, Balanced;
      var entries: seq<Compensation> := [];
      for i := 0 to |affected|
        invariant entries == PlanEntries(lookup, affected[..i])
        invariant forall c :: c in entries ==> Balanced(c.lines)
      {
        assert affected[..i + 1][..i] == affected[..i];
        var mine := ReversalOf(lookup, affected[i]);
        PlanPrefix(lookup, affected, i + 1);
        for k := 0 to |mine|
          invariant forall m :: 0 <= m < k ==> Balanced(mine[m].lines)
        {
          if !Balanced(mine[k].lines) {
            assert mine[k] in PlanEntries(lookup, affected[..i + 1]);
            NotBalanced(lookup, affected[i], mine[k]);
            return Err(Unbalanced(affected[i].ref));
          }
        }
        entries := entries + mine;
      }
      assert affected[..|affected|] == affected;
      r := Ok(entries);
    }

    /** A plan lists what is within the depth limit, each artifact once and at its distance, and
        carries the reversals of what it can unwind. It is refused for a corrected root, a closing
        period within the limit, any downstream link from an artifact at the limit, or a reversal
        that does not balance, and for nothing else. */
    method BuildUnwindPlan(root: Ref, strategy: Strategy, maxDepth: Option<int>)
        returns (r: Outcome<Plan, CorrectionError>)
      ensures r.Ok? ==> r.value.root == root && r.value.strategy == strategy
      ensures r.Ok? ==> Planned(store.links, lookup, periods, root, EffectiveDepth(maxDepth), r.value.affected)
      ensures r.Ok? ==> (IsDownstreamClosure(store.links, root, r.value.affected) <==>
                         || EffectiveDepth(maxDepth) > 0
                         || forall y :: (root, y) in Downstream(store.links) ==> y == root)
      ensures r.Ok? ==> r.value.entries == if strategy == DryRun then [] else PlanEntries(lookup, r.value.affected)
      ensures r.Ok? <==> Plannable(store.links, lookup, periods, root, EffectiveDepth(maxDepth), strategy)
      ensures r.Err? ==> Refusal(store.links, periods, root, EffectiveDepth(maxDepth), r.error)
      ensures r.Err? && r.error.PeriodIsClosing? ==> CheckCanUnwind(store.links, periods, r.error.ref).Err?
      ensures r.Err? && r.error.Unbalanced? ==> DoesNotBalance(lookup, r.error.ref)
    {
      hide Expanded, IsDownstreamClosure, Downstream, Corrected, Children, ClosingWithin, OpenAt, UnbalancedWithin,
        CheckCanUnwind, DoesNotBalance;
      if Corrected(store.links, root) {
        return Err(RootCorrected);
      }
      var limit := EffectiveDepth(maxDepth);
      var traversal := TraverseDownstream(root, limit);
      if traversal.Err? {
        return Err(traversal.error);
      }
      var affected := traversal.value;
      OpenIsListed(store.links, lookup, periods, root, affected, limit);
      for i := 0 to |affected|
        invariant forall j :: 0 <= j < i && affected[j].depth == limit ==>
          Children(store.links, affected[j].ref, DOWNSTREAM) == []
      {
        if affected[i].depth == limit && Children(store.links, affected[i].ref, DOWNSTREAM) != [] {
          return Err(DepthExceeded);
        }
      }
      forall a | a in affected && a.depth == limit ensures forall y :: (a.ref, y) !in Downstream(store.links) {
        NoChildrenNoEdges(store.links, a.ref);
      }
      CascadeIsClosure(store.links, lookup, periods, root, affected, limit);
      PlanBalancesIff(store.links, lookup, periods, root, affected, limit);
      if strategy == DryRun {
        return Ok(Plan(root, strategy, affected, []));
      }
      var entries := GenerateEntries(affected);
      if entries.Err? {
        return Err(entries.error);
      }
      r := Ok(Plan(root, strategy, affected, entries.value));
    }

    method FirstBlocked(affected: seq<Affected>) returns (r: Option<Ref>)
      ensures r.None? <==> forall a :: a in affected ==> a.CanUnwind()
      ensures r.Some? ==> exists i :: 0 <= i < |affected| && affected[i].ref == r.value && affected[i].block.Some? &&
                                      forall j :: 0 <= j < i ==> affected[j].block.None?
    {
      for i := 0 to |affected|
        invariant forall j :: 0 <= j < i ==> affected[j].CanUnwind()
      {
        if !affected[i].CanUnwind() {
          return Some(affected[i].ref);
        }
      }
      r := None;
    }

    method MarkArtifact(a: Affected, doc: Ref) returns (r: Option<LinkError>)
      requires store.Valid()
      modifies store
      ensures store.Valid()
      ensures MarkOne(old(store.links), a, doc) == (store.links, r)
    {
      hide WellFormed, Establish;
      if !a.CanUnwind() {
        return None;
      }
      var created := CreateLink(CorrectionLink(a.ref, doc));
      if created.Err? {
        return Some(created.error);
      }
      var result := store.EstablishLink(created.value, true);
      r := if result.Err? then Some(result.error) else None;
    }

    /** Marks every unwindable artifact with a CORRECTED_BY link, stopping at the first rejection. */
    method MarkCorrected(affected: seq<Affected>, doc: Ref) returns (r: Option<LinkError>)
      requires store.Valid()
      modifies store
      ensures store.Valid()
      ensures LinkPhase(old(store.links), affected, doc) == (store.links, r)
    {
      hide WellFormed, MarkOne;
      for i := 0 to |affected|
        invariant store.Valid()
        invariant LinkPhase(old(store.links), affected[..i], doc) == (store.links, None)
      {
        assert affected[..i + 1][..i] == affected[..i];
        r := MarkArtifact(affected[i], doc);
        if r.Some? {
          LinkPhaseStops(old(store.links), affected, doc, i + 1);
          return;
        }
      }
      assert affected[..|affected|] == affected;
      r := None;
    }

    /** Entries first, links second: a rejected link leaves the entries behind for the caller's
        transaction to roll back; every other failure leaves the books as they were. */
    method ExecuteCorrection(plan: Plan, doc: Ref) returns (r: Outcome<(), CorrectionError>)
      requires store.Valid()
      modifies this`journal, store
      ensures store.Valid()
      ensures r.Err? && !r.error.LinkRejected? ==> journal == old(journal) && store.links == old(store.links)
      ensures r.Ok? || r.error.LinkRejected? <==>
        && plan.strategy != DryRun && !Corrected(old(store.links), plan.root)
        && (plan.strategy == Cascade ==> forall a :: a in plan.affected ==> a.CanUnwind())
      ensures r.Ok? || r.error.LinkRejected? ==>
        && journal == old(journal) + plan.entries
        && LinkPhase(old(store.links), plan.affected, doc) ==
           (store.links, if r.Ok? then None else Some(r.error.why))
    {
      hide LinkPhase, Corrected;
      if plan.strategy == DryRun {
        return Err(DryRunPlan);
      }
      var blocked := FirstBlocked(plan.affected);
      if plan.strategy == Cascade && blocked.Some? {
        return Err(CascadeBlocked(blocked.value));
      }
      if Corrected(store.links, plan.root) {
        return Err(RootCorrected);
      }
      journal := journal + plan.entries;
      var rejected := MarkCorrected(plan.affected, doc);
      r := if rejected.Some? then Err(LinkRejected(rejected.value)) else Ok(());
    }

    /** A void marks the document and what it finds unblocked downstream, with or without cascade:
        cascade only decides whether a blocked artifact stops it. Its entries are written before the
        links, so a rejected link leaves them behind. */
    method VoidDocument(root: Ref, eventId: nat, cascade: bool, maxDepth: Option<int>)
        returns (r: Outcome<(), CorrectionError>)
      requires store.Valid()
      modifies this`journal, store
      ensures store.Valid()
      ensures r.Ok? ==> VoidStep(lookup, Books(old(store.links), old(journal)), Books(store.links, journal))
      // Exactly which artifacts it marks and compensates.
      ensures r.Ok? ==> forall x :: Corrected(store.links, x) <==>
        Corrected(old(store.links), x) || Marks(old(store.links), periods, root, EffectiveDepth(maxDepth), x)
      ensures r.Ok? && EffectiveDepth(maxDepth) > 0 ==> MarksDownstream(old(store.links), periods, root, store.links)
      ensures r.Ok? || r.error.LinkRejected? ==>
        Compensated(old(store.links), lookup, periods, root, EffectiveDepth(maxDepth), old(journal), journal)
      ensures r.Err? && !r.error.LinkRejected? ==> journal == old(journal) && store.links == old(store.links)
      // In the terms of links and periods: what it newly corrects, and the links it adds.
      ensures r.Ok? ==> forall x :: x != root && Corrected(store.links, x) && !Corrected(old(store.links), x) ==>
        && (forall l :: l in old(store.links) && l.parent == x ==> l.kind != CorrectedBy && l.kind != ReversedBy)
        && (x in periods ==> periods[x] == Open)
        && Reaches(Downstream(old(store.links)), root, x)
      ensures forall l :: l in old(store.links) ==> l in store.links
      ensures forall l :: l in store.links && l !in old(store.links) ==>
        l.kind == CorrectedBy && l.child == Ref(JournalEntry, eventId)
      // Exactly when it completes, and when it stops half way.
      ensures FreshFor(old(store.links), root, Ref(JournalEntry, eventId)) ==>
        && (r.Ok? || r.error.LinkRejected? <==>
           Executable(old(store.links), lookup, periods, root, EffectiveDepth(maxDepth), cascade))
        && (r.Ok? ==> OnlyCorrectable(old(store.links), periods, root, EffectiveDepth(maxDepth)))
        && (r.Err? && r.error.LinkRejected? ==>
           !OnlyCorrectable(old(store.links), periods, root, EffectiveDepth(maxDepth)))
    {
      hide LinkPhase, Corrected, Downstream, Children, Distances, DepthMap, EntriesOf, Plannable, MarksDownstream,
        FreshFor, OnlyCorrectable, VoidStep, Compensated, NothingBlocked, Planned, Marks, Executable, PlanEntries,
        Refusal, Due, WellFormed;
      var strategy := if cascade then Cascade else StopAtPosted;
      ghost var links, entries, limit, doc := store.links, journal, EffectiveDepth(maxDepth),
        Ref(JournalEntry, eventId);
      var built := BuildUnwindPlan(root, strategy, maxDepth);
      ExecutableIs(links, lookup, periods, root, limit, cascade);
      if built.Err? {
        RefusalIsNoRejection(links, periods, root, limit, built.error);
        return Err(built.error);
      }
      var plan := built.value;
      BlockedIff(links, lookup, periods, root, limit, plan.affected);
      NotCorrectedYet(links, lookup, periods, root, limit, strategy);
      r := ExecuteCorrection(plan, Ref(JournalEntry, eventId));
      if r.Ok? || r.error.LinkRejected? {
        WrittenEntries(links, lookup, periods, root, limit, plan.affected, entries);
        AddedLinks(links, plan.affected, doc);
        if FreshFor(links, root, doc) {
          LinksCompleteIff(links, lookup, periods, root, limit, plan.affected, doc);
        }
      }
      if r.Ok? {
        CompletedVoid(links, lookup, periods, root, limit, strategy, plan.affected, doc, entries,
          Books(store.links, journal));
        forall x | x != root && Marks(links, periods, root, limit, x)
          ensures (forall l :: l in links && l.parent == x ==> l.kind != CorrectedBy && l.kind != ReversedBy)
          ensures (x in periods ==> periods[x] == Open) && Reaches(Downstream(links), root, x) {
          MarkedMeans(links, periods, root, limit, x);
        }
      }
    }
  }

  // ---- What a plan and its execution amount to ----

  /** The list of a plan: sound, and exactly what is within the limit, at its distance. */
  ghost predicate Planned(
    links: seq<Link>, lookup: Lookup, periods: map<Ref, PeriodState>, root: Ref, limit: int, affected: seq<Affected>)
  {
    && Expanded(links, lookup, periods, root, affected, Max(0, limit))
    && forall a :: a in affected ==> a.depth <= Max(0, limit)
  }

  lemma PlannedIs(
    links: seq<Link>, lookup: Lookup, periods: map<Ref, PeriodState>, root: Ref, limit: int, affected: seq<Affected>)
    requires Planned(links, lookup, periods, root, limit, affected)
    ensures Listed(links, lookup, periods, root, affected)
    ensures forall x :: Within(links, root, x, Max(0, limit)) <==>
      exists i :: 0 <= i < |affected| && affected[i].ref == x
    ensures forall a :: a in affected ==> AtDistance(links, root, a.ref, a.depth) && a.depth <= Max(0, limit)
  {
    hide Listed, ClosedBelow, Within, Downstream, DepthMap;
    forall x ensures Within(links, root, x, Max(0, limit)) <==>
      exists i :: 0 <= i < |affected| && affected[i].ref == x {
      ListedIsWithin(links, lookup, periods, root, affected, Max(0, limit), x);
    }
    forall a | a in affected ensures AtDistance(links, root, a.ref, a.depth) {
      ListedIsWithin(links, lookup, periods, root, affected, Max(0, limit), a.ref);
    }
  }

  /** When a plan can be built. */
  ghost predicate Plannable(
    links: seq<Link>, lookup: Lookup, periods: map<Ref, PeriodState>, root: Ref, limit: int, strategy: Strategy)
  {
    && !Corrected(links, root)
    && !ClosingWithin(links, periods, root, Max(0, limit))
    && !OpenAt(links, root, limit)
    && (strategy != DryRun ==> !UnbalancedWithin(links, lookup, periods, root, limit))
  }

  /** The order in which a plan is refused. */
  ghost predicate Refusal(links: seq<Link>, periods: map<Ref, PeriodState>, root: Ref, limit: int, e: CorrectionError) {
    if Corrected(links, root) then e == RootCorrected
    else if ClosingWithin(links, periods, root, Max(0, limit)) then e.PeriodIsClosing?
    else if OpenAt(links, root, limit) then e == DepthExceeded
    else e.Unbalanced?
  }

  /** The effect promised for a positive limit, in terms of reachability alone. */
  ghost predicate MarksDownstream(links: seq<Link>, periods: map<Ref, PeriodState>, root: Ref, after: seq<Link>) {
    forall x :: Corrected(after, x) <==>
      || Corrected(links, x)
      || (Reaches(Downstream(links), root, x) && (x == root || CheckCanUnwind(links, periods, x) == Ok(None)))
  }

  /** When the entries of a void are written: a plan exists, and a cascade finds nothing blocked. */
  ghost predicate Executable(
    links: seq<Link>, lookup: Lookup, periods: map<Ref, PeriodState>, root: Ref, limit: int, cascade: bool)
  {
    && Plannable(links, lookup, periods, root, limit, if cascade then Cascade else StopAtPosted)
    && (cascade ==> NothingBlocked(links, periods, root, limit))
  }

  ghost predicate NothingBlocked(links: seq<Link>, periods: map<Ref, PeriodState>, root: Ref, limit: int) {
    forall x :: Within(links, root, x, Max(0, limit)) ==> Marks(links, periods, root, limit, x)
  }

  /** Everything to be marked is of a kind that CORRECTED_BY allows. */
  ghost predicate OnlyCorrectable(links: seq<Link>, periods: map<Ref, PeriodState>, root: Ref, limit: int) {
    forall x :: Marks(links, periods, root, limit, x) ==> x.kind in CORRECTABLE
  }

  /** The correcting event's document takes part in no correction and is not downstream of root. */
  ghost predicate FreshFor(links: seq<Link>, root: Ref, doc: Ref) {
    && doc.kind == JournalEntry
    && (forall l :: l in links && l.kind == CorrectedBy ==> l.parent != doc)
    && !Reaches(Downstream(links), root, doc)
  }

  /** What is marked besides the root is downstream of it, uncorrected, not reversed, in an open period. */
  lemma MarkedMeans(links: seq<Link>, periods: map<Ref, PeriodState>, root: Ref, limit: int, x: Ref)
    requires Marks(links, periods, root, limit, x) && x != root
    ensures forall l :: l in links && l.parent == x ==> l.kind != CorrectedBy && l.kind != ReversedBy
    ensures (x in periods ==> periods[x] == Open) && Reaches(Downstream(links), root, x)
  {
    hide Within, CheckCanUnwind;
    CanUnwindIff(links, periods, x);
    WithinReaches(links, root, x, Max(0, limit));
  }

  lemma AddedLinks(links: seq<Link>, affected: seq<Affected>, doc: Ref)
    ensures var after := LinkPhase(links, affected, doc).0;
            && (forall l :: l in links ==> l in after)
            && (forall l :: l in after && l !in links ==> l.kind == CorrectedBy && l.child == doc)
  {
    hide LinkPhase;
    var after := LinkPhase(links, affected, doc).0;
    forall l ensures l in links ==> l in after
             ensures l in after && l !in links ==> l.kind == CorrectedBy && l.child == doc {
      LinkPhaseAdds(links, affected, doc, l);
    }
  }

  lemma ExecutableIs(
    links: seq<Link>, lookup: Lookup, periods: map<Ref, PeriodState>, root: Ref, limit: int, cascade: bool)
    ensures Executable(links, lookup, periods, root, limit, cascade) <==>
            && Plannable(links, lookup, periods, root, limit, if cascade then Cascade else StopAtPosted)
            && (cascade ==> NothingBlocked(links, periods, root, limit))
  {
  }

  lemma RefusalIsNoRejection(
    links: seq<Link>, periods: map<Ref, PeriodState>, root: Ref, limit: int, e: CorrectionError)
    requires Refusal(links, periods, root, limit, e)
    ensures !e.LinkRejected?
  {
  }

  lemma NotCorrectedYet(
    links: seq<Link>, lookup: Lookup, periods: map<Ref, PeriodState>, root: Ref, limit: int, strategy: Strategy)
    requires Plannable(links, lookup, periods, root, limit, strategy)
    ensures !Corrected(links, root)
  {
  }

  lemma BlockedIff(
    links: seq<Link>, lookup: Lookup, periods: map<Ref, PeriodState>, root: Ref, limit: int, affected: seq<Affected>)
    requires Planned(links, lookup, periods, root, limit, affected)
    ensures (forall a :: a in affected ==> a.CanUnwind()) <==> NothingBlocked(links, periods, root, limit)
  {
    hide Expanded, Within, Marks;
    PlannedIs(links, lookup, periods, root, limit, affected);
    if forall a :: a in affected ==> a.CanUnwind() {
      forall x | Within(links, root, x, Max(0, limit)) ensures Marks(links, periods, root, limit, x) {
        var i :| 0 <= i < |affected| && affected[i].ref == x;
        assert affected[i] in affected;
        UnwindsIsMarks(links, lookup, periods, root, affected, limit, x);
      }
    }
    if NothingBlocked(links, periods, root, limit) {
      forall a | a in affected ensures a.CanUnwind() {
        var i :| 0 <= i < |affected| && affected[i] == a;
        assert Within(links, root, a.ref, Max(0, limit));
        UnwindsIsMarks(links, lookup, periods, root, affected, limit, a.ref);
        OnlyEntryUnwinds(links, lookup, periods, root, affected, a);
      }
    }
  }

  lemma OnlyEntryUnwinds(
    links: seq<Link>, lookup: Lookup, periods: map<Ref, PeriodState>, root: Ref, affected: seq<Affected>, a: Affected)
    requires Listed(links, lookup, periods, root, affected) && a in affected && Unwinds(affected, a.ref)
    ensures a.CanUnwind()
  {
    hide Downstream, Distances, DepthMap, CheckCanUnwind, EntriesOf;
  }

  /** The compensations written: what each marked artifact is due, and nothing for any other. */
  ghost predicate Compensated(
    links: seq<Link>, lookup: Lookup, periods: map<Ref, PeriodState>, root: Ref, limit: int,
    before: seq<Compensation>, after: seq<Compensation>)
  {
    forall x :: CompensationsFor(after, x) ==
                (CompensationsFor(before, x) + if Marks(links, periods, root, limit, x) then Due(lookup, x) else [])
  }

  lemma WrittenEntries(
    links: seq<Link>, lookup: Lookup, periods: map<Ref, PeriodState>, root: Ref, limit: int, affected: seq<Affected>,
    before: seq<Compensation>)
    requires Planned(links, lookup, periods, root, limit, affected)
    ensures Compensated(links, lookup, periods, root, limit, before, before + PlanEntries(lookup, affected))
  {
    hide Listed, Marks, CompensationsFor, PlanEntries, Due;
    ListIsDistinct(links, lookup, periods, root, limit, affected);
    var after := before + PlanEntries(lookup, affected);
    forall x ensures CompensationsFor(after, x) ==
                     (CompensationsFor(before, x) +
                       if Marks(links, periods, root, limit, x) then Due(lookup, x) else []) {
      UnwindsIsMarks(links, lookup, periods, root, affected, limit, x);
      PlanCompensatesOnce(lookup, affected, x);
      CompensationsAppend(before, PlanEntries(lookup, affected), x);
    }
  }

  lemma ListIsDistinct(
    links: seq<Link>, lookup: Lookup, periods: map<Ref, PeriodState>, root: Ref, limit: int, affected: seq<Affected>)
    requires Planned(links, lookup, periods, root, limit, affected)
    ensures DistinctRefs(affected)
  {
  }

  lemma LinksCompleteIff(
    links: seq<Link>, lookup: Lookup, periods: map<Ref, PeriodState>, root: Ref, limit: int, affected: seq<Affected>,
    doc: Ref)
    requires Planned(links, lookup, periods, root, limit, affected) && !Corrected(links, root) &&
      FreshFor(links, root, doc)
    ensures LinkPhase(links, affected, doc).1.None? <==> OnlyCorrectable(links, periods, root, limit)
  {
    hide Expanded, LinkPhase, Corrected, Marks, Within, OnlyCorrectable, Listed;
    PlannedIs(links, lookup, periods, root, limit, affected);
    ListIsDistinct(links, lookup, periods, root, limit, affected);
    UnwindableIsUncorrected(links, lookup, periods, root, affected);
    forall a | a in affected ensures a.ref != doc {
      var i :| 0 <= i < |affected| && affected[i] == a;
      WithinReaches(links, root, a.ref, Max(0, limit));
    }
    ExecutionCompletesIff(links, affected, doc, |affected|);
    assert affected[..|affected|] == affected;
    KindsIff(links, lookup, periods, root, limit, affected);
  }

  lemma KindsIff(
    links: seq<Link>, lookup: Lookup, periods: map<Ref, PeriodState>, root: Ref, limit: int, affected: seq<Affected>)
    requires Planned(links, lookup, periods, root, limit, affected)
    ensures (forall i :: 0 <= i < |affected| && affected[i].CanUnwind() ==> affected[i].ref.kind in CORRECTABLE) <==>
            OnlyCorrectable(links, periods, root, limit)
  {
    hide Expanded, Marks;
    if OnlyCorrectable(links, periods, root, limit) {
      forall i | 0 <= i < |affected| && affected[i].CanUnwind() ensures affected[i].ref.kind in CORRECTABLE {
        UnwindsIsMarks(links, lookup, periods, root, affected, limit, affected[i].ref);
      }
    } else {
      var x :| Marks(links, periods, root, limit, x) && x.kind !in CORRECTABLE;
      UnwindsIsMarks(links, lookup, periods, root, affected, limit, x);
    }
  }

  lemma CompletedVoid(
    links: seq<Link>, lookup: Lookup, periods: map<Ref, PeriodState>, root: Ref, limit: int, strategy: Strategy,
    affected: seq<Affected>, doc: Ref, entries: seq<Compensation>, after: Books)
    requires Planned(links, lookup, periods, root, limit, affected)
    requires Plannable(links, lookup, periods, root, limit, strategy)
    requires LinkPhase(links, affected, doc) == (after.links, None) &&
      after.journal == entries + PlanEntries(lookup, affected)
    ensures VoidStep(lookup, Books(links, entries), after)
    ensures forall x :: Corrected(after.links, x) <==> Corrected(links, x) || Marks(links, periods, root, limit, x)
    ensures limit > 0 ==> MarksDownstream(links, periods, root, after.links)
  {
    hide Expanded, LinkPhase, Corrected, Within, PlanEntries, Downstream, CheckCanUnwind, OpenAt, ClosingWithin,
      UnbalancedWithin;
    PlannedIs(links, lookup, periods, root, limit, affected);
    ListIsDistinct(links, lookup, periods, root, limit, affected);
    UnwindableIsUncorrected(links, lookup, periods, root, affected);
    forall x ensures Corrected(after.links, x) <==> Corrected(links, x) || Marks(links, periods, root, limit, x) {
      LinkPhaseCorrects(links, affected, doc, x);
      UnwindsIsMarks(links, lookup, periods, root, affected, limit, x);
    }
    if limit > 0 {
      forall x ensures Within(links, root, x, limit) <==> Reaches(Downstream(links), root, x) {
        NothingBeyond(links, root, limit, x);
      }
    }
  }

  lemma ReachedOverLink(
    links: seq<Link>, lookup: Lookup, periods: map<Ref, PeriodState>, root: Ref, affected: seq<Affected>,
    parent: Affected, child: Affected, link: Link)
    requires Expanded(links, lookup, periods, root, affected, parent.depth) && parent in affected
    requires link in Children(links, parent.ref, DOWNSTREAM) && child.ref == link.child
    requires child.path == parent.path + [child.ref] && child.via == Some(link.kind)
    ensures ReachedBy(links, child)
  {
    hide Downstream, CheckCanUnwind, EntriesOf, DepthMap, Distances, ClosedBelow;
    assert link in links && child.path[|child.path| - 2] == parent.path[|parent.path| - 1];
  }

  lemma ClosingFound(
    links: seq<Link>, lookup: Lookup, periods: map<Ref, PeriodState>, root: Ref, affected: seq<Affected>,
    parent: Affected, child: Ref)
    requires Expanded(links, lookup, periods, root, affected, parent.depth) && parent in affected
    requires (parent.ref, child) in Downstream(links) && child !in DepthMap(affected)
    requires CheckCanUnwind(links, periods, child).Err?
    ensures ClosingWithin(links, periods, root, parent.depth + 1)
  {
    hide Downstream, CheckCanUnwind, EntriesOf, DepthMap, Within;
    ListedDistance(links, lookup, periods, root, affected, parent);
    WithinNext(links, root, parent.ref, child, parent.depth);
    assert affected[0].ref == root;
    assert root in DepthMap(affected);
  }

  lemma ClosingMore(links: seq<Link>, periods: map<Ref, PeriodState>, root: Ref, d: int, e: int)
    requires ClosingWithin(links, periods, root, d) && d <= e
    ensures ClosingWithin(links, periods, root, e)
  {
    hide CheckCanUnwind, Within;
    var x :| x != root && Within(links, root, x, d) && CheckCanUnwind(links, periods, x).Err?;
    WithinMore(links, root, x, d, e);
  }

  /** With cascade or without, a void leaves the rest of the graph alone exactly when nothing below
      the document could be unwound: a caller who wants only the document voided must check that. */
  lemma OnlyDocumentVoidedIff(links: seq<Link>, periods: map<Ref, PeriodState>, root: Ref, after: seq<Link>)
    requires MarksDownstream(links, periods, root, after)
    ensures (forall x :: x != root ==> (Corrected(after, x) <==> Corrected(links, x))) <==>
            forall x :: x != root && Reaches(Downstream(links), root, x) ==>
              CheckCanUnwind(links, periods, x) != Ok(None)
  {
    hide Downstream, Children, Reaches;
  }

  lemma NotBalanced(lookup: Lookup, a: Affected, c: Compensation)
    requires c in ReversalOf(lookup, a) && !Balanced(c.lines)
    ensures DoesNotBalance(lookup, a.ref)
  {
    hide Reversal, Balanced;
  }

  lemma {:induction false} PlanPrefix(lookup: Lookup, affected: seq<Affected>, n: nat)
    requires n <= |affected|
    ensures PlanEntries(lookup, affected[..n]) <= PlanEntries(lookup, affected)
    decreases |affected| - n
  {
    if n < |affected| {
      PlanPrefix(lookup, affected, n + 1);
      assert affected[..n + 1][..n] == affected[..n];
    } else {
      assert affected[..n] == affected;
    }
  }

  lemma {:induction false} LinkPhaseStops(links: seq<Link>, affected: seq<Affected>, doc: Ref, n: nat)
    requires n <= |affected| && LinkPhase(links, affected[..n], doc).1.Some?
    ensures LinkPhase(links, affected, doc) == LinkPhase(links, affected[..n], doc)
    decreases |affected|
  {
    if n == |affected| {
      assert affected[..n] == affected;
    } else {
      var init := affected[..|affected| - 1];
      assert init[..n] == affected[..n];
      LinkPhaseStops(links, init, doc, n);
    }
  }

  lemma UnwindableIsUncorrected(
    links: seq<Link>, lookup: Lookup, periods: map<Ref, PeriodState>, root: Ref, affected: seq<Affected>)
    requires Listed(links, lookup, periods, root, affected) && !Corrected(links, root)
    ensures forall a :: a in affected && a.CanUnwind() ==> !Corrected(links, a.ref)
  {
    hide Corrected, Downstream, Children, Distances, DepthMap, EntriesOf;
  }

  // ---- When execution is all or nothing ----

  /** The document created by the correcting event takes part in no correction yet. */
  ghost predicate FreshDocument(links: seq<Link>, affected: seq<Affected>, doc: Ref) {
    && doc.kind == JournalEntry
    && (forall l :: l in links && l.kind == CorrectedBy ==> l.parent != doc)
    && (forall a :: a in affected ==> a.ref != doc)
  }

  const CORRECTABLE := {Invoice, Receipt, Payment, PurchaseOrder, JournalEntry}

  lemma {:induction false} LinkPhaseKeepsDocumentFresh(links: seq<Link>, affected: seq<Affected>, doc: Ref, n: nat)
    requires FreshDocument(links, affected, doc) && n <= |affected|
    ensures FreshDocument(LinkPhase(links, affected[..n], doc).0, affected, doc)
  {
    if n == 0 {
      assert affected[..0] == [];
    } else {
      LinkPhaseKeepsDocumentFresh(links, affected, doc, n - 1);
      assert affected[..n][..n - 1] == affected[..n - 1];
      assert affected[n - 1] in affected;
    }
  }

  lemma FreshDocumentReachesNothing(links: seq<Link>, affected: seq<Affected>, doc: Ref, ref: Ref)
    requires FreshDocument(links, affected, doc) && ref != doc
    ensures !Reaches(Edges(links, {CorrectedBy}), doc, ref)
  {
    var g := Edges(links, {CorrectedBy});
    if p :| PathFromTo(g, p, doc, ref) {
      PathStaysInside(g, {doc}, p);
    }
  }

  /** Atomicity: under a fresh correction document, marking succeeds, so that no compensating entry
      is left without its link, exactly when every unwindable artifact is of a correctable type. */
  lemma {:induction false} ExecutionCompletesIff(links: seq<Link>, affected: seq<Affected>, doc: Ref, n: nat)
    requires FreshDocument(links, affected, doc) && DistinctRefs(affected) && n <= |affected|
    requires forall a :: a in affected && a.CanUnwind() ==> !Corrected(links, a.ref)
    ensures LinkPhase(links, affected[..n], doc).1.None? <==>
            forall i :: 0 <= i < n && affected[i].CanUnwind() ==> affected[i].ref.kind in CORRECTABLE
  {
    hide Corrected, LinkPhase, MarkOne, FreshDocument;
    LinkPhaseUpTo(links, affected, doc, n);
    if n > 0 {
      var init, last := affected[..n - 1], affected[n - 1];
      assert last in affected;
      ExecutionCompletesIff(links, affected, doc, n - 1);
      if LinkPhase(links, init, doc).1.None? {
        LinkPhaseCorrects(links, init, doc, last.ref);
        assert !Unwinds(init, last.ref);
        LinkPhaseKeepsDocumentFresh(links, affected, doc, n - 1);
        MarkFresh(LinkPhase(links, init, doc).0, affected, doc, last);
      }
    }
  }

  lemma LinkPhaseUpTo(links: seq<Link>, affected: seq<Affected>, doc: Ref, n: nat)
    requires n <= |affected|
    ensures LinkPhase(links, affected[..n], doc) ==
            if n == 0 then (links, None)
            else
              var before := LinkPhase(links, affected[..n - 1], doc);
              if before.1.Some? then before else MarkOne(before.0, affected[n - 1], doc)
  {
    hide MarkOne;
    if n > 0 {
      assert affected[..n][..n - 1] == affected[..n - 1];
    }
  }

  lemma MarkFresh(links: seq<Link>, affected: seq<Affected>, doc: Ref, a: Affected)
    requires FreshDocument(links, affected, doc) && a in affected
    requires a.CanUnwind() ==> !Corrected(links, a.ref)
    ensures MarkOne(links, a, doc).1.None? <==> (a.CanUnwind() ==> a.ref.kind in CORRECTABLE)
  {
    hide Corrected, Establish;
    if a.CanUnwind() {
      FreshDocumentReachesNothing(links, affected, doc, a.ref);
      EstablishUncorrected(links, CorrectionLink(a.ref, doc));
    }
  }

  lemma EstablishUncorrected(links: seq<Link>, l: Link)
    requires l.kind == CorrectedBy && !Corrected(links, l.parent)
    requires !Reaches(Edges(links, {CorrectedBy}), l.child, l.parent)
    ensures Establish(links, l, true) == Ok(Created)
  {
    forall s | s in links ensures !SameLink(s, l) {
      assert s in Children(links, l.parent, {CorrectedBy}) <==> s.parent == l.parent && s.kind == CorrectedBy;
    }
  }
}
