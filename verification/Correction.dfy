/** finance_services/correction_service.py with finance_engines/correction/unwind.py: the cascade
    traversal, the unwind plan, its execution, and what any run of voids leaves behind. */
module Correction {
  import opened Common
  import opened Graphs
  import opened LinkGraph

  datatype Strategy = Cascade | StopAtPosted | Selective | DryRun

  datatype PeriodState = Open | Closing | Closed

  datatype BlockReason = AlreadyCorrected | AlreadyReversed | PeriodClosed

  datatype GLLine = GLLine(account: string, currency: string, amount: int, isDebit: bool)

  datatype GLEntry = GLEntry(id: nat, lines: seq<GLLine>)

  /** What gl_entry_lookup answers: the journal entries posted for an artifact. */
  type Lookup = map<Ref, seq<GLEntry>>

  datatype Compensation = Compensation(ref: Ref, originalId: nat, lines: seq<GLLine>)

  datatype Affected = Affected(
    ref: Ref, depth: nat, path: seq<Ref>, glEntries: seq<nat>, via: Option<LinkType>, block: Option<BlockReason>)
  {
    predicate CanUnwind() { block.None? }
  }

  datatype Plan = Plan(root: Ref, strategy: Strategy, affected: seq<Affected>, entries: seq<Compensation>)

  datatype CorrectionError =
    | RootCorrected
    | PeriodIsClosing(ref: Ref)     // not caught by _check_can_unwind
    | DepthExceeded
    | Unbalanced(ref: Ref)
    | DryRunPlan
    | CascadeBlocked(ref: Ref)
    | LinkRejected(why: LinkError)  // raised after the compensating entries are written

  const DOWNSTREAM := {FulfilledBy, SourcedFrom, DerivedFrom, ConsumedBy, PaidBy}

  const DEFAULT_MAX_DEPTH: int := 10

  function Downstream(links: seq<Link>): Graph<Ref> { Edges(links, DOWNSTREAM) }

  predicate Corrected(links: seq<Link>, ref: Ref) { Children(links, ref, {CorrectedBy}) != [] }

  function EntriesOf(lookup: Lookup, ref: Ref): seq<GLEntry> {
    if ref in lookup then lookup[ref] else []
  }

  function EntryIds(entries: seq<GLEntry>): (ids: seq<nat>)
    ensures |ids| == |entries| && forall i :: 0 <= i < |ids| ==> ids[i] == entries[i].id
  {
    seq(|entries|, i requires 0 <= i < |entries| => entries[i].id)
  }

  /** _check_can_unwind: the reason an artifact is blocked, if any. */
  function CheckCanUnwind(links: seq<Link>, periods: map<Ref, PeriodState>, ref: Ref)
    : Outcome<Option<BlockReason>, CorrectionError>
  {
    if Corrected(links, ref) then Ok(Some(AlreadyCorrected))
    else if Children(links, ref, {ReversedBy}) != [] then Ok(Some(AlreadyReversed))
    else if ref in periods && periods[ref] == Closed then Ok(Some(PeriodClosed))
    else if ref in periods && periods[ref] == Closing then Err(PeriodIsClosing(ref))
    else Ok(None)
  }

  lemma CorrectedIff(links: seq<Link>, ref: Ref)
    ensures Corrected(links, ref) <==> exists l :: l in links && l.kind == CorrectedBy && l.parent == ref
  {
    hide Children;
    var children := Children(links, ref, {CorrectedBy});
    assert children != [] ==> children[0] in children;
  }

  lemma HasReversalIff(links: seq<Link>, ref: Ref)
    ensures Children(links, ref, {ReversedBy}) != [] <==>
            exists l :: l in links && l.kind == ReversedBy && l.parent == ref
  {
    hide Children;
    var children := Children(links, ref, {ReversedBy});
    assert children != [] ==> children[0] in children;
  }

  /** An artifact may be unwound exactly when no link corrects or reverses it and its period, if it has
      one, is open; otherwise a correction counts before a reversal, and a reversal before the period. */
  lemma CanUnwindIff(links: seq<Link>, periods: map<Ref, PeriodState>, ref: Ref)
    ensures CheckCanUnwind(links, periods, ref) == Ok(None) <==>
            && (forall l :: l in links && l.parent == ref ==> l.kind != CorrectedBy && l.kind != ReversedBy)
            && (ref in periods ==> periods[ref] == Open)
    ensures CheckCanUnwind(links, periods, ref) == Ok(Some(AlreadyCorrected)) <==>
            exists l :: l in links && l.parent == ref && l.kind == CorrectedBy
    ensures CheckCanUnwind(links, periods, ref) == Ok(Some(AlreadyReversed)) <==>
            && (forall l :: l in links && l.parent == ref ==> l.kind != CorrectedBy)
            && (exists l :: l in links && l.parent == ref && l.kind == ReversedBy)
    ensures CheckCanUnwind(links, periods, ref) == Ok(Some(PeriodClosed)) <==>
            && (forall l :: l in links && l.parent == ref ==> l.kind != CorrectedBy && l.kind != ReversedBy)
            && ref in periods && periods[ref] == Closed
    ensures CheckCanUnwind(links, periods, ref).Err? <==>
            && (forall l :: l in links && l.parent == ref ==> l.kind != CorrectedBy && l.kind != ReversedBy)
            && ref in periods && periods[ref] == Closing
  {
    hide Children, Corrected;
    CorrectedIff(links, ref);
    HasReversalIff(links, ref);
  }

  /** What lies downstream of what: fulfilment, sourcing, derivation, consumption and payment. */
  lemma DownstreamIff(links: seq<Link>, a: Ref, b: Ref)
    ensures (a, b) in Downstream(links) <==>
            exists l :: l in links && l.parent == a && l.child == b &&
                        l.kind in {FulfilledBy, SourcedFrom, DerivedFrom, ConsumedBy, PaidBy}
  {
  }

  /** A limit of zero counts as none, and none as ten. */
  lemma DepthGiven(d: int)
    ensures EffectiveDepth(None) == 10 && EffectiveDepth(Some(0)) == 10
    ensures d != 0 ==> EffectiveDepth(Some(d)) == d
  {
  }

  // ---- Cascade traversal ----

  function DepthMap(affected: seq<Affected>): (m: map<Ref, nat>)
    ensures forall x :: x in m <==> exists i :: 0 <= i < |affected| && affected[i].ref == x
  {
    if affected == [] then map[]
    else
      var last := affected[|affected| - 1];
      DepthMap(affected[..|affected| - 1])[last.ref := last.depth]
  }

  ghost predicate DistinctRefs(affected: seq<Affected>) {
    forall i, j :: 0 <= i < j < |affected| ==> affected[i].ref != affected[j].ref
  }

  lemma DepthMapAppend(affected: seq<Affected>, a: Affected)
    ensures DepthMap(affected + [a]) == DepthMap(affected)[a.ref := a.depth]
  {
    assert (affected + [a])[..|affected + [a]| - 1] == affected;
  }

  lemma {:induction false} DepthMapLookup(affected: seq<Affected>, i: nat)
    requires DistinctRefs(affected) && i < |affected|
    ensures affected[i].ref in DepthMap(affected) && DepthMap(affected)[affected[i].ref] == affected[i].depth
  {
    var init := affected[..|affected| - 1];
    if i < |init| {
      DepthMapLookup(init, i);
    }
  }

  /** Everything a traversal promises about the artifacts it lists, short of having listed them all. */
  ghost predicate Listed(
    links: seq<Link>, lookup: Lookup, periods: map<Ref, PeriodState>, root: Ref, affected: seq<Affected>)
  {
    && affected != [] && affected[0].ref == root && affected[0].block.None?
    && DistinctRefs(affected)
    && Distances(Downstream(links), root, DepthMap(affected))
    && forall a :: a in affected ==>
         && PathFromTo(Downstream(links), a.path, root, a.ref) && |a.path| == a.depth + 1
         && a.glEntries == EntryIds(EntriesOf(lookup, a.ref))
         && (a.ref == root || (CheckCanUnwind(links, periods, a.ref) == Ok(a.block) && ReachedBy(links, a)))
  }

  /** The last step of the path to an artifact is a link of the recorded type. */
  ghost predicate ReachedBy(links: seq<Link>, a: Affected) {
    && |a.path| >= 2 && a.via.Some?
    && exists l :: l in links && l.kind == a.via.value && l.parent == a.path[|a.path| - 2] && l.child == a.ref
  }

  /** The cascade is exactly the set of artifacts downstream of the root, at their distances. */
  ghost predicate IsDownstreamClosure(links: seq<Link>, root: Ref, affected: seq<Affected>) {
    && (forall x :: Reaches(Downstream(links), root, x) <==> exists i :: 0 <= i < |affected| && affected[i].ref == x)
    && (forall a :: a in affected ==>
          forall p :: PathFromTo(Downstream(links), p, root, a.ref) ==> |p| >= a.depth + 1)
  }

  lemma ListExtends(
    links: seq<Link>, lookup: Lookup, periods: map<Ref, PeriodState>, root: Ref,
    affected: seq<Affected>, parent: Affected, child: Affected)
    requires Listed(links, lookup, periods, root, affected) && parent in affected
    requires ClosedBelow(Downstream(links), DepthMap(affected), parent.depth)
    requires (parent.ref, child.ref) in Downstream(links) && child.ref !in DepthMap(affected)
    requires child.depth == parent.depth + 1 && child.path == parent.path + [child.ref]
    requires child.glEntries == EntryIds(EntriesOf(lookup, child.ref))
    requires CheckCanUnwind(links, periods, child.ref) == Ok(child.block) && ReachedBy(links, child)
    ensures Listed(links, lookup, periods, root, affected + [child])
  {
    hide Distances, ClosedBelow, CheckCanUnwind, DepthMap, EntriesOf, EntryIds, Downstream;
    var i :| 0 <= i < |affected| && affected[i] == parent;
    DepthMapLookup(affected, i);
    AddToLevel(Downstream(links), root, DepthMap(affected), parent.ref, child.ref);
    DepthMapAppend(affected, child);
  }

  lemma ClosureWhenNoLevelIsOpen(
    links: seq<Link>, lookup: Lookup, periods: map<Ref, PeriodState>, root: Ref, affected: seq<Affected>)
    requires Listed(links, lookup, periods, root, affected)
    requires ClosedUnder(Downstream(links), DepthMap(affected).Keys)
    ensures IsDownstreamClosure(links, root, affected)
  {
    LevelsAreReachability(Downstream(links), root, DepthMap(affected));
    forall a, p | a in affected && PathFromTo(Downstream(links), p, root, a.ref) ensures |p| >= a.depth + 1 {
      var i :| 0 <= i < |affected| && affected[i] == a;
      DepthMapLookup(affected, i);
    }
  }

  // ---- Compensating entries ----

  function Flip(lines: seq<GLLine>): (r: seq<GLLine>)
    ensures |r| == |lines|
  {
    if lines == [] then []
    else
      var last := lines[|lines| - 1];
      Flip(lines[..|lines| - 1]) + [last.(isDebit := !last.isDebit)]
  }

  function DebitTotal(lines: seq<GLLine>, debit: bool): int {
    if lines == [] then 0
    else
      var last := lines[|lines| - 1];
      DebitTotal(lines[..|lines| - 1], debit) + if last.isDebit == debit then last.amount else 0
  }

  predicate Balanced(lines: seq<GLLine>) { DebitTotal(lines, true) == DebitTotal(lines, false) }

  lemma {:induction false} FlipSwapsTotals(lines: seq<GLLine>)
    ensures DebitTotal(Flip(lines), true) == DebitTotal(lines, false)
    ensures DebitTotal(Flip(lines), false) == DebitTotal(lines, true)
  {
    if lines != [] {
      FlipSwapsTotals(lines[..|lines| - 1]);
    }
  }

  /** Reversing moves every line to the other side and changes nothing else. */
  lemma {:induction false} FlipLine(lines: seq<GLLine>, i: nat)
    requires i < |lines|
    ensures var line, flipped := lines[i], Flip(lines)[i];
            && flipped.account == line.account && flipped.currency == line.currency && flipped.amount == line.amount
            && flipped.isDebit != line.isDebit
  {
    if i < |lines| - 1 {
      FlipLine(lines[..|lines| - 1], i);
    }
  }

  /** Debits less credits. */
  function SignedSum(lines: seq<GLLine>): int {
    if lines == [] then 0
    else
      var last := lines[|lines| - 1];
      SignedSum(lines[..|lines| - 1]) + if last.isDebit then last.amount else -last.amount
  }

  /** An entry balances exactly when debits less credits come to nothing. */
  lemma BalancedIff(lines: seq<GLLine>)
    ensures Balanced(lines) <==> SignedSum(lines) == 0
  {
    SignedSumIs(lines);
  }

  lemma {:induction false} SignedSumIs(lines: seq<GLLine>)
    ensures SignedSum(lines) == DebitTotal(lines, true) - DebitTotal(lines, false)
  {
    if lines != [] {
      SignedSumIs(lines[..|lines| - 1]);
    }
  }

  /** _generate_compensating_entry: the mirror of the artifact's first entry, when it has lines. */
  function Reversal(lookup: Lookup, ref: Ref): Option<Compensation> {
    var entries := EntriesOf(lookup, ref);
    if entries == [] || entries[0].lines == [] then None
    else Some(Compensation(ref, entries[0].id, Flip(entries[0].lines)))
  }

  function ReversalOf(lookup: Lookup, a: Affected): seq<Compensation> {
    if a.CanUnwind() && Reversal(lookup, a.ref).Some? then [Reversal(lookup, a.ref).value] else []
  }

  function PlanEntries(lookup: Lookup, affected: seq<Affected>): seq<Compensation> {
    if affected == [] then []
    else PlanEntries(lookup, affected[..|affected| - 1]) + ReversalOf(lookup, affected[|affected| - 1])
  }

  // ---- Link phase of an execution ----

  function CorrectionLink(ref: Ref, doc: Ref): Link { Link(CorrectedBy, ref, doc, None) }

  /** The links after marking one artifact, or the rejection. */
  ghost function MarkOne(links: seq<Link>, a: Affected, doc: Ref): (seq<Link>, Option<LinkError>) {
    var l := CorrectionLink(a.ref, doc);
    if !a.CanUnwind() then (links, None)
    else if CreateLink(l).Err? then (links, Some(CreateLink(l).error))
    else
      match Establish(links, l, true)
      case Err(why) => (links, Some(why))
      case Ok(Created) => (links + [l], None)
      case Ok(AlreadyThere) => (links, None)
  }

  /** The links after marking every unwindable artifact in turn, or the rejection that stopped it. */
  ghost function LinkPhase(links: seq<Link>, affected: seq<Affected>, doc: Ref): (seq<Link>, Option<LinkError>) {
    if affected == [] then (links, None)
    else
      var (ls, e) := LinkPhase(links, affected[..|affected| - 1], doc);
      if e.Some? then (ls, e) else MarkOne(ls, affected[|affected| - 1], doc)
  }

  ghost predicate Unwinds(affected: seq<Affected>, ref: Ref) {
    exists i :: 0 <= i < |affected| && affected[i].ref == ref && affected[i].CanUnwind()
  }

  lemma CorrectedAppend(links: seq<Link>, link: Link, ref: Ref)
    ensures Corrected(links + [link], ref) <==>
      Corrected(links, ref) || (link.parent == ref && link.kind == CorrectedBy)
  {
    ChildrenAppend(links, link, ref, {CorrectedBy});
  }

  /** A completed link phase marks the unwindable artifacts and no others. */
  lemma {:induction false} LinkPhaseCorrects(links: seq<Link>, affected: seq<Affected>, doc: Ref, ref: Ref)
    requires LinkPhase(links, affected, doc).1.None?
    ensures Corrected(LinkPhase(links, affected, doc).0, ref) <==> Corrected(links, ref) || Unwinds(affected, ref)
  {
    if affected != [] {
      var init, last := affected[..|affected| - 1], affected[|affected| - 1];
      LinkPhaseCorrects(links, init, doc, ref);
      var ls := LinkPhase(links, init, doc).0;
      assert Unwinds(affected, ref) <==> Unwinds(init, ref) || (last.ref == ref && last.CanUnwind()) by {
        if Unwinds(init, ref) {
          var i :| 0 <= i < |init| && init[i].ref == ref && init[i].CanUnwind();
          assert affected[i] == init[i];
        }
        if last.ref == ref && last.CanUnwind() {
          assert affected[|affected| - 1].ref == ref;
        }
      }
      if last.CanUnwind() {
        var l := CorrectionLink(last.ref, doc);
        CorrectedAppend(ls, l, ref);
        if Establish(ls, l, true) == Ok(AlreadyThere) {
          var same :| same in ls && SameLink(same, l);
          assert same in Children(ls, last.ref, {CorrectedBy});
        }
      }
    }
  }

  /** The links a link phase adds point from unwindable artifacts to the correction document. */
  lemma {:induction false} LinkPhaseAdds(links: seq<Link>, affected: seq<Affected>, doc: Ref, l: Link)
    ensures l in links ==> l in LinkPhase(links, affected, doc).0
    ensures l in LinkPhase(links, affected, doc).0 && l !in links ==>
            l.kind == CorrectedBy && l.child == doc && Unwinds(affected, l.parent)
  {
    hide Establish;
    if affected != [] {
      var init, last := affected[..|affected| - 1], affected[|affected| - 1];
      LinkPhaseAdds(links, init, doc, l);
      UnwindsLast(affected, l.parent);
    }
  }

  /** A traversal in progress: the list is sound, and every artifact above depth d is expanded. */
  ghost predicate Expanded(
    links: seq<Link>, lookup: Lookup, periods: map<Ref, PeriodState>, root: Ref, affected: seq<Affected>, d: nat)
  {
    Listed(links, lookup, periods, root, affected) && ClosedBelow(Downstream(links), DepthMap(affected), d)
  }

  ghost predicate ChildrenListed(links: seq<Link>, affected: seq<Affected>, parent: Ref) {
    forall y :: (parent, y) in Downstream(links) ==> y in DepthMap(affected)
  }

  lemma ExpandOne(
    links: seq<Link>, lookup: Lookup, periods: map<Ref, PeriodState>, root: Ref,
    affected: seq<Affected>, parent: Affected, child: Affected)
    requires Expanded(links, lookup, periods, root, affected, parent.depth) && parent in affected
    requires (parent.ref, child.ref) in Downstream(links) && child.ref !in DepthMap(affected)
    requires child.depth == parent.depth + 1 && child.path == parent.path + [child.ref]
    requires child.glEntries == EntryIds(EntriesOf(lookup, child.ref))
    requires CheckCanUnwind(links, periods, child.ref) == Ok(child.block) && ReachedBy(links, child)
    ensures Expanded(links, lookup, periods, root, affected + [child], parent.depth)
    ensures DepthMap(affected + [child]).Keys == DepthMap(affected).Keys + {child.ref}
  {
    hide Listed, ClosedBelow, CheckCanUnwind, EntriesOf, EntryIds, Downstream;
    ListExtends(links, lookup, periods, root, affected, parent, child);
    OpenLevelGrows(Downstream(links), DepthMap(affected), parent.depth, child.ref, child.depth);
    DepthMapAppend(affected, child);
  }

  /** Once every artifact of depth d has its children listed, the next level may begin. */
  lemma LevelDone(
    links: seq<Link>, lookup: Lookup, periods: map<Ref, PeriodState>, root: Ref, affected: seq<Affected>, d: nat)
    requires Expanded(links, lookup, periods, root, affected, d)
    requires forall a :: a in affected && a.depth == d ==> ChildrenListed(links, affected, a.ref)
    ensures Expanded(links, lookup, periods, root, affected, d + 1)
  {
    hide Downstream, CheckCanUnwind, EntriesOf, EntryIds, Distances;
    var m := DepthMap(affected);
    forall x, y | x in m && m[x] < d + 1 && (x, y) in Downstream(links) ensures y in m {
      var i :| 0 <= i < |affected| && affected[i].ref == x;
      DepthMapLookup(affected, i);
      assert affected[i] in affected;
    }
  }

  /** With nothing deeper than d listed, expanding through d expands everything. */
  lemma NothingDeeper(
    links: seq<Link>, lookup: Lookup, periods: map<Ref, PeriodState>, root: Ref, affected: seq<Affected>, d: nat,
      e: nat)
    requires Expanded(links, lookup, periods, root, affected, d + 1)
    requires forall a :: a in affected ==> a.depth <= d
    ensures Expanded(links, lookup, periods, root, affected, e)
  {
    hide Downstream, CheckCanUnwind, EntriesOf, EntryIds, Distances;
    var m := DepthMap(affected);
    forall x | x in m ensures m[x] <= d {
      var i :| 0 <= i < |affected| && affected[i].ref == x;
      DepthMapLookup(affected, i);
      assert affected[i] in affected;
    }
  }

  /** A finished traversal whose deepest artifacts have no children has listed the whole closure. */
  lemma ClosureWhenDeepestAreLeaves(
    links: seq<Link>, lookup: Lookup, periods: map<Ref, PeriodState>, root: Ref, affected: seq<Affected>, d: nat)
    requires Expanded(links, lookup, periods, root, affected, d)
    requires forall a :: a in affected ==> a.depth <= d
    requires forall a, y :: a in affected && a.depth == d ==> (a.ref, y) !in Downstream(links)
    ensures IsDownstreamClosure(links, root, affected)
  {
    hide Downstream, CheckCanUnwind, EntriesOf, EntryIds, Distances, IsDownstreamClosure;
    var m := DepthMap(affected);
    forall x, y | x in m && (x, y) in Downstream(links) ensures y in m {
      var i :| 0 <= i < |affected| && affected[i].ref == x;
      DepthMapLookup(affected, i);
      assert affected[i] in affected;
    }
    ClosureWhenNoLevelIsOpen(links, lookup, periods, root, affected);
  }

  lemma ChildIsDownstream(links: seq<Link>, parent: Ref, link: Link)
    requires link in Children(links, parent, DOWNSTREAM)
    ensures (parent, link.child) in Downstream(links)
  {
  }

  lemma CheckRaises(links: seq<Link>, periods: map<Ref, PeriodState>, ref: Ref)
    ensures CheckCanUnwind(links, periods, ref).Err? ==>
            CheckCanUnwind(links, periods, ref) == Err(PeriodIsClosing(ref))
  {
  }

  lemma AllChildrenVisited(links: seq<Link>, affected: seq<Affected>, parent: Ref)
    requires forall l :: l in Children(links, parent, DOWNSTREAM) ==> l.child in DepthMap(affected)
    ensures ChildrenListed(links, affected, parent)
  {
  }

  /** max_depth = max_depth or DEFAULT_MAX_DEPTH: zero counts as not given. */
  function EffectiveDepth(maxDepth: Option<int>): int {
    if maxDepth.None? || maxDepth.value == 0 then DEFAULT_MAX_DEPTH else maxDepth.value
  }

  // ---- How far down a plan looks ----

  /** Some downstream path of at most d links leads from root to x. */
  ghost predicate Within(links: seq<Link>, root: Ref, x: Ref, d: int) {
    exists p :: PathFromTo(Downstream(links), p, root, x) && |p| <= d + 1
  }

  /** The shortest downstream path from root to x has d links. */
  ghost predicate AtDistance(links: seq<Link>, root: Ref, x: Ref, d: int) {
    Within(links, root, x, d) && !Within(links, root, x, d - 1)
  }

  /** Some artifact at distance exactly d has a downstream link, wherever it leads. */
  ghost predicate OpenAt(links: seq<Link>, root: Ref, d: int) {
    exists x :: AtDistance(links, root, x, d) && Children(links, x, DOWNSTREAM) != []
  }

  /** Some artifact is downstream of root, but not within d links. */
  ghost predicate GraphExceeds(links: seq<Link>, root: Ref, d: int) {
    exists x :: Reaches(Downstream(links), root, x) && !Within(links, root, x, d)
  }

  /** Some artifact below the root, within d links, is in a closing period. */
  ghost predicate ClosingWithin(links: seq<Link>, periods: map<Ref, PeriodState>, root: Ref, d: int) {
    exists x :: x != root && Within(links, root, x, d) && CheckCanUnwind(links, periods, x).Err?
  }

  /** What a correction of root marks: the root, and what it finds unblocked within the limit. */
  ghost predicate Marks(links: seq<Link>, periods: map<Ref, PeriodState>, root: Ref, limit: int, x: Ref) {
    Within(links, root, x, Max(0, limit)) && (x == root || CheckCanUnwind(links, periods, x) == Ok(None))
  }

  /** Some artifact to be marked has an entry whose reversal does not balance. */
  ghost predicate UnbalancedWithin(
    links: seq<Link>, lookup: Lookup, periods: map<Ref, PeriodState>, root: Ref, limit: int)
  {
    exists x :: Marks(links, periods, root, limit, x) && DoesNotBalance(lookup, x)
  }

  predicate DoesNotBalance(lookup: Lookup, ref: Ref) {
    Reversal(lookup, ref).Some? && !Balanced(Reversal(lookup, ref).value.lines)
  }

  lemma WithinMore(links: seq<Link>, root: Ref, x: Ref, d: int, e: int)
    requires Within(links, root, x, d) && d <= e
    ensures Within(links, root, x, e)
  {
    hide Downstream;
  }

  lemma WithinNext(links: seq<Link>, root: Ref, x: Ref, y: Ref, d: int)
    requires Within(links, root, x, d) && (x, y) in Downstream(links)
    ensures Within(links, root, y, d + 1)
  {
    hide Downstream;
    var p :| PathFromTo(Downstream(links), p, root, x) && |p| <= d + 1;
    assert PathFromTo(Downstream(links), p + [y], root, y);
  }

  lemma WithinReaches(links: seq<Link>, root: Ref, x: Ref, d: int)
    requires Within(links, root, x, d)
    ensures Reaches(Downstream(links), root, x)
  {
    hide Downstream;
  }

  /** Following a path that leaves the first d levels, one passes from distance d to beyond it. */
  lemma {:induction false} LeavesThroughLevel(links: seq<Link>, root: Ref, p: seq<Ref>, d: nat) returns (x: Ref, y: Ref)
    requires IsPath(Downstream(links), p) && p[0] == root && !Within(links, root, p[|p| - 1], d)
    ensures AtDistance(links, root, x, d) && (x, y) in Downstream(links) && !Within(links, root, y, d)
    decreases |p|
  {
    hide Downstream;
    OnlyRootWithinZero(links, root, root);
    WithinMore(links, root, root, 0, d);
    var q := p[..|p| - 1];
    x, y := q[|q| - 1], p[|p| - 1];
    if !Within(links, root, x, d) {
      x, y := LeavesThroughLevel(links, root, q, d);
    } else if Within(links, root, x, d - 1) {
      WithinNext(links, root, x, y, d - 1);
    }
  }

  /** The graph exceeds d exactly when a link leads from distance d to an artifact beyond it. So the
      refusal, which fires on any link from distance d, is spurious exactly when every such link
      leads back to an artifact that is within d anyway. */
  lemma ExceedsIff(links: seq<Link>, root: Ref, d: nat)
    ensures GraphExceeds(links, root, d) <==>
            exists x, y :: AtDistance(links, root, x, d) && (x, y) in Downstream(links) && !Within(links, root, y, d)
    ensures GraphExceeds(links, root, d) ==> OpenAt(links, root, d)
  {
    hide Downstream, Children;
    if GraphExceeds(links, root, d) {
      var z :| Reaches(Downstream(links), root, z) && !Within(links, root, z, d);
      var p :| PathFromTo(Downstream(links), p, root, z);
      var x, y := LeavesThroughLevel(links, root, p, d);
      NoChildrenNoEdges(links, x);
    }
    if x, y :| AtDistance(links, root, x, d) && (x, y) in Downstream(links) && !Within(links, root, y, d) {
      WithinNext(links, root, x, y, d);
      WithinReaches(links, root, y, d + 1);
    }
  }

  /** A finished traversal has listed what is within its limit, each artifact at its distance. */
  lemma ListedIsWithin(
    links: seq<Link>, lookup: Lookup, periods: map<Ref, PeriodState>, root: Ref, affected: seq<Affected>, d: nat,
      x: Ref)
    requires Expanded(links, lookup, periods, root, affected, d)
    requires forall a :: a in affected ==> a.depth <= d
    ensures Within(links, root, x, d) <==> exists i :: 0 <= i < |affected| && affected[i].ref == x
    ensures forall a :: a in affected && a.ref == x ==> AtDistance(links, root, x, a.depth)
  {
    hide Downstream, CheckCanUnwind, EntriesOf, EntryIds, DepthMap, ClosedBelow, Distances;
    if Within(links, root, x, d) {
      var p :| PathFromTo(Downstream(links), p, root, x) && |p| <= d + 1;
      LevelsComplete(Downstream(links), root, DepthMap(affected), d, p);
    }
    forall a | a in affected && a.ref == x ensures AtDistance(links, root, x, a.depth) {
      ListedDistance(links, lookup, periods, root, affected, a);
    }
    if i :| 0 <= i < |affected| && affected[i].ref == x {
      assert affected[i] in affected;
      WithinMore(links, root, x, affected[i].depth, d);
    }
  }

  lemma ListedDistance(
    links: seq<Link>, lookup: Lookup, periods: map<Ref, PeriodState>, root: Ref, affected: seq<Affected>, a: Affected)
    requires Listed(links, lookup, periods, root, affected) && a in affected
    ensures AtDistance(links, root, a.ref, a.depth)
  {
    hide Downstream, CheckCanUnwind, EntriesOf, EntryIds, DepthMap;
    var i :| 0 <= i < |affected| && affected[i] == a;
    DepthMapLookup(affected, i);
    assert a.ref in DepthMap(affected);
  }

  /** So what a plan unwinds is exactly what is to be marked. */
  lemma UnwindsIsMarks(
    links: seq<Link>, lookup: Lookup, periods: map<Ref, PeriodState>, root: Ref, affected: seq<Affected>, limit: int,
      x: Ref)
    requires Expanded(links, lookup, periods, root, affected, Max(0, limit))
    requires forall a :: a in affected ==> a.depth <= Max(0, limit)
    ensures Unwinds(affected, x) <==> Marks(links, periods, root, limit, x)
  {
    hide Downstream, CheckCanUnwind, EntriesOf, EntryIds, DepthMap, ClosedBelow, Distances, Within;
    ListedIsWithin(links, lookup, periods, root, affected, Max(0, limit), x);
    if i :| 0 <= i < |affected| && affected[i].ref == x {
      assert affected[i] in affected && affected[0].ref == root;
      assert x == root ==> i == 0;
      assert affected[i].CanUnwind() <==> x == root || CheckCanUnwind(links, periods, x) == Ok(None);
    }
  }

  lemma NothingClosing(
    links: seq<Link>, lookup: Lookup, periods: map<Ref, PeriodState>, root: Ref, affected: seq<Affected>, d: nat)
    requires Expanded(links, lookup, periods, root, affected, d)
    requires forall a :: a in affected ==> a.depth <= d
    ensures !ClosingWithin(links, periods, root, d)
  {
    hide Downstream, CheckCanUnwind, EntriesOf, EntryIds, DepthMap, ClosedBelow, Distances, Within;
    forall x | x != root && Within(links, root, x, d) ensures CheckCanUnwind(links, periods, x).Ok? {
      ListedIsWithin(links, lookup, periods, root, affected, d, x);
      var i :| 0 <= i < |affected| && affected[i].ref == x;
      assert affected[i] in affected;
    }
  }

  /** Within a positive limit that no link leaves, everything downstream is within. */
  lemma NothingBeyond(links: seq<Link>, root: Ref, limit: nat, x: Ref)
    requires !OpenAt(links, root, limit)
    ensures Within(links, root, x, limit) <==> Reaches(Downstream(links), root, x)
  {
    hide Downstream, Within, OpenAt;
    ExceedsIff(links, root, limit);
    if Within(links, root, x, limit) {
      WithinReaches(links, root, x, limit);
    }
  }

  lemma OnlyRootWithinZero(links: seq<Link>, root: Ref, x: Ref)
    ensures Within(links, root, x, 0) <==> x == root
  {
    hide Downstream;
    assert PathFromTo(Downstream(links), [root], root, root);
  }

  /** The planned entries are the reversals of the unwindable artifacts. */
  lemma {:induction false} PlannedEntries(lookup: Lookup, affected: seq<Affected>, c: Compensation)
    ensures c in PlanEntries(lookup, affected) <==>
            exists i :: 0 <= i < |affected| && affected[i].CanUnwind() && Reversal(lookup, affected[i].ref) == Some(c)
  {
    hide Reversal;
    if affected != [] {
      var init, last := affected[..|affected| - 1], affected[|affected| - 1];
      PlannedEntries(lookup, init, c);
      if i :| 0 <= i < |init| && init[i].CanUnwind() && Reversal(lookup, init[i].ref) == Some(c) {
        assert affected[i] == init[i];
      }
    }
  }

  lemma PlanBalancesIff(
    links: seq<Link>, lookup: Lookup, periods: map<Ref, PeriodState>, root: Ref, affected: seq<Affected>, limit: int)
    requires Expanded(links, lookup, periods, root, affected, Max(0, limit))
    requires forall a :: a in affected ==> a.depth <= Max(0, limit)
    ensures (forall c :: c in PlanEntries(lookup, affected) ==> Balanced(c.lines)) <==>
            !UnbalancedWithin(links, lookup, periods, root, limit)
  {
    hide Expanded, PlanEntries, Reversal, Balanced, Marks;
    if c :| c in PlanEntries(lookup, affected) && !Balanced(c.lines) {
      PlannedEntries(lookup, affected, c);
      var i :| 0 <= i < |affected| && affected[i].CanUnwind() && Reversal(lookup, affected[i].ref) == Some(c);
      UnwindsIsMarks(links, lookup, periods, root, affected, limit, affected[i].ref);
      assert DoesNotBalance(lookup, affected[i].ref);
    }
    if x :| Marks(links, periods, root, limit, x) && DoesNotBalance(lookup, x) {
      UnwindsIsMarks(links, lookup, periods, root, affected, limit, x);
      PlannedEntries(lookup, affected, Reversal(lookup, x).value);
    }
  }

  lemma StartTraversal(links: seq<Link>, lookup: Lookup, periods: map<Ref, PeriodState>, a: Affected)
    requires a.depth == 0 && a.path == [a.ref] && a.block.None? && a.glEntries == EntryIds(EntriesOf(lookup, a.ref))
    ensures Expanded(links, lookup, periods, a.ref, [a], 0)
  {
    hide Downstream, CheckCanUnwind, EntriesOf, EntryIds;
    StartLevels(Downstream(links), a.ref);
    assert DepthMap([a]) == map[a.ref := 0];
  }

  lemma ListedChildrenStay(links: seq<Link>, affected: seq<Affected>, more: seq<Affected>, parent: Ref)
    requires ChildrenListed(links, affected, parent)
    ensures ChildrenListed(links, affected + more, parent)
  {
    hide Downstream, DepthMap;
    forall y | y in DepthMap(affected) ensures y in DepthMap(affected + more) {
      var i :| 0 <= i < |affected| && affected[i].ref == y;
      assert (affected + more)[i].ref == y;
    }
  }

  lemma NoChildrenNoEdges(links: seq<Link>, ref: Ref)
    ensures Children(links, ref, DOWNSTREAM) == [] <==> forall y :: (ref, y) !in Downstream(links)
  {
    if Children(links, ref, DOWNSTREAM) != [] {
      ChildIsDownstream(links, ref, Children(links, ref, DOWNSTREAM)[0]);
    }
  }

  /** Looking at the listed artifacts at the limit decides whether any artifact there has links. */
  lemma OpenIsListed(
    links: seq<Link>, lookup: Lookup, periods: map<Ref, PeriodState>, root: Ref, affected: seq<Affected>, limit: int)
    requires Expanded(links, lookup, periods, root, affected, Max(0, limit)) && limit != 0
    requires forall a :: a in affected ==> a.depth <= Max(0, limit)
    ensures OpenAt(links, root, limit) <==>
            exists i :: 0 <= i < |affected| && affected[i].depth == limit &&
              Children(links, affected[i].ref, DOWNSTREAM) != []
  {
    hide Expanded, Children, Within;
    if x :| AtDistance(links, root, x, limit) && Children(links, x, DOWNSTREAM) != [] {
      if limit < 0 {
        NothingWithinNegative(links, root, x, limit);
      }
      ListedIsWithin(links, lookup, periods, root, affected, Max(0, limit), x);
      var i :| 0 <= i < |affected| && affected[i].ref == x;
      assert affected[i] in affected;
      SameDistance(links, root, x, limit, affected[i].depth);
    }
    if i :| 0 <= i < |affected| && affected[i].depth == limit && Children(links, affected[i].ref, DOWNSTREAM) != [] {
      assert affected[i] in affected;
      ListedIsWithin(links, lookup, periods, root, affected, Max(0, limit), affected[i].ref);
    }
  }

  lemma NothingWithinNegative(links: seq<Link>, root: Ref, x: Ref, d: int)
    requires d < 0
    ensures !Within(links, root, x, d)
  {
  }

  lemma SameDistance(links: seq<Link>, root: Ref, x: Ref, d: int, e: int)
    requires AtDistance(links, root, x, d) && AtDistance(links, root, x, e)
    ensures d == e
  {
    hide Within;
    if d < e {
      WithinMore(links, root, x, d, e - 1);
    } else if e < d {
      WithinMore(links, root, x, e, d - 1);
    }
  }

  /** A plan lists the closure, except that a negative depth limit lists the root alone. */
  lemma CascadeIsClosure(
    links: seq<Link>, lookup: Lookup, periods: map<Ref, PeriodState>, root: Ref, affected: seq<Affected>, limit: int)
    requires Expanded(links, lookup, periods, root, affected, Max(0, limit)) && limit != 0
    requires forall a :: a in affected ==> a.depth <= Max(0, limit)
    requires forall a, y :: a in affected && a.depth == limit ==> (a.ref, y) !in Downstream(links)
    ensures Listed(links, lookup, periods, root, affected)
    ensures IsDownstreamClosure(links, root, affected) <==>
            limit > 0 || forall y :: (root, y) in Downstream(links) ==> y == root
  {
    hide Downstream, CheckCanUnwind, EntriesOf, EntryIds, Distances, DepthMap;
    if limit > 0 {
      ClosureWhenDeepestAreLeaves(links, lookup, periods, root, affected, limit);
    } else {
      RootAlone(links, lookup, periods, root, affected);
    }
  }

  lemma RootAlone(
    links: seq<Link>, lookup: Lookup, periods: map<Ref, PeriodState>, root: Ref, affected: seq<Affected>)
    requires Listed(links, lookup, periods, root, affected)
    requires forall a :: a in affected ==> a.depth == 0
    ensures IsDownstreamClosure(links, root, affected) <==> forall y :: (root, y) in Downstream(links) ==> y == root
  {
    hide Downstream, CheckCanUnwind, EntriesOf, EntryIds, Distances, DepthMap;
    var g := Downstream(links);
    forall i | 0 <= i < |affected| ensures affected[i].ref == root {
      assert affected[i] in affected;
    }
    if forall y :: (root, y) in g ==> y == root {
      ReachesItself(g, root);
      SearchIsReachability(g, root, {root});
      forall x | Reaches(g, root, x) ensures exists i :: 0 <= i < |affected| && affected[i].ref == x {
        assert affected[0].ref == x;
      }
    } else {
      var y :| (root, y) in g && y != root;
      ReachesItself(g, y);
      ReachesNext(g, root, y, y);
    }
  }

  // ---- Compensation over whole runs ----

  /** The net effect of lines on one account in one currency, debits positive. */
  function Net(lines: seq<GLLine>, account: string, currency: string): int {
    if lines == [] then 0
    else
      var last := lines[|lines| - 1];
      Net(lines[..|lines| - 1], account, currency) +
      if last.account != account || last.currency != currency then 0
      else if last.isDebit then last.amount else -last.amount
  }

  function NetOfEntries(entries: seq<GLEntry>, account: string, currency: string): int {
    if entries == [] then 0
    else Net(entries[0].lines, account, currency) + NetOfEntries(entries[1..], account, currency)
  }

  function CompensationsFor(journal: seq<Compensation>, ref: Ref): seq<Compensation> {
    if journal == [] then []
    else
      var last := journal[|journal| - 1];
      CompensationsFor(journal[..|journal| - 1], ref) + if last.ref == ref then [last] else []
  }

  function NetOfCompensations(cs: seq<Compensation>, account: string, currency: string): int {
    if cs == [] then 0
    else NetOfCompensations(cs[..|cs| - 1], account, currency) + Net(cs[|cs| - 1].lines, account, currency)
  }

  /** What the ledger shows for an artifact: its own entries and everything posted to compensate it. */
  function LedgerBalance(lookup: Lookup, journal: seq<Compensation>, ref: Ref, account: string, currency: string): int {
    NetOfEntries(EntriesOf(lookup, ref), account, currency) +
    NetOfCompensations(CompensationsFor(journal, ref), account, currency)
  }

  lemma {:induction false} FlipNegates(lines: seq<GLLine>, account: string, currency: string)
    ensures Net(Flip(lines), account, currency) == -Net(lines, account, currency)
  {
    if lines != [] {
      FlipNegates(lines[..|lines| - 1], account, currency);
    }
  }

  lemma {:induction false} CompensationsAppend(a: seq<Compensation>, b: seq<Compensation>, ref: Ref)
    ensures CompensationsFor(a + b, ref) == CompensationsFor(a, ref) + CompensationsFor(b, ref)
  {
    if b == [] {
      assert a + b == a;
    } else {
      CompensationsAppend(a, b[..|b| - 1], ref);
      assert (a + b)[..|a + b| - 1] == a + b[..|b| - 1];
    }
  }

  /** The compensation an artifact is due once corrected. */
  function Due(lookup: Lookup, ref: Ref): seq<Compensation> {
    if Reversal(lookup, ref).Some? then [Reversal(lookup, ref).value] else []
  }

  /** An artifact is due one compensation, a mirror of its first entry, unless it has no entry or the first
      one has no lines. */
  lemma DueIs(lookup: Lookup, ref: Ref)
    ensures var entries := EntriesOf(lookup, ref);
            if entries == [] || entries[0].lines == [] then Due(lookup, ref) == []
            else
              && |Due(lookup, ref)| == 1
              && Due(lookup, ref)[0].ref == ref && Due(lookup, ref)[0].originalId == entries[0].id
              && |Due(lookup, ref)[0].lines| == |entries[0].lines|
  {
  }

  /** A plan over distinct artifacts compensates each unwindable one once and touches no other. */
  lemma {:induction false} PlanCompensatesOnce(lookup: Lookup, affected: seq<Affected>, ref: Ref)
    requires DistinctRefs(affected)
    ensures CompensationsFor(PlanEntries(lookup, affected), ref) ==
            if Unwinds(affected, ref) then Due(lookup, ref) else []
  {
    hide Reversal, CompensationsFor;
    if affected != [] {
      var init, last := affected[..|affected| - 1], affected[|affected| - 1];
      PlanCompensatesOnce(lookup, init, ref);
      CompensationsAppend(PlanEntries(lookup, init), ReversalOf(lookup, last), ref);
      UnwindsLast(affected, ref);
      PlannedFor(lookup, last, ref);
    } else {
      assert CompensationsFor([], ref) == [] by { NoCompensations(ref); }
    }
  }

  lemma NoCompensations(ref: Ref)
    ensures CompensationsFor([], ref) == []
  {
  }

  lemma PlannedFor(lookup: Lookup, a: Affected, ref: Ref)
    ensures CompensationsFor(ReversalOf(lookup, a), ref) ==
            if a.CanUnwind() && a.ref == ref then Due(lookup, ref) else []
  {
    if ReversalOf(lookup, a) != [] {
      assert ReversalOf(lookup, a)[..0] == [];
    }
  }

  lemma UnwindsLast(affected: seq<Affected>, ref: Ref)
    requires affected != []
    ensures var init, last := affected[..|affected| - 1], affected[|affected| - 1];
            Unwinds(affected, ref) <==> Unwinds(init, ref) || (last.ref == ref && last.CanUnwind())
  {
    var init := affected[..|affected| - 1];
    if Unwinds(init, ref) {
      var i :| 0 <= i < |init| && init[i].ref == ref && init[i].CanUnwind();
      assert affected[i] == init[i];
    }
  }

  /** The stores that voids change. */
  datatype Books = Books(links: seq<Link>, journal: seq<Compensation>)

  /** A completed void: entries for the plan are written, then every unwindable artifact is marked. */
  ghost predicate VoidStep(lookup: Lookup, b: Books, b': Books) {
    exists affected: seq<Affected>, doc ::
      && DistinctRefs(affected)
      && (forall a :: a in affected && a.CanUnwind() ==> !Corrected(b.links, a.ref))
      && LinkPhase(b.links, affected, doc) == (b'.links, None)
      && b'.journal == b.journal + PlanEntries(lookup, affected)
  }

  /** Any sequence of voids, each either completed or rolled back. */
  ghost predicate VoidRun(lookup: Lookup, run: seq<Books>) {
    run != [] && forall i :: 0 <= i < |run| - 1 ==> run[i + 1] == run[i] || VoidStep(lookup, run[i], run[i + 1])
  }

  /** Relative to the books at the start: an artifact corrected since carries exactly the one
      compensation it is due, and every other artifact carries none. */
  ghost predicate Settled(lookup: Lookup, start: Books, b: Books, ref: Ref) {
    && (Corrected(start.links, ref) ==> Corrected(b.links, ref))
    && CompensationsFor(b.journal, ref) == CompensationsFor(start.journal, ref) +
       if Corrected(b.links, ref) && !Corrected(start.links, ref) then Due(lookup, ref) else []
  }

  lemma VoidKeepsSettled(lookup: Lookup, start: Books, b: Books, b': Books, ref: Ref)
    requires Settled(lookup, start, b, ref) && VoidStep(lookup, b, b')
    ensures Settled(lookup, start, b', ref)
  {
    hide LinkPhase, Corrected, Due, PlanEntries, CompensationsFor;
    var affected: seq<Affected>, doc :|
      && DistinctRefs(affected)
      && (forall a :: a in affected && a.CanUnwind() ==> !Corrected(b.links, a.ref))
      && LinkPhase(b.links, affected, doc) == (b'.links, None)
      && b'.journal == b.journal + PlanEntries(lookup, affected);
    LinkPhaseCorrects(b.links, affected, doc, ref);
    PlanCompensatesOnce(lookup, affected, ref);
    CompensationsAppend(b.journal, PlanEntries(lookup, affected), ref);
    if Unwinds(affected, ref) {
      var i :| 0 <= i < |affected| && affected[i].ref == ref && affected[i].CanUnwind();
      assert affected[i] in affected;
    }
  }

  lemma {:induction false} RunIsSettled(lookup: Lookup, run: seq<Books>, ref: Ref)
    requires VoidRun(lookup, run)
    ensures Settled(lookup, run[0], run[|run| - 1], ref)
    decreases |run|
  {
    if |run| > 1 {
      var k := |run| - 2;
      RunIsSettled(lookup, run[..|run| - 1], ref);
      if run[k + 1] != run[k] {
        VoidKeepsSettled(lookup, run[0], run[k], run[k + 1], ref);
      }
    }
  }

  /** Serial voids are neutral: over any run an artifact's balance changes only by losing its first
      entry, and only if the run corrected it; every other artifact keeps its balance. */
  lemma VoidsAreNeutral(lookup: Lookup, run: seq<Books>, ref: Ref, account: string, currency: string)
    requires VoidRun(lookup, run)
    ensures var first, last := run[0], run[|run| - 1];
            var entries := EntriesOf(lookup, ref);
            var before := LedgerBalance(lookup, first.journal, ref, account, currency);
            var after := LedgerBalance(lookup, last.journal, ref, account, currency);
            if Corrected(last.links, ref) && !Corrected(first.links, ref) && entries != []
            then after == before - Net(entries[0].lines, account, currency)
            else after == before
  {
    var first, last := run[0], run[|run| - 1];
    RunIsSettled(lookup, run, ref);
    var earlier := CompensationsFor(first.journal, ref);
    if Corrected(last.links, ref) && !Corrected(first.links, ref) {
      DueNegatesFirstEntry(lookup, ref, earlier, account, currency);
    } else {
      assert earlier + [] == earlier;
    }
  }

  lemma DueNegatesFirstEntry(lookup: Lookup, ref: Ref, earlier: seq<Compensation>, account: string, currency: string)
    ensures var entries := EntriesOf(lookup, ref);
            NetOfCompensations(earlier + Due(lookup, ref), account, currency) ==
            NetOfCompensations(earlier, account, currency) -
            if entries == [] then 0 else Net(entries[0].lines, account, currency)
  {
    var entries := EntriesOf(lookup, ref);
    if Reversal(lookup, ref).Some? {
      FlipNegates(entries[0].lines, account, currency);
      assert (earlier + Due(lookup, ref))[..|earlier|] == earlier;
    } else {
      assert earlier + Due(lookup, ref) == earlier;
    }
  }

  lemma FreshBalance(lookup: Lookup, ref: Ref, account: string, currency: string)
    ensures CompensationsFor([], ref) == []
    ensures LedgerBalance(lookup, [], ref, account, currency) == NetOfEntries(EntriesOf(lookup, ref), account, currency)
  {
  }

  lemma OneEntry(entries: seq<GLEntry>, account: string, currency: string)
    requires |entries| <= 1
    ensures NetOfEntries(entries, account, currency) ==
            if entries == [] then 0 else Net(entries[0].lines, account, currency)
  {
    if entries != [] {
      assert entries[1..] == [];
    }
  }

  /** With one journal entry to its name, a freshly corrected artifact is compensated at most once
      and nets to zero in every account and currency. */
  lemma CorrectedArtifactsNetToZero(lookup: Lookup, run: seq<Books>, ref: Ref, account: string, currency: string)
    requires VoidRun(lookup, run) && run[0].journal == [] && |EntriesOf(lookup, ref)| <= 1
    requires Corrected(run[|run| - 1].links, ref) && !Corrected(run[0].links, ref)
    ensures LedgerBalance(lookup, run[|run| - 1].journal, ref, account, currency) == 0
    ensures |CompensationsFor(run[|run| - 1].journal, ref)| <= 1
  {
    hide LedgerBalance, Corrected, NetOfEntries, CompensationsFor, EntriesOf, Reversal;
    VoidsAreNeutral(lookup, run, ref, account, currency);
    RunIsSettled(lookup, run, ref);
    FreshBalance(lookup, ref, account, currency);
    OneEntry(EntriesOf(lookup, ref), account, currency);
  }

  /** The promise stops at the first entry: a second one survives the void untouched. */
  lemma SecondEntrySurvives(lookup: Lookup, run: seq<Books>, ref: Ref, account: string, currency: string)
    requires VoidRun(lookup, run) && run[0].journal == [] && EntriesOf(lookup, ref) != []
    requires Corrected(run[|run| - 1].links, ref) && !Corrected(run[0].links, ref)
    ensures LedgerBalance(lookup, run[|run| - 1].journal, ref, account, currency) ==
            NetOfEntries(EntriesOf(lookup, ref)[1..], account, currency)
  {
    FreshBalance(lookup, ref, account, currency);
    VoidsAreNeutral(lookup, run, ref, account, currency);
  }

  // ---- Journal entries reversed twice ----

  lemma {:induction false} CompensationsAre(journal: seq<Compensation>, ref: Ref, c: Compensation)
    ensures c in CompensationsFor(journal, ref) <==> c in journal && c.ref == ref
  {
    if journal != [] {
      var init, last := journal[..|journal| - 1], journal[|journal| - 1];
      CompensationsAre(init, ref, c);
      assert journal == init + [last];
    }
  }

  /** Two places in the journal for one artifact are two compensations. */
  lemma TwoCompensations(journal: seq<Compensation>, i: nat, j: nat)
    requires i < j < |journal| && journal[i].ref == journal[j].ref
    ensures |CompensationsFor(journal, journal[i].ref)| >= 2
  {
    hide CompensationsFor;
    var ref := journal[i].ref;
    assert journal == journal[..j] + journal[j..];
    CompensationsAppend(journal[..j], journal[j..], ref);
    assert journal[i] in journal[..j] && journal[j] in journal[j..];
    CompensationsAre(journal[..j], ref, journal[i]);
    CompensationsAre(journal[j..], ref, journal[j]);
  }

  ghost predicate SomeReversedTwice(journal: seq<Compensation>) {
    exists i, j :: 0 <= i < j < |journal| && journal[i].originalId == journal[j].originalId
  }

  /** The run corrected the artifact and had an entry of it to reverse. */
  ghost predicate ReversedInRun(lookup: Lookup, run: seq<Books>, ref: Ref)
    requires run != []
  {
    Corrected(run[|run| - 1].links, ref) && !Corrected(run[0].links, ref) && Reversal(lookup, ref).Some?
  }

  ghost predicate ShareFirstEntry(lookup: Lookup, a: Ref, b: Ref) {
    && Reversal(lookup, a).Some? && Reversal(lookup, b).Some?
    && Reversal(lookup, a).value.originalId == Reversal(lookup, b).value.originalId
  }

  /** Two artifacts that the run corrected and that have the same first entry. */
  ghost predicate BothReversed(lookup: Lookup, run: seq<Books>, a: Ref, b: Ref)
    requires run != []
  {
    a != b && ReversedInRun(lookup, run, a) && ReversedInRun(lookup, run, b) && ShareFirstEntry(lookup, a, b)
  }

  lemma ReversalsOfRun(lookup: Lookup, run: seq<Books>, ref: Ref)
    requires VoidRun(lookup, run) && run[0].journal == []
    ensures ReversedInRun(lookup, run, ref) ==> Reversal(lookup, ref).Some?
    ensures CompensationsFor(run[|run| - 1].journal, ref) ==
            if ReversedInRun(lookup, run, ref) then [Reversal(lookup, ref).value] else []
  {
    hide Corrected, CompensationsFor, Reversal, VoidStep;
    RunIsSettled(lookup, run, ref);
    NoCompensations(ref);
  }

  /** Over any run a journal entry is reversed twice exactly when it is the first entry of two different
      artifacts that the run corrected; with distinct first entries each is reversed at most once. */
  lemma ReversedTwiceIff(lookup: Lookup, run: seq<Books>)
    requires VoidRun(lookup, run) && run[0].journal == []
    ensures SomeReversedTwice(run[|run| - 1].journal) <==>
            exists a, b :: BothReversed(lookup, run, a, b)
  {
    hide Corrected, CompensationsFor, Reversal, VoidStep, ReversedInRun;
    var journal := run[|run| - 1].journal;
    if SomeReversedTwice(journal) {
      var i, j :| 0 <= i < j < |journal| && journal[i].originalId == journal[j].originalId;
      var a, b := journal[i].ref, journal[j].ref;
      CompensationsAre(journal, a, journal[i]);
      CompensationsAre(journal, b, journal[j]);
      ReversalsOfRun(lookup, run, a);
      ReversalsOfRun(lookup, run, b);
      if a == b {
        TwoCompensations(journal, i, j);
      }
      assert BothReversed(lookup, run, a, b);
    }
    if a, b :| BothReversed(lookup, run, a, b) {
      var c, d := Reversal(lookup, a).value, Reversal(lookup, b).value;
      ReversalsOfRun(lookup, run, a);
      ReversalsOfRun(lookup, run, b);
      CompensationsAre(journal, a, c);
      CompensationsAre(journal, b, d);
      var i :| 0 <= i < |journal| && journal[i] == c;
      var j :| 0 <= j < |journal| && journal[j] == d;
      assert journal[Min(i, j)].originalId == journal[Max(i, j)].originalId;
    }
  }
}
