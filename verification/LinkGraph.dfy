/** finance_kernel/domain/economic_link.py and finance_kernel/services/link_graph_service.py: typed
    links between artifacts, kept in an append-only store that refuses duplicates, cycles and
    surplus children. */
module LinkGraph {
  import opened Common
  import opened Graphs

  datatype ArtifactType =
    | Event | JournalEntry | JournalLine | PurchaseOrder | Receipt | Invoice | Payment | CreditMemo
    | DebitMemo | CostLot | Shipment | InventoryAdjustment | Asset | Depreciation | Disposal
    | BankStatement | BankTransaction | IntercompanyTransaction

  datatype LinkType =
    | FulfilledBy | PaidBy | AppliedTo | ReversedBy | CorrectedBy | ConsumedBy | SourcedFrom
    | AllocatedTo | AllocatedFrom | DerivedFrom | MatchedWith | AdjustedBy

  datatype Ref = Ref(kind: ArtifactType, id: nat)

  /** amount is the "amount_applied" entry of the link's metadata. */
  datatype Link = Link(kind: LinkType, parent: Ref, child: Ref, amount: Option<int>)

  datatype LinkError = SelfLink | IllegalTypes | Duplicate | Cycle | TooManyChildren

  datatype Established = Created | AlreadyThere

  const MATCHABLE := {PurchaseOrder, Receipt, Invoice, BankStatement, BankTransaction, JournalEntry}

  predicate TypesAllowed(t: LinkType, parent: ArtifactType, child: ArtifactType) {
    match t
    case FulfilledBy => parent in {PurchaseOrder, Receipt} && child in {Receipt, Invoice}
    case PaidBy => parent in {Invoice, CreditMemo, DebitMemo} && child == Payment
    case ReversedBy => parent in {JournalEntry, Event} && child in {JournalEntry, Event}
    case CorrectedBy =>
      && parent in {Invoice, Receipt, Payment, PurchaseOrder, JournalEntry}
      && child in {Invoice, Receipt, Payment, CreditMemo, JournalEntry}
    case ConsumedBy => parent == CostLot && child in {Event, Shipment, InventoryAdjustment}
    case SourcedFrom => parent in {Event, Receipt} && child == CostLot
    case AllocatedTo => parent in {Payment, JournalEntry, CostLot} && child in {Invoice, JournalLine, Event}
    case MatchedWith => parent in MATCHABLE && child in MATCHABLE
    case AdjustedBy => parent in {JournalEntry, CostLot, Asset} && child in {JournalEntry, InventoryAdjustment}
    case _ => true
  }

  /** The same table read by artifact: the link types an artifact may be the parent of. */
  function TypesFrom(kind: ArtifactType): set<LinkType> {
    {AppliedTo, AllocatedFrom, DerivedFrom} +
    match kind
    case Event => {ReversedBy, SourcedFrom}
    case JournalEntry => {ReversedBy, CorrectedBy, AllocatedTo, MatchedWith, AdjustedBy}
    case PurchaseOrder => {FulfilledBy, CorrectedBy, MatchedWith}
    case Receipt => {FulfilledBy, CorrectedBy, SourcedFrom, MatchedWith}
    case Invoice => {PaidBy, CorrectedBy, MatchedWith}
    case Payment => {CorrectedBy, AllocatedTo}
    case CreditMemo => {PaidBy}
    case DebitMemo => {PaidBy}
    case CostLot => {ConsumedBy, AllocatedTo, AdjustedBy}
    case Asset => {AdjustedBy}
    case BankStatement => {MatchedWith}
    case BankTransaction => {MatchedWith}
    case _ => {}
  }

  /** The link types an artifact may be the child of. */
  function TypesInto(kind: ArtifactType): set<LinkType> {
    {AppliedTo, AllocatedFrom, DerivedFrom} +
    match kind
    case Event => {ReversedBy, ConsumedBy, AllocatedTo}
    case JournalEntry => {ReversedBy, CorrectedBy, MatchedWith, AdjustedBy}
    case JournalLine => {AllocatedTo}
    case PurchaseOrder => {MatchedWith}
    case Receipt => {FulfilledBy, CorrectedBy, MatchedWith}
    case Invoice => {FulfilledBy, CorrectedBy, AllocatedTo, MatchedWith}
    case Payment => {PaidBy, CorrectedBy}
    case CreditMemo => {CorrectedBy}
    case CostLot => {SourcedFrom}
    case Shipment => {ConsumedBy}
    case InventoryAdjustment => {ConsumedBy, AdjustedBy}
    case BankStatement => {MatchedWith}
    case BankTransaction => {MatchedWith}
    case _ => {}
  }

  /** A link is allowed exactly when its type fits both of its ends. */
  lemma TypesAllowedByEnds(t: LinkType, parent: ArtifactType, child: ArtifactType)
    ensures TypesAllowed(t, parent, child) <==> t in TypesFrom(parent) && t in TypesInto(child)
  {
    hide TypesAllowed, TypesFrom, TypesInto;
    match t {
      case AppliedTo | AllocatedFrom | DerivedFrom => FreeTypes(t, parent, child);
      case MatchedWith | AllocatedTo => SharedTypes(t, parent, child);
      case CorrectedBy | ReversedBy | AdjustedBy => AmendingTypes(t, parent, child);
      case FulfilledBy | PaidBy | ConsumedBy | SourcedFrom => FlowTypes(t, parent, child);
    }
  }

  lemma FreeTypes(t: LinkType, parent: ArtifactType, child: ArtifactType)
    requires t in {AppliedTo, AllocatedFrom, DerivedFrom}
    ensures TypesAllowed(t, parent, child) && t in TypesFrom(parent) && t in TypesInto(child)
  {
  }

  lemma SharedTypes(t: LinkType, parent: ArtifactType, child: ArtifactType)
    requires t in {MatchedWith, AllocatedTo}
    ensures TypesAllowed(t, parent, child) <==> t in TypesFrom(parent) && t in TypesInto(child)
  {
  }

  lemma AmendingTypes(t: LinkType, parent: ArtifactType, child: ArtifactType)
    requires t in {CorrectedBy, ReversedBy, AdjustedBy}
    ensures TypesAllowed(t, parent, child) <==> t in TypesFrom(parent) && t in TypesInto(child)
  {
  }

  lemma FlowTypes(t: LinkType, parent: ArtifactType, child: ArtifactType)
    requires t in {FulfilledBy, PaidBy, ConsumedBy, SourcedFrom}
    ensures TypesAllowed(t, parent, child) <==> t in TypesFrom(parent) && t in TypesInto(child)
  {
  }

  const ACYCLIC_TYPES := {FulfilledBy, SourcedFrom, DerivedFrom, ConsumedBy, CorrectedBy}

  predicate SingleChild(t: LinkType) { t == ReversedBy || t == CorrectedBy }

  predicate Legal(l: Link) { l.parent != l.child && TypesAllowed(l.kind, l.parent.kind, l.child.kind) }

  /** EconomicLink.create: the checks made when a link object is constructed. */
  function CreateLink(l: Link): (r: Outcome<Link, LinkError>)
    ensures r.Ok? <==> Legal(l)
    ensures r.Ok? ==> r.value == l
  {
    if l.parent == l.child then Err(SelfLink)
    else if !TypesAllowed(l.kind, l.parent.kind, l.child.kind) then Err(IllegalTypes)
    else Ok(l)
  }

  predicate SameLink(a: Link, b: Link) {
    a.kind == b.kind && a.parent == b.parent && a.child == b.child
  }

  function Children(links: seq<Link>, parent: Ref, types: set<LinkType>): (r: seq<Link>)
    ensures forall l :: l in r <==> l in links && l.parent == parent && l.kind in types
  {
    if links == [] then []
    else
      var rest, last := Children(links[..|links| - 1], parent, types), links[|links| - 1];
      if last.parent == parent && last.kind in types then rest + [last] else rest
  }

  function Edges(links: seq<Link>, types: set<LinkType>): Graph<Ref> {
    set l | l in links && l.kind in types :: (l.parent, l.child)
  }

  /** What every sequence of link creations keeps true of the store. */
  ghost predicate WellFormed(links: seq<Link>) {
    && (forall l :: l in links ==> Legal(l))
    && (forall i, j :: 0 <= i < j < |links| ==> !SameLink(links[i], links[j]))
    && (forall t :: t in ACYCLIC_TYPES ==> !Cyclic(Edges(links, {t})))
    && (forall t, ref :: SingleChild(t) ==> |Children(links, ref, {t})| <= 1)
  }

  /** The outcome of establish_link, with cycle detection stated as reachability. */
  ghost function Establish(links: seq<Link>, link: Link, allowDuplicate: bool): Outcome<Established, LinkError> {
    if exists l :: l in links && SameLink(l, link) then
      if allowDuplicate then Ok(AlreadyThere) else Err(Duplicate)
    else if link.kind in ACYCLIC_TYPES && Reaches(Edges(links, {link.kind}), link.child, link.parent) then
      Err(Cycle)
    else if SingleChild(link.kind) && |Children(links, link.parent, {link.kind})| >= 1 then
      Err(TooManyChildren)
    else Ok(Created)
  }

  /** What a well-formed store never holds: a cycle of fulfilment, sourcing, derivation, consumption or
      correction, a second reversal or correction of one artifact, or the same link twice. */
  lemma WellFormedMeans(links: seq<Link>)
    requires WellFormed(links)
    ensures !Cyclic(Edges(links, {FulfilledBy})) && !Cyclic(Edges(links, {SourcedFrom}))
    ensures !Cyclic(Edges(links, {DerivedFrom})) && !Cyclic(Edges(links, {ConsumedBy}))
    ensures !Cyclic(Edges(links, {CorrectedBy}))
    ensures forall l, k :: l in links && k in links && l.kind == k.kind && l.parent == k.parent ==>
              l.kind in {ReversedBy, CorrectedBy} || l.child == k.child ==> l == k
    ensures forall i, j :: 0 <= i < j < |links| && links[i].kind == links[j].kind ==>
              links[i].parent != links[j].parent || links[i].child != links[j].child
  {
    hide Cyclic, Edges;
    assert forall i, j :: 0 <= i < j < |links| ==> !SameLink(links[i], links[j]);
    forall l, k | l in links && k in links && l.kind == k.kind && l.parent == k.parent
      ensures l.kind in {ReversedBy, CorrectedBy} || l.child == k.child ==> l == k {
      if l.kind in {ReversedBy, CorrectedBy} {
        var children := Children(links, l.parent, {l.kind});
        assert l in children && k in children && |children| <= 1;
      } else if l.child == k.child {
        var i :| 0 <= i < |links| && links[i] == l;
        var j :| 0 <= j < |links| && links[j] == k;
      }
    }
  }

  /** And nothing else is refused for its shape: other types may form cycles and have many children. */
  lemma OtherTypesUnguarded(links: seq<Link>, link: Link)
    requires link.kind in {PaidBy, AppliedTo, AllocatedTo, AllocatedFrom, MatchedWith, AdjustedBy}
    requires forall l :: l in links ==> l.kind != link.kind || l.parent != link.parent || l.child != link.child
    ensures Establish(links, link, false) == Ok(Created)
  {
    hide Reaches, Children;
  }

  lemma NoLinksWellFormed()
    ensures WellFormed([])
  {
    forall t | t in ACYCLIC_TYPES ensures !Cyclic(Edges([], {t})) {
      var g := Edges([], {t});
      assert g == {};
      assert forall p: seq<Ref> | IsPath(g, p) && |p| >= 2 :: (p[0], p[1]) in g;
    }
  }

  lemma EdgesAppend(links: seq<Link>, link: Link, types: set<LinkType>)
    ensures Edges(links + [link], types) ==
            Edges(links, types) + if link.kind in types then {(link.parent, link.child)} else {}
  {
    var more := links + [link];
    forall l | l in links && l.kind in types ensures (l.parent, l.child) in Edges(more, types) {
      assert l in more;
    }
    assert link in more;
  }

  lemma ChildrenAppend(links: seq<Link>, link: Link, parent: Ref, types: set<LinkType>)
    ensures Children(links + [link], parent, types) ==
            Children(links, parent, types) + if link.parent == parent && link.kind in types then [link] else []
  {
    assert (links + [link])[..|links + [link]| - 1] == links;
  }

  /** L3 and the other store invariants survive every link that establish_link accepts. */
  lemma EstablishKeepsWellFormed(links: seq<Link>, link: Link)
    requires WellFormed(links) && Legal(link)
    requires Establish(links, link, false) == Ok(Created)
    ensures WellFormed(links + [link])
  {
    var more := links + [link];
    forall t | t in ACYCLIC_TYPES ensures !Cyclic(Edges(more, {t})) {
      EdgesAppend(links, link, {t});
      if t == link.kind {
        AddEdgeKeepsAcyclic(Edges(links, {t}), link.parent, link.child);
      } else {
        assert Edges(more, {t}) == Edges(links, {t});
      }
    }
    forall t, ref | SingleChild(t) ensures |Children(more, ref, {t})| <= 1 {
      ChildrenAppend(links, link, ref, {t});
    }
  }

  class LinkStore {
    var links: seq<Link>

    ghost predicate Valid()
      reads this
    {
      WellFormed(links)
    }

    constructor ()
      ensures Valid() && links == []
    {
      links := [];
      NoLinksWellFormed();
    }

    method FindExisting(link: Link) returns (found: bool)
      ensures found <==> exists l :: l in links && SameLink(l, link)
    {
      for i := 0 to |links|
        invariant forall j :: 0 <= j < i ==> !SameLink(links[j], link)
      {
        if SameLink(links[i], link) {
          return true;
        }
      }
      return false;
    }

    /** Depth-first search from current along links of one type; seen grows as nodes are entered. */
    method CanReach(current: Ref, target: Ref, kind: LinkType, seen: set<Ref>, ghost universe: set<Ref>)
        returns (found: bool, seen': set<Ref>)
      requires current in universe && seen <= universe
      requires forall l :: l in links ==> l.child in universe
      ensures found ==> Reaches(Edges(links, {kind}), current, target)
      ensures !found ==> seen + {current} <= seen' <= universe && target !in seen' - seen
      ensures !found ==> forall x, y :: x in seen' - seen && (x, y) in Edges(links, {kind}) ==> y in seen'
      decreases universe - seen
    {
      if current in seen {
        return false, seen;
      }
      seen' := seen + {current};
      if current == target {
        ReachesItself(Edges(links, {kind}), current);
        return true, seen';
      }
      var children := Children(links, current, {kind});
      for i := 0 to |children|
        invariant seen + {current} <= seen' <= universe && target !in seen' - seen
        invariant forall j :: 0 <= j < i ==> children[j].child in seen'
        invariant forall x, y :: x in seen' - seen - {current} && (x, y) in Edges(links, {kind}) ==> y in seen'
      {
        assert children[i] in children;
        found, seen' := CanReach(children[i].child, target, kind, seen', universe);
        if found {
          ReachesNext(Edges(links, {kind}), current, children[i].child, target);
          return;
        }
      }
      found := false;
    }

    /** A cycle is reported exactly when the new link's child already reaches its parent. */
    method DetectCycle(link: Link) returns (cycle: bool)
      ensures cycle <==> Reaches(Edges(links, {link.kind}), link.child, link.parent)
    {
      ghost var universe := {link.child} + set l | l in links :: l.child;
      var seen;
      cycle, seen := CanReach(link.child, link.parent, link.kind, {}, universe);
      if !cycle && Reaches(Edges(links, {link.kind}), link.child, link.parent) {
        ghost var p :| PathFromTo(Edges(links, {link.kind}), p, link.child, link.parent);
        PathStaysInside(Edges(links, {link.kind}), seen, p);
      }
    }

    method EstablishLink(link: Link, allowDuplicate: bool) returns (r: Outcome<Established, LinkError>)
      requires Valid() && Legal(link)
      modifies this
      ensures Valid()
      ensures r == Establish(old(links), link, allowDuplicate)
      ensures r == (if allowDuplicate then Ok(AlreadyThere) else Err(Duplicate)) <==>
        exists l :: l in old(links) && l.kind == link.kind && l.parent == link.parent && l.child == link.child
      ensures r == Err(Cycle) ==>
        && link.kind in {FulfilledBy, SourcedFrom, DerivedFrom, ConsumedBy, CorrectedBy}
        && Reaches(Edges(old(links), {link.kind}), link.child, link.parent)
      ensures r == Err(TooManyChildren) ==>
        && link.kind in {ReversedBy, CorrectedBy}
        && exists l :: l in old(links) && l.kind == link.kind && l.parent == link.parent
      ensures links == if r == Ok(Created) then old(links) + [link] else old(links)
    {
      var existing := FindExisting(link);
      if existing {
        return if allowDuplicate then Ok(AlreadyThere) else Err(Duplicate);
      }
      if link.kind in ACYCLIC_TYPES {
        var cycle := DetectCycle(link);
        if cycle {
          return Err(Cycle);
        }
      }
      if SingleChild(link.kind) && |Children(links, link.parent, {link.kind})| >= 1 {
        assert Children(links, link.parent, {link.kind})[0] in Children(links, link.parent, {link.kind});
        return Err(TooManyChildren);
      }
      EstablishKeepsWellFormed(links, link);
      links := links + [link];
      return Ok(Created);
    }
  }
}
