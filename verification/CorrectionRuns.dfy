/** Concrete runs of the correction engine, on the smallest graphs that show where it departs from
    what finance_services/correction_service.py documents. */
module CorrectionRuns {
  import opened Common
  import opened Graphs
  import opened LinkGraph
  import opened Correction
  import opened CorrectionService

  // ---- Small graphs ----

  lemma NothingReached(kind: LinkType, a: Ref, b: Ref)
    requires a != b
    ensures !Reaches(Edges([], {kind}), a, b)
  {
    var g := Edges([], {kind});
    if p :| PathFromTo(g, p, a, b) {
      PathStaysInside(g, {a}, p);
    }
  }

  /** A store that holds one link. */
  method StoreWith(link: Link) returns (store: LinkStore)
    requires Legal(link)
    ensures fresh(store) && store.Valid() && store.links == [link]
  {
    store := new LinkStore();
    NothingReached(link.kind, link.child, link.parent);
    var r := store.EstablishLink(link, false);
  }

  /** With one downstream link, what is downstream of its parent is the two ends. */
  lemma TwoArtifacts(link: Link, x: Ref)
    requires link.kind in DOWNSTREAM && link.parent != link.child
    ensures Reaches(Downstream([link]), link.parent, x) <==> x == link.parent || x == link.child
    ensures Within([link], link.parent, x, 1) <==> x == link.parent || x == link.child
    ensures !OpenAt([link], link.parent, 10)
  {
    hide Children;
    var g, root := Downstream([link]), link.parent;
    OneEdge(link);
    ReachesItself(g, root);
    ReachesItself(g, link.child);
    ReachesNext(g, root, link.child, link.child);
    SearchIsReachability(g, root, {root, link.child});
    assert PathFromTo(g, [root], root, root) && PathFromTo(g, [root, link.child], root, link.child);
    forall y ensures !AtDistance([link], root, y, 10) {
      if Within([link], root, y, 10) {
        WithinReaches([link], root, y, 10);
        assert y == root || y == link.child;
        WithinMore([link], root, y, 1, 9);
      }
    }
    if Within([link], root, x, 1) {
      WithinReaches([link], root, x, 1);
    }
  }

  lemma OneEdge(link: Link)
    requires link.kind in DOWNSTREAM
    ensures Downstream([link]) == {(link.parent, link.child)}
  {
    EdgesAppend([], link, DOWNSTREAM);
    assert [] + [link] == [link] && Edges([], DOWNSTREAM) == {};
  }

  lemma {:induction false} NoChildren(links: seq<Link>, x: Ref, kind: LinkType)
    requires forall l :: l in links ==> l.kind != kind
    ensures Children(links, x, {kind}) == []
  {
    if links != [] {
      NoChildren(links[..|links| - 1], x, kind);
      assert links[|links| - 1] in links;
    }
  }

  /** A graph without corrections, reversals or period restrictions blocks nothing. */
  lemma NothingToBlock(links: seq<Link>, x: Ref)
    requires forall l :: l in links ==> l.kind != CorrectedBy && l.kind != ReversedBy
    ensures !Corrected(links, x) && CheckCanUnwind(links, map[], x) == Ok(None)
  {
    NoChildren(links, x, CorrectedBy);
    NoChildren(links, x, ReversedBy);
  }

  /** One downstream link, no restrictions and balanced entries: a void under a fresh document gets as
      far as writing its entries, with or without cascade, and marks both ends. */
  lemma VoidOfTwo(link: Link, lookup: Lookup, maxDepth: int, doc: Ref)
    requires link.kind in DOWNSTREAM && link.parent != link.child && maxDepth in {-1, 10}
    requires doc.kind == JournalEntry && doc != link.parent && doc != link.child
    requires !DoesNotBalance(lookup, link.parent) && !DoesNotBalance(lookup, link.child)
    ensures FreshFor([link], link.parent, doc)
    ensures forall cascade :: Executable([link], lookup, map[], link.parent, maxDepth, cascade)
    ensures forall x :: Marks([link], map[], link.parent, maxDepth, x) <==>
                        x == link.parent || (maxDepth == 10 && x == link.child)
  {
    hide Children, Corrected, CheckCanUnwind, DoesNotBalance, Within;
    var root := link.parent;
    TwoArtifacts(link, doc);
    forall x ensures !Corrected([link], x) && CheckCanUnwind([link], map[], x) == Ok(None) {
      NothingToBlock([link], x);
    }
    forall x ensures Within([link], root, x, Max(0, maxDepth)) <==> x == root || (maxDepth == 10 && x == link.child) {
      TwoArtifacts(link, x);
      OnlyRootWithinZero([link], root, x);
      if Within([link], root, x, 1) {
        WithinMore([link], root, x, 1, 10);
      }
      if Within([link], root, x, 10) {
        WithinReaches([link], root, x, 10);
      }
    }
    if maxDepth < 0 {
      forall x ensures !Within([link], root, x, maxDepth) {
        NothingWithinNegative([link], root, x, maxDepth);
      }
    }
  }

  // ---- The runs ----

  /** Voiding an invoice without cascade also voids the payment made on it. */
  method VoidInvoiceWithoutCascade() returns (engine: CorrectionEngine, r: Outcome<(), CorrectionError>)
    ensures r.Ok? && Corrected(engine.store.links, Ref(Invoice, 1)) && Corrected(engine.store.links, Ref(Payment, 2))
  {
    hide Children, Corrected, CheckCanUnwind, Within, Executable, OnlyCorrectable, FreshFor, Marks, WellFormed;
    var link := Link(PaidBy, Ref(Invoice, 1), Ref(Payment, 2), None);
    var store := StoreWith(link);
    engine := new CorrectionEngine(store, map[], map[]);
    VoidOfTwo(link, map[], 10, Ref(JournalEntry, 3));
    BothCorrectable(link);
    r := engine.VoidDocument(link.parent, 3, false, None);
  }

  lemma BothCorrectable(link: Link)
    requires forall x :: Marks([link], map[], link.parent, 10, x) <==> x == link.parent || x == link.child
    ensures OnlyCorrectable([link], map[], link.parent, 10) <==>
      link.parent.kind in CORRECTABLE && link.child.kind in CORRECTABLE
  {
    hide Marks;
  }

  /** With a depth limit of -1 the same void stops at the invoice and leaves the payment standing. */
  method VoidWithNegativeDepth() returns (engine: CorrectionEngine, r: Outcome<(), CorrectionError>)
    ensures r.Ok? && Corrected(engine.store.links, Ref(Invoice, 1)) && !Corrected(engine.store.links, Ref(Payment, 2))
  {
    hide Children, Corrected, CheckCanUnwind, Within, Executable, FreshFor, Marks, WellFormed;
    var link := Link(PaidBy, Ref(Invoice, 1), Ref(Payment, 2), None);
    var store := StoreWith(link);
    engine := new CorrectionEngine(store, map[], map[]);
    VoidOfTwo(link, map[], -1, Ref(JournalEntry, 3));
    NothingToBlock([link], link.child);
    r := engine.VoidDocument(link.parent, 3, true, Some(-1));
  }

  function Booking(id: nat, amount: int): GLEntry {
    GLEntry(id, [GLLine("AR", "USD", amount, true), GLLine("REVENUE", "USD", amount, false)])
  }

  lemma BookingBalances(id: nat, amount: int)
    ensures Balanced(Flip(Booking(id, amount).lines)) && Net(Booking(id, amount).lines, "AR", "USD") == amount
  {
    hide DebitTotal, Net, Flip;
    var lines := Booking(id, amount).lines;
    TwoLines(lines[0], lines[1]);
    FlipSwapsTotals(lines);
  }

  lemma TwoLines(debit: GLLine, credit: GLLine)
    requires debit.isDebit && !credit.isDebit && debit.account == "AR" && credit.account == "REVENUE" &&
      debit.currency == "USD"
    ensures DebitTotal([debit, credit], true) == debit.amount && DebitTotal([debit, credit], false) == credit.amount
    ensures Net([debit, credit], "AR", "USD") == debit.amount
  {
    var lines := [debit, credit];
    assert lines[..1] == [debit] && [debit][..0] == [];
    assert DebitTotal([debit], true) == Net([debit], "AR", "USD") == debit.amount && DebitTotal([debit], false) == 0;
    assert |"AR"| != |"REVENUE"|;
  }

  /** Voiding a receipt that sourced a cost lot: the receipt's entry is reversed in the journal, and
      then the void raises, because a cost lot cannot be marked as corrected. */
  method VoidReceiptWithCostLot() returns (engine: CorrectionEngine, r: Outcome<(), CorrectionError>)
    ensures r.Err? && r.error.LinkRejected?
    ensures CompensationsFor(engine.journal, Ref(Receipt, 1)) ==
            [Compensation(Ref(Receipt, 1), 7, Flip(Booking(7, 100).lines))]
  {
    hide Children, Corrected, CheckCanUnwind, Within, Executable, FreshFor, Marks, WellFormed, Flip, Booking, Balanced,
      OnlyCorrectable,
      CompensationsFor;
    var link := Link(SourcedFrom, Ref(Receipt, 1), Ref(CostLot, 2), None);
    var lookup: Lookup := map[link.parent := [Booking(7, 100)]];
    var store := StoreWith(link);
    engine := new CorrectionEngine(store, lookup, map[]);
    BookingBalances(7, 100);
    DueForBooking(link.parent, lookup, 7, 100);
    VoidOfTwo(link, lookup, 10, Ref(JournalEntry, 3));
    BothCorrectable(link);
    NoCompensations(link.parent);
    r := engine.VoidDocument(link.parent, 3, true, None);
  }

  lemma DueForBooking(ref: Ref, lookup: Lookup, id: nat, amount: int)
    requires ref in lookup && lookup[ref] != [] && lookup[ref][0] == Booking(id, amount)
    ensures Due(lookup, ref) == [Compensation(ref, id, Flip(Booking(id, amount).lines))]
    ensures Reversal(lookup, ref) == Some(Compensation(ref, id, Flip(Booking(id, amount).lines)))
  {
    hide Flip;
  }

  /** Voiding an invoice booked twice, for 100 and for 7: the 7 stays on the books. */
  method VoidInvoiceBookedTwice() returns (engine: CorrectionEngine, r: Outcome<(), CorrectionError>)
    ensures r.Ok? && Corrected(engine.store.links, Ref(Invoice, 1))
    ensures LedgerBalance(engine.lookup, engine.journal, Ref(Invoice, 1), "AR", "USD") == 7
  {
    hide Children, Corrected, CheckCanUnwind, Within, Executable, FreshFor, Marks, WellFormed, Flip, Booking, Balanced,
      OnlyCorrectable,
      CompensationsFor, LedgerBalance, Due, Net, NetOfEntries;
    var link := Link(PaidBy, Ref(Invoice, 1), Ref(Payment, 2), None);
    var lookup: Lookup := map[link.parent := [Booking(7, 100), Booking(8, 7)]];
    var store := StoreWith(link);
    engine := new CorrectionEngine(store, lookup, map[]);
    BookingBalances(7, 100);
    DueForBooking(link.parent, lookup, 7, 100);
    VoidOfTwo(link, lookup, 10, Ref(JournalEntry, 3));
    BothCorrectable(link);
    NoCompensations(link.parent);
    r := engine.VoidDocument(link.parent, 3, true, None);
    BalanceOfTwoBookings(lookup, engine.journal, link.parent);
  }

  /** An invoice and its payment booked by one and the same entry: the void reverses that entry twice. */
  method VoidSharedEntry() returns (engine: CorrectionEngine, r: Outcome<(), CorrectionError>)
    ensures r.Ok? && SomeReversedTwice(engine.journal)
  {
    hide Children, Corrected, CheckCanUnwind, Within, Executable, FreshFor, Marks, WellFormed, Flip, Booking, Balanced,
      OnlyCorrectable, CompensationsFor, SomeReversedTwice;
    var link := Link(PaidBy, Ref(Invoice, 1), Ref(Payment, 2), None);
    var lookup: Lookup := map[link.parent := [Booking(7, 100)], link.child := [Booking(7, 100)]];
    var store := StoreWith(link);
    engine := new CorrectionEngine(store, lookup, map[]);
    BookingBalances(7, 100);
    DueForBooking(link.parent, lookup, 7, 100);
    DueForBooking(link.child, lookup, 7, 100);
    VoidOfTwo(link, lookup, 10, Ref(JournalEntry, 3));
    BothCorrectable(link);
    NoCompensations(link.parent);
    NoCompensations(link.child);
    r := engine.VoidDocument(link.parent, 3, true, None);
    var lines := Flip(Booking(7, 100).lines);
    BothInJournal(engine.journal, Compensation(link.parent, 7, lines), Compensation(link.child, 7, lines));
  }

  lemma BothInJournal(journal: seq<Compensation>, a: Compensation, b: Compensation)
    requires CompensationsFor(journal, a.ref) == [a] && CompensationsFor(journal, b.ref) == [b]
    requires a.ref != b.ref && a.originalId == b.originalId
    ensures SomeReversedTwice(journal)
  {
    hide CompensationsFor;
    CompensationsAre(journal, a.ref, a);
    CompensationsAre(journal, b.ref, b);
    var i :| 0 <= i < |journal| && journal[i] == a;
    var j :| 0 <= j < |journal| && journal[j] == b;
    assert journal[Min(i, j)].originalId == journal[Max(i, j)].originalId;
  }

  lemma BalanceOfTwoBookings(lookup: Lookup, journal: seq<Compensation>, ref: Ref)
    requires ref in lookup && lookup[ref] == [Booking(7, 100), Booking(8, 7)]
    requires CompensationsFor(journal, ref) == Due(lookup, ref)
    ensures LedgerBalance(lookup, journal, ref, "AR", "USD") == 7
  {
    hide CompensationsFor, Due, Net, Booking, NetOfCompensations, NetOfEntries;
    BookingBalances(7, 100);
    BookingBalances(8, 7);
    DueNegatesFirstEntry(lookup, ref, [], "AR", "USD");
    NothingNets("AR", "USD");
    assert [] + Due(lookup, ref) == Due(lookup, ref);
    NetOfTwo(lookup[ref][0], lookup[ref][1], "AR", "USD");
    assert lookup[ref] == [lookup[ref][0], lookup[ref][1]];
  }

  lemma NothingNets(account: string, currency: string)
    ensures NetOfCompensations([], account, currency) == 0
  {
  }

  lemma NetOfTwo(a: GLEntry, b: GLEntry, account: string, currency: string)
    ensures NetOfEntries([a, b], account, currency) == Net(a.lines, account, currency) + Net(b.lines, account, currency)
  {
    hide Net;
    assert [a, b][1..] == [b] && [b][1..] == [];
    assert NetOfEntries([b], account, currency) == Net(b.lines, account, currency);
  }

  /** A payment linked back to its invoice: everything downstream is one link away, and still a plan
      with a depth limit of one is refused as too deep. */
  method PlanForLoop() returns (engine: CorrectionEngine, r: Outcome<Plan, CorrectionError>)
    ensures r == Err(DepthExceeded) && !GraphExceeds(engine.store.links, Ref(Invoice, 1), 1)
  {
    hide Children, Corrected, CheckCanUnwind, Within, WellFormed, ClosingWithin, OpenAt, UnbalancedWithin, GraphExceeds;
    var first := Link(PaidBy, Ref(Invoice, 1), Ref(Payment, 2), None);
    var second := Link(DerivedFrom, Ref(Payment, 2), Ref(Invoice, 1), None);
    var store := StoreWith(first);
    BackLinkAccepted(first, second);
    var established := store.EstablishLink(second, false);
    engine := new CorrectionEngine(store, map[], map[]);
    LoopIsOpen(first, second);
    assert store.links == [first, second];
    r := engine.BuildUnwindPlan(first.parent, Cascade, Some(1));
  }

  lemma BackLinkAccepted(first: Link, second: Link)
    requires first.kind == PaidBy && second.kind == DerivedFrom && first.parent != first.child
    requires second.parent == first.child && second.child == first.parent
    ensures Establish([first], second, false) == Ok(Created)
  {
    EdgesAppend([], first, {DerivedFrom});
    assert [] + [first] == [first] && Edges([first], {DerivedFrom}) == Edges([], {DerivedFrom});
    NothingReached(DerivedFrom, second.child, second.parent);
  }

  lemma LoopIsOpen(first: Link, second: Link)
    requires first.kind == PaidBy && second.kind == DerivedFrom && first.parent != first.child
    requires second.parent == first.child && second.child == first.parent
    ensures var links := [first, second];
            && OpenAt(links, first.parent, 1) && !GraphExceeds(links, first.parent, 1)
            && !Corrected(links, first.parent) && !ClosingWithin(links, map[], first.parent, 1)
  {
    hide CheckCanUnwind, Corrected;
    var links, root, leaf := [first, second], first.parent, first.child;
    var g := Downstream(links);
    OneEdge(first);
    EdgesAppend([first], second, DOWNSTREAM);
    assert [first] + [second] == links && g == {(root, leaf), (leaf, root)};
    assert PathFromTo(g, [root], root, root) && PathFromTo(g, [root, leaf], root, leaf);
    OnlyRootWithinZero(links, root, leaf);
    assert AtDistance(links, root, leaf, 1);
    assert second in Children(links, leaf, DOWNSTREAM);
    forall x | Reaches(g, root, x) ensures x == root || x == leaf {
      var p :| PathFromTo(g, p, root, x);
      PathStaysInside(g, {root, leaf}, p);
    }
    forall x ensures !Corrected(links, x) && CheckCanUnwind(links, map[], x) == Ok(None) {
      NothingToBlock(links, x);
    }
  }
}
