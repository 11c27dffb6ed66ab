/** finance_services/reconciliation_service.py with finance_engines/reconciliation/domain.py: the
    balance of an invoice is never stored but derived from its payment links, and payments are
    accepted against that balance. */
module Reconciliation {
  import opened Common
  import opened LinkGraph
  import opened Allocation

  datatype Status = Open | Partial | Matched | OverApplied

  datatype ReconState = ReconState(status: Status, applied: int, remaining: int)

  datatype ReconError =
    | AlreadyMatched
    | NegativeAmount
    | OverApplication
    | BadLink(why: LinkError)
    | CannotAllocate(cause: AllocationError)

  const APPLYING := {PaidBy, AllocatedTo, AppliedTo}

  function AmountOf(l: Link): int { if l.amount.Some? then l.amount.value else 0 }

  function SumAmounts(links: seq<Link>): int {
    if links == [] then 0 else SumAmounts(links[..|links| - 1]) + AmountOf(links[|links| - 1])
  }

  /** get_unconsumed_value: what the links say has been applied to a document. */
  function Applied(links: seq<Link>, invoice: Ref): int { SumAmounts(Children(links, invoice, APPLYING)) }

  function StateFrom(original: int, applied: int): ReconState {
    var remaining := original - applied;
    ReconState(if applied == 0 then Open else if remaining == 0 then Matched
               else if remaining < 0 then OverApplied else Partial,
               applied, remaining)
  }

  /** Open until something is applied; then partial, matched or over-applied as it compares with the
      original amount. */
  lemma StateIs(original: int, applied: int)
    ensures var state := StateFrom(original, applied);
            && state.applied == applied && state.remaining + applied == original
            && (state.status == Open <==> applied == 0)
            && (state.status == Partial <==> applied != 0 && applied < original)
            && (state.status == Matched <==> applied != 0 && applied == original)
            && (state.status == OverApplied <==> applied != 0 && applied > original)
  {
  }

  /** A link counts towards its parent's applied amount when it pays, allocates or applies, by the amount
      it records, or by nothing when it records none. */
  lemma AppliedCounts(links: seq<Link>, l: Link, invoice: Ref)
    ensures Applied([], invoice) == 0
    ensures Applied(links + [l], invoice) - Applied(links, invoice) ==
            if l.parent == invoice && l.kind in {PaidBy, AllocatedTo, AppliedTo} then OrZero(l.amount) else 0
  {
    hide Children;
    AppliedAppend(links, l, invoice);
    NothingApplied(invoice);
  }

  lemma NothingApplied(invoice: Ref)
    ensures Applied([], invoice) == 0
  {
  }

  /** One apply_payment call. metadata is an "amount_applied" entry in the caller's own metadata,
      which replaces the amount recorded on the link. */
  datatype Call = Call(invoice: Ref, payment: Ref, amount: int, original: int, metadata: Option<int>)

  function PaymentLink(c: Call): Link {
    Link(PaidBy, c.invoice, c.payment, Some(if c.metadata.Some? then c.metadata.value else c.amount))
  }

  /** The error apply_payment raises, if any; a payment link is on no acyclic or single-child type. */
  ghost function Rejection(links: seq<Link>, c: Call): Option<ReconError> {
    var state := StateFrom(c.original, Applied(links, c.invoice));
    if state.status == Matched then Some(AlreadyMatched)
    else if c.amount < 0 then Some(NegativeAmount)
    else if c.amount > state.remaining then Some(OverApplication)
    else if CreateLink(PaymentLink(c)).Err? then Some(BadLink(CreateLink(PaymentLink(c)).error))
    else if exists l :: l in links && SameLink(l, PaymentLink(c)) then Some(BadLink(Duplicate))
    else None
  }

  ghost function ApplyOne(links: seq<Link>, c: Call): seq<Link> {
    if Rejection(links, c).None? then links + [PaymentLink(c)] else links
  }

  ghost function ApplyAll(links: seq<Link>, calls: seq<Call>): seq<Link> {
    if calls == [] then links else ApplyOne(ApplyAll(links, calls[..|calls| - 1]), calls[|calls| - 1])
  }

  // ---- No over-application in any run ----

  lemma AppliedAppend(links: seq<Link>, l: Link, invoice: Ref)
    ensures Applied(links + [l], invoice) ==
            Applied(links, invoice) + if l.parent == invoice && l.kind in APPLYING then AmountOf(l) else 0
  {
    ChildrenAppend(links, l, invoice, APPLYING);
    var c := Children(links, invoice, APPLYING);
    assert c + [] == c;
    assert (c + [l])[..|c + [l]| - 1] == c;
  }

  /** A call moves only its own invoice, by the amount it records, and only if accepted. */
  lemma ApplyOneMoves(links: seq<Link>, c: Call, invoice: Ref)
    ensures Applied(ApplyOne(links, c), invoice) ==
            Applied(links, invoice) +
            if Rejection(links, c).None? && c.invoice == invoice then PaymentLink(c).amount.value else 0
  {
    hide Applied, Rejection;
    AppliedAppend(links, PaymentLink(c), invoice);
  }

  /** The calls agree with the invoice on its original amount and do not override what is recorded. */
  ghost predicate Honest(calls: seq<Call>, invoice: Ref, original: int) {
    forall c :: c in calls && c.invoice == invoice ==> c.original == original && c.metadata.None?
  }

  /** Amounts applied to the invoice by the accepted calls of a run. */
  ghost function Accepted(links: seq<Link>, calls: seq<Call>, invoice: Ref): int {
    if calls == [] then 0
    else
      var before, c := ApplyAll(links, calls[..|calls| - 1]), calls[|calls| - 1];
      Accepted(links, calls[..|calls| - 1], invoice) +
      if Rejection(before, c).None? && c.invoice == invoice then c.amount else 0
  }

  /** No over-application: whatever calls are made on any invoices, in any order, accepted or not,
      an invoice that starts within its original amount stays within it, and its derived balance is
      the original less exactly what was accepted. */
  lemma {:induction false} NoOverapplication(links: seq<Link>, calls: seq<Call>, invoice: Ref, original: int)
    requires Honest(calls, invoice, original) && Applied(links, invoice) <= original
    ensures var after := ApplyAll(links, calls);
            && Applied(links, invoice) <= Applied(after, invoice) <= original
            && Applied(after, invoice) == Applied(links, invoice) + Accepted(links, calls, invoice)
            && StateFrom(original, Applied(after, invoice)).status != OverApplied
  {
    hide Applied, CreateLink, ApplyOne;
    if calls != [] {
      var init, c := calls[..|calls| - 1], calls[|calls| - 1];
      NoOverapplication(links, init, invoice, original);
      ApplyOneMoves(ApplyAll(links, init), c, invoice);
      assert c in calls;
    }
  }

  /** Once matched, nothing more is accepted: the rest of any run leaves the invoice alone. */
  lemma {:induction false} MatchedIsFinal(links: seq<Link>, calls: seq<Call>, invoice: Ref, original: int)
    requires forall c :: c in calls && c.invoice == invoice ==> c.original == original
    requires StateFrom(original, Applied(links, invoice)).status == Matched
    ensures Children(ApplyAll(links, calls), invoice, APPLYING) == Children(links, invoice, APPLYING)
    ensures forall i :: 0 <= i < |calls| && calls[i].invoice == invoice ==>
              Rejection(ApplyAll(links, calls[..i]), calls[i]) == Some(AlreadyMatched)
  {
    hide Children, Rejection, ApplyOne, StateFrom;
    if calls != [] {
      var init, c := calls[..|calls| - 1], calls[|calls| - 1];
      MatchedIsFinal(links, init, invoice, original);
      assert c in calls;
      MatchedStays(ApplyAll(links, init), c, invoice, original);
      forall i | 0 <= i < |calls| && calls[i].invoice == invoice
        ensures Rejection(ApplyAll(links, calls[..i]), calls[i]) == Some(AlreadyMatched) {
        if i < |init| {
          assert calls[..i] == init[..i] && calls[i] == init[i];
        }
      }
    }
  }

  lemma MatchedStays(links: seq<Link>, c: Call, invoice: Ref, original: int)
    requires StateFrom(original, Applied(links, invoice)).status == Matched
    requires c.invoice == invoice ==> c.original == original
    ensures c.invoice == invoice ==> Rejection(links, c) == Some(AlreadyMatched)
    ensures Children(ApplyOne(links, c), invoice, APPLYING) == Children(links, invoice, APPLYING)
  {
    hide Children, CreateLink, StateFrom;
    ChildrenAppend(links, PaymentLink(c), invoice, APPLYING);
  }

  /** What one accepted call leaves is within the original exactly when the amount it records is
      within what remained; without overriding metadata that is what the guard checked. */
  lemma RecordedWithinIff(links: seq<Link>, c: Call)
    requires Rejection(links, c).None?
    ensures Applied(ApplyOne(links, c), c.invoice) <= c.original <==>
            PaymentLink(c).amount.value <= c.original - Applied(links, c.invoice)
    ensures c.metadata.None? ==> Applied(ApplyOne(links, c), c.invoice) <= c.original
  {
    ApplyOneMoves(links, c, c.invoice);
  }

  /** Overriding metadata defeats the guard: a payment of 1 recorded as 500 against 100. */
  lemma MetadataOverridesTheGuard(invoiceId: nat, paymentId: nat)
    ensures var c := Call(Ref(Invoice, invoiceId), Ref(Payment, paymentId), 1, 100, Some(500));
            StateFrom(100, Applied(ApplyAll([], [c]), c.invoice)).status == OverApplied
  {
    var c := Call(Ref(Invoice, invoiceId), Ref(Payment, paymentId), 1, 100, Some(500));
    assert Applied([], c.invoice) == 0;
    assert [c][..0] == [];
    assert ApplyAll([], [c]) == ApplyOne([], c);
    ApplyOneMoves([], c, c.invoice);
  }

  // ---- One payment over several invoices ----

  datatype Due = Due(invoice: Ref, original: int, remaining: int)

  function TargetOf(d: Due, today: Day): AllocationTarget { Target("", Some(d.remaining), 1.0, 0, Some(today)) }

  function Targets(dues: seq<Due>, today: Day): (r: seq<AllocationTarget>)
    ensures |r| == |dues|
  {
    seq(|dues|, i requires 0 <= i < |dues| => TargetOf(dues[i], today))
  }

  function TotalDue(dues: seq<Due>): int {
    if dues == [] then 0 else TotalDue(dues[..|dues| - 1]) + dues[|dues| - 1].remaining
  }

  lemma {:induction false} TotalDueIsEligible(dues: seq<Due>, today: Day)
    ensures TotalEligible(Targets(dues, today)) == TotalDue(dues)
  {
    if dues != [] {
      var n := |dues| - 1;
      TotalDueIsEligible(dues[..n], today);
      assert Targets(dues, today)[..n] == Targets(dues[..n], today);
    }
  }

  /** The invoices are distinct and payable, what the caller believes remains is what remains, and
      this payment has not been applied to any of them before. */
  ghost predicate Payable(links: seq<Link>, payment: Ref, dues: seq<Due>) {
    && payment.kind == Payment
    && (forall i, j :: 0 <= i < j < |dues| ==> dues[i].invoice != dues[j].invoice)
    && (forall d :: d in dues ==>
          && d.invoice.kind in {Invoice, CreditMemo, DebitMemo}
          && d.remaining == d.original - Applied(links, d.invoice) >= 0
          && forall l :: l in links ==> !SameLink(l, Link(PaidBy, d.invoice, payment, None)))
  }

  /** The invoice's share of a payment served greedily in the order given. */
  function PaidTo(amount: int, dues: seq<Due>, i: nat): int
    requires i < |dues|
  {
    Min(dues[i].remaining, Max(0, Max(0, amount) - TotalDue(dues[..i])))
  }

  lemma {:induction false} DuesNonNegative(links: seq<Link>, payment: Ref, dues: seq<Due>, today: Day)
    requires Payable(links, payment, dues)
    ensures NonNegativeEligible(Targets(dues, today))
  {
    forall t | t in Targets(dues, today) ensures t.eligible.Some? && t.eligible.value >= 0 {
      var i :| 0 <= i < |dues| && Targets(dues, today)[i] == t;
      assert dues[i] in dues;
    }
  }

  lemma {:induction false} NothingToAllocate(amount: int, targets: seq<AllocationTarget>)
    requires amount <= 0
    ensures LeftAfter(amount, targets) == amount
  {
    if targets != [] {
      NothingToAllocate(amount, targets[..|targets| - 1]);
    }
  }

  /** FIFO, LIFO and SPECIFIC all keep line i aligned with invoice i, because the targets built here
      agree on date and priority and the sorts are stable; so line i is invoice i's share. */
  lemma LinesAlign(links: seq<Link>, payment: Ref, amount: int, dues: seq<Due>, today: Day, how: AllocationMethod)
    requires how in {Fifo, Lifo, Specific} && Payable(links, payment, dues)
    ensures var lines := SequentialLines(amount, Served(how, Targets(dues, today)));
            |lines| == |dues| && forall i :: 0 <= i < |dues| ==> lines[i].amount == PaidTo(amount, dues, i)
  {
    hide Payable, LeftAfter, TotalEligible, TotalDue, Applied;
    var targets := Targets(dues, today);
    ServedInOrder(how, targets);
    DuesNonNegative(links, payment, dues, today);
    if amount >= 0 {
      SequentialInClosedForm(amount, targets);
    }
    forall i | 0 <= i < |dues| ensures SequentialLines(amount, targets)[i].amount == PaidTo(amount, dues, i) {
      assert targets[..i] == Targets(dues[..i], today);
      TotalDueIsEligible(dues[..i], today);
      assert targets[i] in targets;
      if amount < 0 {
        NothingToAllocate(amount, targets[..i]);
        TotalNonNegative(targets[..i]);
      }
    }
  }

  lemma TotalNonNegative(targets: seq<AllocationTarget>)
    requires NonNegativeEligible(targets)
    ensures TotalEligible(targets) >= 0
  {
    LeftInClosedForm(0, targets);
  }

  /** The shares add up to the smaller of the payment and everything due. */
  lemma {:induction false} SharesTotal(amount: int, dues: seq<Due>, n: nat)
    requires n <= |dues| && forall d :: d in dues ==> d.remaining >= 0
    ensures TotalDue(dues[..n]) >= 0
    ensures PaidSoFar(amount, dues, n) == Min(Max(0, amount), TotalDue(dues[..n]))
  {
    if n > 0 {
      SharesTotal(amount, dues, n - 1);
      assert dues[..n][..n - 1] == dues[..n - 1] && dues[n - 1] in dues;
    }
  }

  /** The first n invoices have received their shares and nothing else has changed. */
  ghost predicate PaidUpTo(before: seq<Link>, links: seq<Link>, payment: Ref, amount: int, dues: seq<Due>, n: nat)
    requires n <= |dues|
  {
    && (forall i :: 0 <= i < |dues| ==>
          Applied(links, dues[i].invoice) ==
          Applied(before, dues[i].invoice) + if i < n then PaidTo(amount, dues, i) else 0)
    && (forall x :: (forall d :: d in dues ==> d.invoice != x) ==> Applied(links, x) == Applied(before, x))
    && (forall i, l :: n <= i < |dues| && l in links ==> !SameLink(l, Link(PaidBy, dues[i].invoice, payment, None)))
  }

  lemma NothingPaidYet(links: seq<Link>, payment: Ref, amount: int, dues: seq<Due>)
    requires Payable(links, payment, dues)
    ensures PaidUpTo(links, links, payment, amount, dues, 0)
  {
    hide Applied;
    forall i, l | 0 <= i < |dues| && l in links ensures !SameLink(l, Link(PaidBy, dues[i].invoice, payment, None)) {
      assert dues[i] in dues;
    }
  }

  function ShareCall(payment: Ref, amount: int, dues: seq<Due>, i: nat): Call
    requires i < |dues|
  {
    Call(dues[i].invoice, payment, PaidTo(amount, dues, i), dues[i].original, None)
  }

  /** The next invoice's share is never refused. */
  lemma NextIsAccepted(before: seq<Link>, links: seq<Link>, payment: Ref, amount: int, dues: seq<Due>, i: nat)
    requires Payable(before, payment, dues) && i < |dues| && PaidUpTo(before, links, payment, amount, dues, i)
    ensures 0 <= PaidTo(amount, dues, i) <= dues[i].remaining
    ensures PaidTo(amount, dues, i) != 0 ==> Rejection(links, ShareCall(payment, amount, dues, i)).None?
  {
    hide Applied;
    assert dues[i] in dues;
    var link := PaymentLink(ShareCall(payment, amount, dues, i));
    assert Legal(link);
    assert forall l :: l in links ==> !SameLink(l, link);
  }

  lemma NextIsPaid(before: seq<Link>, links: seq<Link>, payment: Ref, amount: int, dues: seq<Due>, i: nat)
    requires Payable(before, payment, dues) && i < |dues| && PaidUpTo(before, links, payment, amount, dues, i)
    ensures PaidTo(amount, dues, i) == 0 ==> PaidUpTo(before, links, payment, amount, dues, i + 1)
    ensures PaidTo(amount, dues, i) != 0 ==>
              PaidUpTo(before, ApplyOne(links, ShareCall(payment, amount, dues, i)), payment, amount, dues, i + 1)
  {
    hide Applied, Rejection, ApplyOne, PaidTo, Payable, PaidUpTo;
    NextIsAccepted(before, links, payment, amount, dues, i);
    if PaidTo(amount, dues, i) == 0 {
      NothingMoved(before, links, payment, amount, dues, i);
    } else {
      var c := ShareCall(payment, amount, dues, i);
      AcceptedAdds(links, c);
      forall x ensures Applied(ApplyOne(links, c), x) == Applied(links, x) + if x == c.invoice then c.amount else 0 {
        ApplyOneMoves(links, c, x);
      }
      ShareMoved(before, links, ApplyOne(links, c), payment, amount, dues, i);
    }
  }

  lemma NothingMoved(before: seq<Link>, links: seq<Link>, payment: Ref, amount: int, dues: seq<Due>, i: nat)
    requires i < |dues| && PaidUpTo(before, links, payment, amount, dues, i) && PaidTo(amount, dues, i) == 0
    ensures PaidUpTo(before, links, payment, amount, dues, i + 1)
  {
    hide Applied, PaidTo;
  }

  lemma ShareMoved(
    before: seq<Link>, links: seq<Link>, after: seq<Link>, payment: Ref, amount: int, dues: seq<Due>, i: nat)
    requires i < |dues| && Payable(before, payment, dues) && PaidUpTo(before, links, payment, amount, dues, i)
    requires after == links + [PaymentLink(ShareCall(payment, amount, dues, i))]
    requires forall x ::
      Applied(after, x) == Applied(links, x) + if x == dues[i].invoice then PaidTo(amount, dues, i) else 0
    ensures PaidUpTo(before, after, payment, amount, dues, i + 1)
  {
    hide Applied, PaidTo;
    assert dues[i] in dues;
    SharesMoved(before, links, after, payment, amount, dues, i);
    OnlyThisLink(links, after, payment, amount, dues, i);
  }

  lemma SharesMoved(
    before: seq<Link>, links: seq<Link>, after: seq<Link>, payment: Ref, amount: int, dues: seq<Due>, i: nat)
    requires i < |dues| && forall j, k :: 0 <= j < k < |dues| ==> dues[j].invoice != dues[k].invoice
    requires PaidUpTo(before, links, payment, amount, dues, i)
    requires forall x ::
      Applied(after, x) == Applied(links, x) + if x == dues[i].invoice then PaidTo(amount, dues, i) else 0
    ensures forall j :: 0 <= j < |dues| ==>
              Applied(after, dues[j].invoice) ==
              Applied(before, dues[j].invoice) + if j < i + 1 then PaidTo(amount, dues, j) else 0
  {
    hide Applied, PaidTo, SameLink;
    forall j | 0 <= j < |dues|
      ensures Applied(after, dues[j].invoice) ==
        Applied(before, dues[j].invoice) + if j < i + 1 then PaidTo(amount, dues, j) else 0 {
      assert j != i ==> dues[Min(i, j)].invoice != dues[Max(i, j)].invoice;
    }
  }

  lemma OnlyThisLink(links: seq<Link>, after: seq<Link>, payment: Ref, amount: int, dues: seq<Due>, i: nat)
    requires i < |dues| && forall j, k :: 0 <= j < k < |dues| ==> dues[j].invoice != dues[k].invoice
    requires after == links + [PaymentLink(ShareCall(payment, amount, dues, i))]
    requires forall j, l :: i <= j < |dues| && l in links ==> !SameLink(l, Link(PaidBy, dues[j].invoice, payment, None))
    ensures forall j, l :: i + 1 <= j < |dues| && l in after ==>
      !SameLink(l, Link(PaidBy, dues[j].invoice, payment, None))
  {
    hide PaidTo;
  }

  lemma AcceptedAdds(links: seq<Link>, c: Call)
    requires Rejection(links, c).None?
    ensures ApplyOne(links, c) == links + [PaymentLink(c)]
  {
  }

  /** The total applied so far by a run over the first n invoices. */
  function PaidSoFar(amount: int, dues: seq<Due>, n: nat): int
    requires n <= |dues|
  {
    if n == 0 then 0 else PaidSoFar(amount, dues, n - 1) + PaidTo(amount, dues, n - 1)
  }

  // ---- The service ----

  class ReconciliationManager {
    const store: LinkStore

    constructor (store: LinkStore)
      ensures this.store == store
    {
      this.store := store;
    }

    method GetReconciliationState(invoice: Ref, original: int) returns (state: ReconState)
      ensures state == StateFrom(original, Applied(store.links, invoice))
    {
      var children := Children(store.links, invoice, APPLYING);
      var consumed := 0;
      for i := 0 to |children|
        invariant consumed == SumAmounts(children[..i])
      {
        assert children[..i + 1][..i] == children[..i];
        consumed := consumed + AmountOf(children[i]);
      }
      assert children[..|children|] == children;
      state := StateFrom(original, consumed);
    }

    /** One step of a run: accepted exactly when Rejection says so, and then one link is added. */
    method ApplyPayment(c: Call) returns (r: Outcome<Link, ReconError>)
      requires store.Valid()
      modifies store
      ensures store.Valid()
      ensures store.links == ApplyOne(old(store.links), c)
      ensures if r.Ok? then Rejection(old(store.links), c).None? && r.value == PaymentLink(c)
              else Rejection(old(store.links), c) == Some(r.error)
      // In order: matched already, negative, more than remains, an ill-typed link, a repeated one.
      ensures var applied := Applied(old(store.links), c.invoice);
        && (r == Err(AlreadyMatched) <==> applied != 0 && applied == c.original)
        && (r == Err(NegativeAmount) <==> !(applied != 0 && applied == c.original) && c.amount < 0)
        && (r == Err(OverApplication) <==>
              !(applied != 0 && applied == c.original) && c.amount >= 0 && c.amount > c.original - applied)
      ensures r.Ok? ==>
        && r.value.kind == PaidBy && r.value.parent == c.invoice && r.value.child == c.payment
        && r.value.amount == Some(if c.metadata.Some? then c.metadata.value else c.amount)
        && c.invoice.kind in {Invoice, CreditMemo, DebitMemo} && c.payment.kind == Payment
        && store.links == old(store.links) + [r.value]
    {
      hide WellFormed, Applied, Children;
      var state := GetReconciliationState(c.invoice, c.original);
      if state.status == Matched {
        return Err(AlreadyMatched);
      }
      if c.amount < 0 {
        return Err(NegativeAmount);
      }
      if c.amount > state.remaining {
        return Err(OverApplication);
      }
      var created := CreateLink(PaymentLink(c));
      if created.Err? {
        return Err(BadLink(created.error));
      }
      var result := store.EstablishLink(created.value, false);
      if result.Err? {
        return Err(BadLink(result.error));
      }
      r := Ok(created.value);
    }

    /** The payment is allocated over the invoices and applied line by line; the applications made
        are returned. Whatever the inputs and even if it raises half way, the store has taken a run
        of payment calls, so no invoice is over-applied. When the invoices are payable, no call
        raises, every invoice receives its greedy share and the whole payment application comes to
        the smaller of the payment and everything due. */
    method ApplyPaymentAcrossInvoices(
        payment: Ref, amount: int, dues: seq<Due>, how: AllocationMethod, today: Day)
        returns (r: Outcome<seq<Call>, ReconError>, ghost calls: seq<Call>)
      requires store.Valid()
      modifies store
      ensures store.Valid()
      ensures store.links == ApplyAll(old(store.links), calls) && CallsOn(calls, payment, dues)
      ensures r.Ok? ==> r.value == calls
      ensures forall i :: 0 <= i < |dues| && StoodWithin(old(store.links), dues, i) ==>
        Applied(store.links, dues[i].invoice) <= dues[i].original
      ensures how in {Fifo, Lifo, Specific} && Payable(old(store.links), payment, dues) ==>
        && r.Ok? && CallTotal(r.value) == Min(Max(0, amount), TotalDue(dues))
        && (forall i :: 0 <= i < |dues| ==>
              Applied(store.links, dues[i].invoice) ==
                Applied(old(store.links), dues[i].invoice) + PaidTo(amount, dues, i))
        && (forall x :: (forall d :: d in dues ==> d.invoice != x) ==>
           Applied(store.links, x) == Applied(old(store.links), x))
    {
      hide WellFormed, Applied, Children, Payable, PaidUpTo, Rejection, ApplyOne, Served, SequentialLines, PaidTo,
        ApplyAll, CallTotal, CallsOn, StoodWithin;
      calls := [];
      NoCalls(store.links, payment, dues);
      var allocation := Allocate(amount, Targets(dues, today), how, None);
      if allocation.Err? {
        NeverOverapplied(store.links, calls, payment, dues);
        return Err(CannotAllocate(allocation.error)), calls;
      }
      var lines := allocation.value.lines;
      ghost var before := store.links;
      ghost var payable := how in {Fifo, Lifo, Specific} && Payable(before, payment, dues);
      if payable {
        LinesAlign(before, payment, amount, dues, today, how);
        NothingPaidYet(before, payment, amount, dues);
      }
      var applications: seq<Call>, n := [], Min(|lines|, |dues|);
      for i := 0 to n
        invariant store.Valid()
        invariant calls == applications && store.links == ApplyAll(before, calls) && CallsOn(calls, payment, dues)
        invariant payable ==> PaidUpTo(before, store.links, payment, amount, dues, i)
        invariant payable ==> CallTotal(applications) == PaidSoFar(amount, dues, i)
      {
        if payable {
          NextIsAccepted(before, store.links, payment, amount, dues, i);
          NextIsPaid(before, store.links, payment, amount, dues, i);
        }
        if lines[i].amount != 0 {
          var c := Call(dues[i].invoice, payment, lines[i].amount, dues[i].original, None);
          OneMoreCall(before, calls, c, payment, dues, i);
          calls := calls + [c];
          var result := ApplyPayment(c);
          if result.Err? {
            NeverOverapplied(before, calls, payment, dues);
            return Err(result.error), calls;
          }
          applications := applications + [c];
        }
      }
      NeverOverapplied(before, calls, payment, dues);
      if payable {
        PayableRemaining(before, payment, dues);
        SharesTotal(amount, dues, |dues|);
        assert dues[..|dues|] == dues;
        AllPaid(before, store.links, payment, amount, dues);
      }
      r := Ok(applications);
    }
  }

  /** The calls are on the listed invoices, for this payment, with nothing overriding the amount. */
  ghost predicate CallsOn(calls: seq<Call>, payment: Ref, dues: seq<Due>) {
    forall c :: c in calls ==>
      && c.payment == payment && c.metadata.None?
      && exists d :: d in dues && d.invoice == c.invoice && d.original == c.original
  }

  /** The invoice of the i-th due stood within its one original amount. */
  ghost predicate StoodWithin(links: seq<Link>, dues: seq<Due>, i: nat)
    requires i < |dues|
  {
    AgreeOnOriginal(dues, dues[i]) && Applied(links, dues[i].invoice) <= dues[i].original
  }

  /** An invoice listed more than once is listed with one original amount. */
  ghost predicate AgreeOnOriginal(dues: seq<Due>, due: Due) {
    forall d :: d in dues && d.invoice == due.invoice ==> d.original == due.original
  }

  function CallTotal(calls: seq<Call>): int {
    if calls == [] then 0 else CallTotal(calls[..|calls| - 1]) + calls[|calls| - 1].amount
  }

  lemma NoCalls(links: seq<Link>, payment: Ref, dues: seq<Due>)
    ensures ApplyAll(links, []) == links && CallsOn([], payment, dues) && CallTotal([]) == 0
  {
  }

  lemma OneMoreCall(links: seq<Link>, calls: seq<Call>, c: Call, payment: Ref, dues: seq<Due>, i: nat)
    requires CallsOn(calls, payment, dues) && i < |dues| && c.invoice == dues[i].invoice &&
      c.original == dues[i].original
    requires c.payment == payment && c.metadata.None?
    ensures ApplyAll(links, calls + [c]) == ApplyOne(ApplyAll(links, calls), c)
    ensures CallsOn(calls + [c], payment, dues) && CallTotal(calls + [c]) == CallTotal(calls) + c.amount
  {
    hide ApplyOne;
    assert (calls + [c])[..|calls|] == calls;
    assert dues[i] in dues;
  }

  lemma NeverOverapplied(links: seq<Link>, calls: seq<Call>, payment: Ref, dues: seq<Due>)
    requires CallsOn(calls, payment, dues)
    ensures forall i :: 0 <= i < |dues| && StoodWithin(links, dues, i) ==>
              Applied(ApplyAll(links, calls), dues[i].invoice) <= dues[i].original
  {
    hide Applied, ApplyAll;
    forall i | 0 <= i < |dues| && StoodWithin(links, dues, i)
      ensures Applied(ApplyAll(links, calls), dues[i].invoice) <= dues[i].original {
      NoOverapplication(links, calls, dues[i].invoice, dues[i].original);
    }
  }

  lemma PayableRemaining(links: seq<Link>, payment: Ref, dues: seq<Due>)
    requires Payable(links, payment, dues)
    ensures forall d :: d in dues ==> d.remaining >= 0
  {
  }

  lemma AllPaid(before: seq<Link>, links: seq<Link>, payment: Ref, amount: int, dues: seq<Due>)
    requires PaidUpTo(before, links, payment, amount, dues, |dues|)
    ensures forall i :: 0 <= i < |dues| ==>
              Applied(links, dues[i].invoice) == Applied(before, dues[i].invoice) + PaidTo(amount, dues, i)
    ensures forall x :: (forall d :: d in dues ==> d.invoice != x) ==> Applied(links, x) == Applied(before, x)
  {
  }
}
