/** finance_services/period_close_orchestrator.py with finance_services/_close_types.py and the
    period state of finance_kernel/services/period_service.py: a close run in six phases under a
    lock, with authority levels and a certificate, while other sessions act on the same period. */
module PeriodClose {
  import opened Common

  // ---- Authority ----

  datatype CloseRole = Auditor | Preparer | Reviewer | Approver

  function Rank(r: CloseRole): nat {
    match r case Auditor => 0 case Preparer => 1 case Reviewer => 2 case Approver => 3
  }

  predicate HasAuthority(actual: CloseRole, required: CloseRole) { Rank(actual) >= Rank(required) }

  /** Who may do what: anyone may look (phase 0), auditors may do nothing else, and only an approver may
      close and lock (phases 5 and 6) or try a phase that does not exist. */
  lemma AuthorityIs(role: CloseRole, phase: int)
    ensures HasAuthority(role, RequiredRole(phase)) <==>
            phase == 0 || (1 <= phase <= 4 && role != Auditor) || role == Approver
  {
  }

  function RequiredRole(phase: int): CloseRole {
    if phase == 0 then Auditor else if 1 <= phase <= 4 then Preparer else Approver
  }

  // ---- The period and its service ----

  datatype PeriodStatus = Open | Closing | Closed | Locked

  datatype Period = Period(status: PeriodStatus, run: Option<nat>)

  predicate IsClosed(p: Period) { p.status in {Closed, Locked} }

  datatype CloseError =
    | NoAuthority(phase: int)
    | NotFound
    | AlreadyClosed
    | BeingClosed
    | NotClosing
    | NotClosed
    | CallbackRaised

  /** The calls of PeriodService that change a period, from whatever session. */
  datatype PeriodOp = BeginClosing(id: nat) | CancelClosing | ClosePeriod | LockPeriod

  function Perform(p: Period, op: PeriodOp): Outcome<Period, CloseError> {
    match op
    case BeginClosing(id) =>
      if IsClosed(p) then Err(AlreadyClosed)
      else if p.status == Closing then Err(BeingClosed)
      else Ok(Period(Closing, Some(id)))
    case CancelClosing => if p.status != Closing then Err(NotClosing) else Ok(Period(Open, None))
    case ClosePeriod => if IsClosed(p) then Err(AlreadyClosed) else Ok(Period(Closed, None))
    case LockPeriod => if p.status != Closed then Err(NotClosed) else Ok(p.(status := Locked))
  }

  function After(p: Period, op: PeriodOp): Period {
    var r := Perform(p, op);
    if r.Ok? then r.value else p
  }

  function AfterAll(p: Period, ops: seq<PeriodOp>): Period {
    if ops == [] then p else After(AfterAll(p, ops[..|ops| - 1]), ops[|ops| - 1])
  }

  /** What each call asks of the period, and what it makes of it. */
  lemma PerformIs(p: Period, op: PeriodOp)
    ensures op.BeginClosing? ==>
              if p.status == Open then Perform(p, op) == Ok(Period(Closing, Some(op.id)))
              else Perform(p, op) == Err(if p.status == Closing then BeingClosed else AlreadyClosed)
    ensures op.CancelClosing? ==>
              Perform(p, op) == if p.status == Closing then Ok(Period(Open, None)) else Err(NotClosing)
    ensures op.ClosePeriod? ==>
              if p.status in {Open, Closing} then Perform(p, op) == Ok(Period(Closed, None))
              else Perform(p, op) == Err(AlreadyClosed)
    ensures op.LockPeriod? ==>
              Perform(p, op) == if p.status == Closed then Ok(Period(Locked, p.run)) else Err(NotClosed)
  {
    match p.status {
      case Open | Closing =>
      case Closed | Locked =>
    }
  }

  /** Closing is for good: over any sequence of calls a closed period stays closed, a locked one
      stays locked, and the close lock is held exactly while the period is closing. */
  lemma {:induction false} ClosedIsForever(p: Period, ops: seq<PeriodOp>)
    requires p.run.Some? <==> p.status == Closing
    ensures var q := AfterAll(p, ops);
            && (IsClosed(p) ==> IsClosed(q))
            && (p.status == Locked ==> q == p)
            && (q.run.Some? <==> q.status == Closing)
  {
    if ops != [] {
      ClosedIsForever(p, ops[..|ops| - 1]);
    }
  }

  // ---- Phases ----

  datatype Subledger = AP | AR | Inventory | Bank

  const SL_CLOSE_ORDER := [AP, AR, Inventory, Bank]

  datatype SlOutcome = SlClosed | SlOpen | SlError

  datatype TrialBalance = Balanced | Unbalanced | TbError

  datatype Callback = NoCallback | Posts(count: nat) | Raises

  datatype ClosingEntry = Posted(count: nat) | PostError

  /** How the services a run depends on will answer, and what other sessions do to the period just
      before each phase. */
  datatype World = World(
    subledgers: Option<Subledger -> SlOutcome>, trialBalance: TrialBalance, adjustments: Callback,
    closing: ClosingEntry, others: int -> seq<PeriodOp>)

  datatype PhaseResult = PhaseResult(
    phase: int, success: bool, skipped: bool, subledgers: seq<Subledger>, count: Option<nat>)

  function Plain(phase: int, success: bool): PhaseResult { PhaseResult(phase, success, false, [], None) }

  function ClosedOnes(f: Subledger -> SlOutcome, order: seq<Subledger>): seq<Subledger> {
    if order == [] then []
    else
      var last := order[|order| - 1];
      ClosedOnes(f, order[..|order| - 1]) + if f(last) == SlClosed then [last] else []
  }

  method CloseSubledgers(f: Subledger -> SlOutcome) returns (allClosed: bool, closed: seq<Subledger>)
    ensures allClosed <==> forall s :: s in SL_CLOSE_ORDER ==> f(s) == SlClosed
    ensures closed == ClosedOnes(f, SL_CLOSE_ORDER)
  {
    allClosed, closed := true, [];
    var order := SL_CLOSE_ORDER;
    for i := 0 to |order|
      invariant allClosed <==> forall j :: 0 <= j < i ==> f(order[j]) == SlClosed
      invariant closed == ClosedOnes(f, order[..i])
    {
      assert order[..i + 1][..i] == order[..i];
      if f(order[i]) == SlClosed {
        closed := closed + [order[i]];
      } else {
        allClosed := false;
      }
    }
    assert order[..|order|] == order;
  }

  predicate SubledgersClose(w: World) {
    w.subledgers.None? || forall s :: s in SL_CLOSE_ORDER ==> w.subledgers.value(s) == SlClosed
  }

  /** Whether a phase succeeds: phases 1-4 depend on the services, 5 and 6 on the period. */
  predicate Succeeds(phase: int, yearEnd: bool, p: Period, w: World) {
    match phase
    case 1 => SubledgersClose(w)
    case 2 => w.trialBalance == Balanced
    case 3 => true
    case 4 => yearEnd ==> w.closing.Posted?
    case 5 => Perform(p, ClosePeriod).Ok?
    case 6 => yearEnd ==> Perform(p, LockPeriod).Ok?
    case _ => false
  }

  /** The period after a phase has run on it. */
  function PhaseEffect(phase: int, yearEnd: bool, p: Period): Period {
    if phase == 5 then After(p, ClosePeriod)
    else if phase == 6 && yearEnd then After(p, LockPeriod)
    else p
  }

  predicate Skips(phase: int, yearEnd: bool) { phase in {4, 6} && !yearEnd }

  /** The period as a phase finds it. */
  function Found(p: Period, w: World, phase: int): Period { AfterAll(p, w.others(phase)) }

  datatype Certificate = Certificate(
    subledgers: seq<Subledger>, adjustments: nat, closingEntries: nat, completed: nat, skipped: nat)

  datatype RunStatus = Completed | Failed

  datatype CloseResult = CloseResult(
    status: RunStatus, phasesCompleted: nat, phases: seq<PhaseResult>, certificate: Option<Certificate>)

  function CountCompleted(rs: seq<PhaseResult>): nat {
    if rs == [] then 0
    else CountCompleted(rs[..|rs| - 1]) + if rs[|rs| - 1].success && !rs[|rs| - 1].skipped then 1 else 0
  }

  function CountSkipped(rs: seq<PhaseResult>): nat {
    if rs == [] then 0
    else CountSkipped(rs[..|rs| - 1]) + if rs[|rs| - 1].success && rs[|rs| - 1].skipped then 1 else 0
  }

  ghost predicate Numbered(rs: seq<PhaseResult>) { forall i :: 0 <= i < |rs| ==> rs[i].phase == i + 1 }

  method BuildCertificate(rs: seq<PhaseResult>) returns (c: Certificate)
    ensures c.completed == CountCompleted(rs) && c.skipped == CountSkipped(rs)
    ensures Numbered(rs) && |rs| == 6 ==>
      c.subledgers == rs[0].subledgers && c.adjustments == OrZero(rs[2].count) &&
        c.closingEntries == OrZero(rs[3].count)
  {
    c := Certificate([], 0, 0, 0, 0);
    for i := 0 to |rs|
      invariant c.completed == CountCompleted(rs[..i]) && c.skipped == CountSkipped(rs[..i])
      invariant Numbered(rs) ==>
        && c.subledgers == (if i > 0 then rs[0].subledgers else [])
        && c.adjustments == (if i > 2 then OrZero(rs[2].count) else 0)
        && c.closingEntries == (if i > 3 then OrZero(rs[3].count) else 0)
    {
      assert rs[..i + 1][..i] == rs[..i];
      var r := rs[i];
      if r.success {
        c := if r.skipped then c.(skipped := c.skipped + 1) else c.(completed := c.completed + 1);
      }
      if r.phase == 1 {
        c := c.(subledgers := c.subledgers + r.subledgers);
      }
      if r.phase == 3 && r.count.Some? {
        c := c.(adjustments := r.count.value);
      }
      if r.phase == 4 && r.count.Some? {
        c := c.(closingEntries := r.count.value);
      }
    }
    assert rs[..|rs|] == rs;
  }

  // ---- What a run looks like from outside ----

  /** A result of phase n of a run, whatever its success. */
  ghost predicate ResultOf(r: PhaseResult, n: int, yearEnd: bool, w: World) {
    r.phase == n && r.skipped == Skips(n, yearEnd) && Reports(r, yearEnd, w)
  }

  /** The phases so far are 1, 2, ... in order, each successful, skipped exactly where it may be. */
  ghost predicate InOrder(rs: seq<PhaseResult>, yearEnd: bool, w: World) {
    forall i :: 0 <= i < |rs| ==> ResultOf(rs[i], i + 1, yearEnd, w) && rs[i].success
  }

  /** Six successes in order, with a certificate that counts them and repeats their figures. */
  ghost predicate CompletedInFull(c: CloseResult, yearEnd: bool, w: World) {
    && |c.phases| == 6 && InOrder(c.phases, yearEnd, w)
    && (forall i :: 0 <= i < 6 ==> (c.phases[i].skipped <==> !yearEnd && i in {3, 5}))
    && c.certificate.Some?
    && c.certificate.value.completed == c.phasesCompleted == (if yearEnd then 6 else 4)
    && c.certificate.value.skipped == (if yearEnd then 0 else 2)
    && c.certificate.value.subledgers == SubledgersCertified(w)
    && c.certificate.value.adjustments == AdjustmentsPosted(w)
    && c.certificate.value.closingEntries == EntriesPosted(w, yearEnd)
  }

  /** Every phase but the last succeeded, in order; the last failed, and nothing is certified. */
  ghost predicate FailedAtLast(c: CloseResult, yearEnd: bool) {
    var p := |c.phases|;
    && 1 <= p <= 6 && c.phasesCompleted == p - 1 && c.certificate.None?
    && (forall i :: 0 <= i < p ==> c.phases[i].phase == i + 1 && c.phases[i].skipped == Skips(i + 1, yearEnd))
    && (forall i :: 0 <= i < p ==> (c.phases[i].success <==> i < p - 1))
  }

  lemma NothingInOrder(yearEnd: bool, w: World)
    ensures InOrder([], yearEnd, w)
  {
  }

  lemma OneMoreInOrder(rs: seq<PhaseResult>, r: PhaseResult, yearEnd: bool, w: World)
    requires InOrder(rs, yearEnd, w) && ResultOf(r, |rs| + 1, yearEnd, w) && r.success
    ensures InOrder(rs + [r], yearEnd, w)
  {
  }

  lemma LastInOrder(rs: seq<PhaseResult>, yearEnd: bool, w: World)
    requires InOrder(rs, yearEnd, w) && rs != []
    ensures ResultOf(rs[|rs| - 1], |rs|, yearEnd, w) && rs[|rs| - 1].success && InOrder(rs[..|rs| - 1], yearEnd, w)
  {
  }

  lemma FailsAtLast(rs: seq<PhaseResult>, r: PhaseResult, yearEnd: bool, w: World)
    requires InOrder(rs, yearEnd, w) && |rs| < 6 && ResultOf(r, |rs| + 1, yearEnd, w) && !r.success
    ensures FailedAtLast(CloseResult(Failed, |rs|, rs + [r], None), yearEnd)
  {
  }

  /** The period as it stands before phase n, when phases 1 to n-1 have run. */
  ghost function Before(p: Period, w: World, yearEnd: bool, n: nat): Period
    requires n >= 1
  {
    if n == 1 then Found(p, w, 1)
    else Found(PhaseEffect(n - 1, yearEnd, Before(p, w, yearEnd, n - 1)), w, n)
  }

  /** There is such a period and it is open, so that a run can take its lock. */
  predicate Startable(periods: map<string, Period>, code: string) { code in periods && periods[code].status == Open }

  ghost predicate PassesUpTo(p: Period, w: World, yearEnd: bool, n: nat) {
    forall i :: 1 <= i <= n ==> Passes(p, w, yearEnd, i)
  }

  /** Phase n succeeds when it is reached. */
  ghost predicate Passes(p: Period, w: World, yearEnd: bool, n: nat)
    requires n >= 1
  {
    Succeeds(n, yearEnd, Before(p, w, yearEnd, n), w)
  }

  /** Before phase 5 a run changes nothing, so the period is as other sessions left it; if they left
      it alone, the lock is still this run's. */
  lemma {:induction false} QuietKeepsLock(p: Period, w: World, yearEnd: bool, n: nat)
    requires 1 <= n <= 5 && forall i :: 1 <= i <= n ==> w.others(i) == []
    ensures Before(p, w, yearEnd, n) == p
  {
    if n > 1 {
      QuietKeepsLock(p, w, yearEnd, n - 1);
    }
  }

  /** Left alone, a run that has taken the lock cannot fail to close the period or to lock it. */
  lemma QuietCloses(runId: nat, w: World, yearEnd: bool)
    requires forall i :: 1 <= i <= 6 ==> w.others(i) == []
    ensures var locked := Period(Closing, Some(runId));
            Passes(locked, w, yearEnd, 3) && Passes(locked, w, yearEnd, 5) && Passes(locked, w, yearEnd, 6)
  {
    var locked := Period(Closing, Some(runId));
    QuietKeepsLock(locked, w, yearEnd, 5);
    assert Before(locked, w, yearEnd, 6) == Period(Closed, None);
  }

  /** The subledgers that closed are the whole list, in order, when phase 1 succeeds. */
  lemma AllClosedOnes(w: World)
    requires SubledgersClose(w) && w.subledgers.Some?
    ensures ClosedOnes(w.subledgers.value, SL_CLOSE_ORDER) == SL_CLOSE_ORDER
  {
    AllInOrder(w.subledgers.value, SL_CLOSE_ORDER);
  }

  lemma {:induction false} AllInOrder(f: Subledger -> SlOutcome, order: seq<Subledger>)
    requires forall s :: s in order ==> f(s) == SlClosed
    ensures ClosedOnes(f, order) == order
  {
    if order != [] {
      AllInOrder(f, order[..|order| - 1]);
      assert order[|order| - 1] in order;
    }
  }

  /** What a phase reports besides its success. */
  ghost predicate Reports(r: PhaseResult, yearEnd: bool, w: World) {
    && r.subledgers ==
       (if r.phase == 1 && w.subledgers.Some? then ClosedOnes(w.subledgers.value, SL_CLOSE_ORDER) else [])
    && OrZero(r.count) ==
       (if r.phase == 3 then AdjustmentsPosted(w) else if r.phase == 4 then EntriesPosted(w, yearEnd) else 0)
  }

  function AdjustmentsPosted(w: World): nat { if w.adjustments.Posts? then w.adjustments.count else 0 }

  function EntriesPosted(w: World, yearEnd: bool): nat { if yearEnd && w.closing.Posted? then w.closing.count else 0 }

  function SubledgersCertified(w: World): seq<Subledger> { if w.subledgers.Some? then SL_CLOSE_ORDER else [] }

  lemma {:induction false} CountsInOrder(rs: seq<PhaseResult>, yearEnd: bool, w: World, n: nat)
    requires n <= |rs| <= 6 && InOrder(rs, yearEnd, w)
    ensures CountCompleted(rs[..n]) + CountSkipped(rs[..n]) == n
    ensures CountSkipped(rs[..n]) == if yearEnd || n < 4 then 0 else if n < 6 then 1 else 2
  {
    if n > 0 {
      CountsInOrder(rs, yearEnd, w, n - 1);
      assert rs[..n][..n - 1] == rs[..n - 1];
    } else {
      assert rs[..0] == [];
    }
  }

  /** Once phase 5 has closed the period it is still closed before phase 6, whatever others do. */
  lemma ClosedBeforeLock(p: Period, w: World, yearEnd: bool)
    requires (p.run.Some? <==> p.status == Closing) && Passes(p, w, yearEnd, 5)
    ensures IsClosed(Before(p, w, yearEnd, 6))
    ensures IsClosed(PhaseEffect(6, yearEnd, Before(p, w, yearEnd, 6)))
    ensures yearEnd && Passes(p, w, yearEnd, 6) ==> PhaseEffect(6, yearEnd, Before(p, w, yearEnd, 6)).status == Locked
  {
    var closed := PhaseEffect(5, yearEnd, Before(p, w, yearEnd, 5));
    assert closed == Period(Closed, None);
    ClosedIsForever(closed, w.others(6));
  }

  /** Phase 5 asks only that the period is not closed yet, and not who holds its close lock. */
  lemma ClosePassesIff(p: Period, w: World, yearEnd: bool)
    ensures Passes(p, w, yearEnd, 5) <==> !IsClosed(Before(p, w, yearEnd, 5))
  {
    hide Before;
  }

  /** Phase 6 passes when the period is to stay closed only, or when nobody has locked it yet. */
  lemma LockPassesIff(p: Period, w: World, yearEnd: bool)
    requires (p.run.Some? <==> p.status == Closing) && Passes(p, w, yearEnd, 5)
    ensures Passes(p, w, yearEnd, 6) <==> (yearEnd ==> Before(p, w, yearEnd, 6).status == Closed)
  {
    hide Before;
  }

  /** So the lock is not exclusive: when another session cancels this close and begins its own before
      phase 5, the period is locked by that session, and this run closes it all the same. */
  lemma LockIsTakenOver(runId: nat, other: nat, w: World, yearEnd: bool)
    requires (forall i :: 1 <= i <= 4 ==> w.others(i) == []) && w.others(5) == [CancelClosing, BeginClosing(other)]
    ensures var locked := Period(Closing, Some(runId));
            && Before(locked, w, yearEnd, 5) == Period(Closing, Some(other))
            && Passes(locked, w, yearEnd, 5)
            && PhaseEffect(5, yearEnd, Before(locked, w, yearEnd, 5)) == Period(Closed, None)
  {
    var locked := Period(Closing, Some(runId));
    QuietKeepsLock(locked, w, yearEnd, 4);
    var ops := w.others(5);
    assert ops[..1] == [CancelClosing] && [CancelClosing][..0] == [];
    assert AfterAll(locked, [CancelClosing]) == Period(Open, None);
    ClosePassesIff(locked, w, yearEnd);
  }

  /** The certificate of six phases in order counts 6 + 0 at year end and 4 + 2 otherwise. */
  lemma CompletesInFull(rs: seq<PhaseResult>, c: Certificate, yearEnd: bool, w: World)
    requires |rs| == 6 && InOrder(rs, yearEnd, w) && SubledgersClose(w)
    requires c.completed == CountCompleted(rs) && c.skipped == CountSkipped(rs)
    requires Numbered(rs) ==>
      c.subledgers == rs[0].subledgers && c.adjustments == OrZero(rs[2].count) &&
        c.closingEntries == OrZero(rs[3].count)
    ensures CompletedInFull(CloseResult(Completed, CountCompleted(rs), rs, Some(c)), yearEnd, w)
  {
    CountsInOrder(rs, yearEnd, w, 6);
    assert rs[..6] == rs;
    if w.subledgers.Some? {
      AllClosedOnes(w);
    }
  }

  lemma PhaseIsReached(p: Period, w: World, yearEnd: bool, n: nat)
    requires n >= 1
    ensures Before(p, w, yearEnd, n) ==
      Found(if n == 1 then p else PhaseEffect(n - 1, yearEnd, Before(p, w, yearEnd, n - 1)), w, n)
    ensures Passes(p, w, yearEnd, n) <==> Succeeds(n, yearEnd, Before(p, w, yearEnd, n), w)
  {
  }

  lemma Phase1Passed(p: Period, w: World, yearEnd: bool)
    ensures Passes(p, w, yearEnd, 1) ==> SubledgersClose(w)
  {
  }

  /** What the services must answer for a run to complete: every subledger closes, in a system that has
      them, the trial balance balances, and at year end the closing entries are posted. */
  ghost predicate BooksReady(w: World, yearEnd: bool) {
    && (w.subledgers.Some? ==> forall s :: s in {AP, AR, Inventory, Bank} ==> w.subledgers.value(s) == SlClosed)
    && w.trialBalance == Balanced
    && (yearEnd ==> w.closing.Posted?)
  }

  /** No other session touches the period during the run. */
  ghost predicate Quiet(w: World) { forall i :: 1 <= i <= 6 ==> w.others(i) == [] }

  /** A run passes all its phases only with its books ready, and left alone always does then. */
  lemma AllPass(runId: nat, w: World, yearEnd: bool)
    ensures PassesUpTo(Period(Closing, Some(runId)), w, yearEnd, 6) ==> BooksReady(w, yearEnd)
    ensures Quiet(w) && BooksReady(w, yearEnd) ==> PassesUpTo(Period(Closing, Some(runId)), w, yearEnd, 6)
  {
    hide Passes, BooksReady;
    BooksReadyIff(Period(Closing, Some(runId)), w, yearEnd);
    if Quiet(w) {
      QuietCloses(runId, w, yearEnd);
    }
  }

  /** Phases 1, 2 and 4 pass exactly when the books are ready, and phase 3 always does. */
  lemma BooksReadyIff(p: Period, w: World, yearEnd: bool)
    ensures BooksReady(w, yearEnd) <==>
            Passes(p, w, yearEnd, 1) && Passes(p, w, yearEnd, 2) && Passes(p, w, yearEnd, 4)
    ensures Passes(p, w, yearEnd, 3)
  {
    hide Before;
  }

  /** A phase that fails leaves the period as it found it, and phase 6 finds it closed. */
  lemma FailureChangesNothing(p: Period, w: World, yearEnd: bool, n: nat)
    requires 1 <= n <= 6 && (p.run.Some? <==> p.status == Closing)
    requires !Passes(p, w, yearEnd, n) && (n == 6 ==> Passes(p, w, yearEnd, 5))
    ensures PhaseEffect(n, yearEnd, Before(p, w, yearEnd, n)) == Before(p, w, yearEnd, n)
    ensures n == 6 ==> IsClosed(Before(p, w, yearEnd, 6))
  {
    if n == 6 {
      ClosedBeforeLock(p, w, yearEnd);
    }
  }

  /** The periods other than that of code are the same ones, unchanged. */
  ghost predicate OthersKept(before: map<string, Period>, after: map<string, Period>, code: string) {
    forall c :: c != code ==> (c in after <==> c in before) && (c in after ==> after[c] == before[c])
  }

  lemma NothingElse(periods: map<string, Period>, code: string)
    ensures OthersKept(periods, periods, code)
  {
  }

  lemma OneKept(before: map<string, Period>, after: map<string, Period>, code: string, p: Period)
    requires OthersKept(before, after, code)
    ensures OthersKept(before, after[code := p], code)
  {
  }

  /** How far a run has come when it stops: past the results before the last one in any case, and either a
      phase raised, phase 3 by its callback or phase 5 for want of authority, or the last one failed, or
      all six passed. */
  ghost predicate Stopped(
    results: seq<PhaseResult>, raised: Option<CloseError>, role: CloseRole, p: Period, w: World, yearEnd: bool)
  {
    var n := |results|;
    && n <= 6 && (n > 3 ==> w.adjustments != Raises) && (n > 4 ==> role == Approver)
    && (raised.Some? ==>
          && PassesUpTo(p, w, yearEnd, n)
          && (raised.value == CallbackRaised ==> n == 2 && w.adjustments == Raises)
          && (raised.value != CallbackRaised ==> n == 4 && raised.value == NoAuthority(5) && role != Approver))
    && (raised.None? ==>
          && n >= 1 && ResultOf(results[n - 1], n, yearEnd, w)
          && InOrder(results[..n - 1], yearEnd, w) && PassesUpTo(p, w, yearEnd, n - 1)
          && (results[n - 1].success <==> Passes(p, w, yearEnd, n))
          && (results[n - 1].success ==> n == 6 && InOrder(results, yearEnd, w))
          && (n == 3 ==> w.adjustments != Raises))
  }

  /** What that says of the run as a whole. */
  lemma StoppedMeans(
    results: seq<PhaseResult>, raised: Option<CloseError>, role: CloseRole, p: Period, w: World, yearEnd: bool)
    requires Stopped(results, raised, role, p, w, yearEnd) && role != Auditor
    ensures role != Approver && w.adjustments != Raises ==> (raised.Some? <==> PassesUpTo(p, w, yearEnd, 4))
    ensures role != Approver && w.adjustments != Raises && raised.Some? ==>
              raised.value == NoAuthority(5) && |results| == 4
    ensures w.adjustments == Raises ==> (raised.Some? <==> PassesUpTo(p, w, yearEnd, 2))
    ensures w.adjustments == Raises && raised.Some? ==> raised.value == CallbackRaised && |results| == 2
    ensures role == Approver && w.adjustments != Raises ==> raised.None?
    ensures raised.None? ==> 1 <= |results| <= 6 && (|results| >= 5 ==> role == Approver)
    ensures raised.None? && results[|results| - 1].success <==>
            role == Approver && w.adjustments != Raises && PassesUpTo(p, w, yearEnd, 6)
  {
    hide Passes, InOrder, ResultOf;
    var n := |results|;
    if raised.None? && !results[n - 1].success && n <= 4 {
      assert !Passes(p, w, yearEnd, n);
    }
  }

  lemma StoppedByFailure(results: seq<PhaseResult>, role: CloseRole, p: Period, w: World, yearEnd: bool)
    requires Stopped(results, None, role, p, w, yearEnd) && !results[|results| - 1].success
    requires p.run.Some? <==> p.status == Closing
    ensures var n := |results|;
            && FailedAtLast(CloseResult(Failed, n - 1, results, None), yearEnd)
            && !Passes(p, w, yearEnd, n)
            && PhaseEffect(n, yearEnd, Before(p, w, yearEnd, n)) == Before(p, w, yearEnd, n)
            && (n == 6 ==> IsClosed(Before(p, w, yearEnd, 6)))
  {
    hide Passes, InOrder, ResultOf, FailedAtLast, PhaseEffect, Before;
    var n := |results|;
    FailureChangesNothing(p, w, yearEnd, n);
    FailsAtLast(results[..n - 1], results[n - 1], yearEnd, w);
    assert results == results[..n - 1] + [results[n - 1]];
  }

  lemma StoppedByCompletion(
    results: seq<PhaseResult>, c: Certificate, role: CloseRole, p: Period, w: World, yearEnd: bool)
    requires Stopped(results, None, role, p, w, yearEnd) && results[|results| - 1].success
    requires p.run.Some? <==> p.status == Closing
    requires c.completed == CountCompleted(results) && c.skipped == CountSkipped(results)
    requires Numbered(results) && |results| == 6 ==>
      && c.subledgers == results[0].subledgers && c.adjustments == OrZero(results[2].count)
      && c.closingEntries == OrZero(results[3].count)
    ensures |results| == 6
    ensures CompletedInFull(CloseResult(Completed, CountCompleted(results), results, Some(c)), yearEnd, w)
    ensures var after := PhaseEffect(6, yearEnd, Before(p, w, yearEnd, 6));
            IsClosed(after) && (yearEnd ==> after.status == Locked)
  {
    hide InOrder, ResultOf, PhaseEffect, Before, Passes, CompletedInFull;
    assert Passes(p, w, yearEnd, 1) && Passes(p, w, yearEnd, 5) && Passes(p, w, yearEnd, 6);
    ClosedBeforeLock(p, w, yearEnd);
    Phase1Passed(p, w, yearEnd);
    CompletesInFull(results, c, yearEnd, w);
  }

  lemma KeptTwice(a: map<string, Period>, b: map<string, Period>, c: map<string, Period>, code: string)
    requires OthersKept(a, b, code) && OthersKept(b, c, code)
    ensures OthersKept(a, c, code)
  {
  }

  class PeriodCloseOrchestrator {
    var periods: map<string, Period>
    const role: nat -> CloseRole

    constructor (role: nat -> CloseRole, periods: map<string, Period>)
      ensures this.role == role && this.periods == periods
    {
      this.role, this.periods := role, periods;
    }

    /** Takes the close lock. */
    method BeginClose(code: string, actor: nat, runId: nat) returns (r: Outcome<(), CloseError>)
      modifies this
      ensures !HasAuthority(role(actor), Preparer) ==> r == Err(NoAuthority(1))
      ensures HasAuthority(role(actor), Preparer) && code !in old(periods) ==> r == Err(NotFound)
      ensures r.Ok? <==> HasAuthority(role(actor), Preparer) && Startable(old(periods), code)
      ensures HasAuthority(role(actor), Preparer) && code in old(periods) && r.Err? ==>
        r.error == if IsClosed(old(periods)[code]) then AlreadyClosed else BeingClosed
      ensures periods == if r.Ok? then old(periods)[code := Period(Closing, Some(runId))] else old(periods)
    {
      if !HasAuthority(role(actor), RequiredRole(1)) {
        return Err(NoAuthority(1));
      }
      if code !in periods {
        return Err(NotFound);
      }
      var begun := Perform(periods[code], BeginClosing(runId));
      if begun.Err? {
        return Err(begun.error);
      }
      periods := periods[code := begun.value];
      r := Ok(());
    }

    /** One phase; order is not enforced here, only authority. */
    method RunPhase(code: string, yearEnd: bool, phase: int, actor: nat, w: World)
        returns (r: Outcome<PhaseResult, CloseError>)
      requires code in periods
      modifies this
      ensures r.Err? <==> !HasAuthority(role(actor), RequiredRole(phase)) || (phase == 3 && w.adjustments == Raises)
      ensures r.Err? ==>
        r.error == if HasAuthority(role(actor), RequiredRole(phase)) then CallbackRaised else NoAuthority(phase)
      ensures periods ==
        if r.Ok? then old(periods)[code := PhaseEffect(phase, yearEnd, old(periods)[code])] else old(periods)
      ensures r.Ok? && !(1 <= phase <= 6) ==> !r.value.success
      ensures r.Ok? ==>
        ResultOf(r.value, phase, yearEnd, w) && r.value.success == Succeeds(phase, yearEnd, old(periods)[code], w)
    {
      if !HasAuthority(role(actor), RequiredRole(phase)) {
        return Err(NoAuthority(phase));
      }
      var p := periods[code];
      match phase {
        case 1 =>
          if w.subledgers.None? {
            return Ok(Plain(1, true));
          }
          var allClosed, closed := CloseSubledgers(w.subledgers.value);
          r := Ok(PhaseResult(1, allClosed, false, closed, None));
        case 2 =>
          r := Ok(Plain(2, w.trialBalance == Balanced));
        case 3 =>
          if w.adjustments == Raises {
            return Err(CallbackRaised);
          }
          r := Ok(Plain(3, true).(count := Some(if w.adjustments.Posts? then w.adjustments.count else 0)));
        case 4 =>
          r := Ok(if !yearEnd then Plain(4, true).(skipped := true)
                  else if w.closing.Posted? then Plain(4, true).(count := Some(w.closing.count))
                  else Plain(4, false));
        case 5 =>
          r := Ok(Plain(5, Perform(p, ClosePeriod).Ok?));
          periods := periods[code := After(p, ClosePeriod)];
        case 6 =>
          if !yearEnd {
            return Ok(Plain(6, true).(skipped := true));
          }
          r := Ok(Plain(6, Perform(p, LockPeriod).Ok?));
          periods := periods[code := After(p, LockPeriod)];
        case _ =>
          r := Ok(Plain(phase, false));
      }
    }

    /** The period of code is as phase n of this run finds it. */
    ghost predicate StandsAt(code: string, runId: nat, w: World, yearEnd: bool, n: nat)
      requires n >= 1
      reads this
    {
      code in periods && periods[code] == Before(Period(Closing, Some(runId)), w, yearEnd, n)
    }

    /** A full close, with other sessions free to act on the period before every phase. */
    method ClosePeriodFull(code: string, actor: nat, yearEnd: bool, runId: nat, w: World)
        returns (r: Outcome<CloseResult, CloseError>)
      modifies this
      // Completed: six successes in order, under an approver, certified, and the period closed.
      ensures r.Ok? && r.value.status == Completed ==>
        && role(actor) == Approver && CompletedInFull(r.value, yearEnd, w)
        && code in periods && IsClosed(periods[code]) && (yearEnd ==> periods[code].status == Locked)
      // Failed: the period is as other sessions left it before the failing phase.
      ensures r.Ok? && r.value.status == Failed ==>
        && FailedAtLast(r.value, yearEnd) && Startable(old(periods), code)
        && !Passes(Period(Closing, Some(runId)), w, yearEnd, |r.value.phases|)
        && code in periods && periods[code] == Before(Period(Closing, Some(runId)), w, yearEnd, |r.value.phases|)
        && (|r.value.phases| == 6 ==> IsClosed(periods[code]))
      // Raised: nothing has happened unless the lock was taken.
      ensures r.Err? && !Startable(old(periods), code) ==> periods == old(periods)
      ensures !HasAuthority(role(actor), Preparer) ==> r == Err(NoAuthority(1)) && periods == old(periods)
      ensures HasAuthority(role(actor), Preparer) && code in old(periods) && IsClosed(old(periods)[code]) ==>
        r == Err(AlreadyClosed)
      // A preparer or reviewer is refused at phase 5, the lock still taken, exactly when phases 1 to 4 pass.
      ensures role(actor) in {Preparer, Reviewer} && Startable(old(periods), code) && w.adjustments != Raises ==>
        && (r.Err? <==> PassesUpTo(Period(Closing, Some(runId)), w, yearEnd, 4))
        && (r.Err? ==> r == Err(NoAuthority(5)) && StandsAt(code, runId, w, yearEnd, 5))
      ensures r.Ok? && |r.value.phases| >= 5 ==> role(actor) == Approver
      // A raising callback stops the run at phase 3, the lock still taken, exactly when phases 1 and 2 pass.
      ensures HasAuthority(role(actor), Preparer) && Startable(old(periods), code) && w.adjustments == Raises ==>
        && (r.Err? <==> PassesUpTo(Period(Closing, Some(runId)), w, yearEnd, 2))
        && (r.Err? ==> r == Err(CallbackRaised) && StandsAt(code, runId, w, yearEnd, 3))
      // An approver's run never raises otherwise, and no run touches another period.
      ensures role(actor) == Approver && Startable(old(periods), code) && w.adjustments != Raises ==> r.Ok?
      ensures OthersKept(old(periods), periods, code)
      // Completed in terms of the services' answers; for a run left alone, exactly then.
      ensures r.Ok? && r.value.status == Completed ==> BooksReady(w, yearEnd)
      ensures Quiet(w) ==>
        (r.Ok? && r.value.status == Completed <==>
          && role(actor) == Approver && Startable(old(periods), code) && w.adjustments != Raises
          && BooksReady(w, yearEnd))
      ensures role(actor) == Auditor ==> r == Err(NoAuthority(1)) && periods == old(periods)
      // Exactly when it completes; in particular never for an actor below approver.
      ensures r.Ok? && r.value.status == Completed <==>
        && role(actor) == Approver && Startable(old(periods), code)
        && w.adjustments != Raises
        && PassesUpTo(Period(Closing, Some(runId)), w, yearEnd, 6)
    {
      hide Reports, PhaseEffect, CountCompleted, Before, Passes, InOrder, ResultOf, CompletedInFull, FailedAtLast,
        OthersKept, BooksReady, Quiet, Stopped, PassesUpTo;
      NothingElse(old(periods), code);
      AllPass(runId, w, yearEnd);
      var begun := BeginClose(code, actor, runId);
      if begun.Err? {
        return Err(begun.error);
      }
      ghost var locked := Period(Closing, Some(runId));
      OneKept(old(periods), old(periods), code, locked);
      ghost var during := periods;
      var results, raised := RunPhases(code, actor, yearEnd, runId, w);
      KeptTwice(old(periods), during, periods, code);
      StoppedMeans(results, raised, role(actor), locked, w, yearEnd);
      if raised.Some? {
        return Err(raised.value);
      }
      var n := |results|;
      if !results[n - 1].success {
        StoppedByFailure(results, role(actor), locked, w, yearEnd);
        return Ok(CloseResult(Failed, n - 1, results, None));
      }
      var certificate := BuildCertificate(results);
      StoppedByCompletion(results, certificate, role(actor), locked, w, yearEnd);
      r := Ok(CloseResult(Completed, CountCompleted(results), results, Some(certificate)));
    }

    /** The loop over the phases, once the lock is taken. It stops at the first phase that fails, which is
        then the last result, or that raises: phase 3 by its callback, phase 5 for want of authority. */
    method RunPhases(code: string, actor: nat, yearEnd: bool, runId: nat, w: World)
        returns (results: seq<PhaseResult>, raised: Option<CloseError>)
      requires code in periods && periods[code] == Period(Closing, Some(runId)) && HasAuthority(role(actor), Preparer)
      modifies this
      ensures OthersKept(old(periods), periods, code) && code in periods && |results| <= 6
      ensures Stopped(results, raised, role(actor), Period(Closing, Some(runId)), w, yearEnd)
      ensures raised.Some? ==> StandsAt(code, runId, w, yearEnd, |results| + 1)
      ensures raised.None? ==>
        periods[code] == PhaseEffect(|results|, yearEnd, Before(Period(Closing, Some(runId)), w, yearEnd, |results|))
    {
      hide Reports, Perform, Succeeds, PhaseEffect, Found, Before, Passes, InOrder, ResultOf, OthersKept;
      ghost var locked := Period(Closing, Some(runId));
      results, raised := [], None;
      NothingInOrder(yearEnd, w);
      NothingElse(periods, code);
      for phase := 1 to 7
        invariant |results| == phase - 1 && InOrder(results, yearEnd, w)
        invariant code in periods
        invariant periods[code] ==
          if phase == 1 then locked else PhaseEffect(phase - 1, yearEnd, Before(locked, w, yearEnd, phase - 1))
        invariant forall n :: 1 <= n < phase ==> Passes(locked, w, yearEnd, n)
        invariant phase > 3 ==> w.adjustments != Raises
        invariant phase > 5 ==> role(actor) == Approver
        invariant OthersKept(old(periods), periods, code)
      {
        ghost var found := Found(periods[code], w, phase);
        OneKept(old(periods), periods, code, found);
        OneKept(old(periods), periods[code := found], code, PhaseEffect(phase, yearEnd, found));
        periods := periods[code := Found(periods[code], w, phase)];
        PhaseIsReached(locked, w, yearEnd, phase);
        var result := RunPhase(code, yearEnd, phase, actor, w);
        if result.Err? {
          raised := Some(result.error);
          return;
        }
        ghost var before := results;
        results := results + [result.value];
        assert results[..phase - 1] == before;
        if !result.value.success {
          return;
        }
        OneMoreInOrder(before, result.value, yearEnd, w);
      }
      LastInOrder(results, yearEnd, w);
    }
  }
}
