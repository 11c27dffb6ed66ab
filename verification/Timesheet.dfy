/** finance_engines/timesheet_compliance.py: the overlap check (CAS 418) and the daily-hours check,
    and why passing the first implies passing the second. Times are microseconds of the day. */
module Timesheet {
  import opened Common

  const HOUR := 3_600_000_000
  const DAY := 24 * HOUR

  datatype Date = Date(ordinal: int)

  datatype EntryRecord = Entry(id: nat, date: Date, code: string, hours: real, start: Option<int>, end: Option<int>)

  predicate InDay(t: Option<int>) { t.Some? ==> 0 <= t.value < DAY }

  /** What the constructors of time and of TimesheetEntry enforce. */
  predicate WellFormedEntry(e: EntryRecord) {
    && 0.0 <= e.hours <= 24.0
    && InDay(e.start) && InDay(e.end)
    && (e.start.Some? && e.end.Some? ==> e.start.value < e.end.value)
  }

  type TimesheetEntry = e: EntryRecord | WellFormedEntry(e) witness Entry(0, Date(0), "", 0.0, None, None)

  predicate Timed(e: TimesheetEntry) { e.start.Some? && e.end.Some? }

  predicate TimesOverlap(startA: int, endA: int, startB: int, endB: int) { startA < endB && startB < endA }

  predicate Overlap(a: TimesheetEntry, b: TimesheetEntry)
    requires Timed(a) && Timed(b)
  {
    TimesOverlap(a.start.value, a.end.value, b.start.value, b.end.value)
  }

  /** Two shifts overlap exactly when they share an instant; shifts that only touch do not. */
  lemma OverlapIff(a: TimesheetEntry, b: TimesheetEntry)
    requires Timed(a) && Timed(b)
    ensures Overlap(a, b) <==> exists t :: WorkedAt(a, t) && WorkedAt(b, t)
  {
    if Overlap(a, b) {
      var t := if a.start.value >= b.start.value then a.start.value else b.start.value;
      assert WorkedAt(a, t) && WorkedAt(b, t);
    }
  }

  /** A shift covers the instants from its start up to, but not including, its end. */
  predicate WorkedAt(e: TimesheetEntry, t: int)
    requires Timed(e)
  {
    e.start.value <= t < e.end.value
  }

  /** Two entries conflict exactly when both are timed, under different charge codes, with a common instant. */
  lemma ConflictIff(a: TimesheetEntry, b: TimesheetEntry)
    ensures Conflict(a, b) <==>
            && a.start.Some? && a.end.Some? && b.start.Some? && b.end.Some? && a.code != b.code
            && exists t :: WorkedAt(a, t) && WorkedAt(b, t)
  {
    hide Overlap;
    if Timed(a) && Timed(b) {
      OverlapIff(a, b);
    }
  }

  /** The entries of one date, in order. */
  function Day(entries: seq<TimesheetEntry>, date: Date): (r: seq<TimesheetEntry>)
    ensures forall e :: e in r <==> e in entries && e.date == date
  {
    if entries == [] then []
    else
      var last := entries[|entries| - 1];
      Day(entries[..|entries| - 1], date) + if last.date == date then [last] else []
  }

  function TimedOnly(entries: seq<TimesheetEntry>): (r: seq<TimesheetEntry>)
    ensures forall e :: e in r <==> e in entries && Timed(e)
  {
    if entries == [] then []
    else
      var last := entries[|entries| - 1];
      TimedOnly(entries[..|entries| - 1]) + if Timed(last) then [last] else []
  }

  ghost predicate AllTimed(entries: seq<TimesheetEntry>) {
    forall i :: 0 <= i < |entries| ==> Timed(entries[i])
  }

  function Hours(entries: seq<TimesheetEntry>): real {
    if entries == [] then 0.0 else Hours(entries[..|entries| - 1]) + entries[|entries| - 1].hours
  }

  // ---- The two checks ----

  predicate Conflict(a: TimesheetEntry, b: TimesheetEntry) {
    Timed(a) && Timed(b) && a.code != b.code && Overlap(a, b)
  }

  ghost predicate Clear(day: seq<TimesheetEntry>) {
    forall i, j :: 0 <= i < j < |day| ==> !Conflict(day[i], day[j])
  }

  /** The pair belongs to two conflicting entries of the list, in list order. */
  ghost predicate PairIn(entries: seq<TimesheetEntry>, o: (nat, nat)) {
    exists i, j :: 0 <= i < j < |entries| && Conflict(entries[i], entries[j]) && o == (entries[i].id, entries[j].id)
  }

  /** The entry conflicts with an earlier one of the list. */
  ghost predicate PairWith(entries: seq<TimesheetEntry>, e: TimesheetEntry, o: (nat, nat)) {
    exists i :: 0 <= i < |entries| && Conflict(entries[i], e) && o == (entries[i].id, e.id)
  }

  lemma PairInAppend(entries: seq<TimesheetEntry>, e: TimesheetEntry, o: (nat, nat))
    ensures PairIn(entries + [e], o) <==> PairIn(entries, o) || PairWith(entries, e, o)
  {
    hide Conflict;
    var more := entries + [e];
    if PairIn(entries, o) {
      var i, j :| 0 <= i < j < |entries| && Conflict(entries[i], entries[j]) && o == (entries[i].id, entries[j].id);
      assert more[i] == entries[i] && more[j] == entries[j];
    }
    if PairWith(entries, e, o) {
      var i :| 0 <= i < |entries| && Conflict(entries[i], e) && o == (entries[i].id, e.id);
      assert more[i] == entries[i] && more[|entries|] == e;
    }
  }

  /** Pairs whose first entry is among the first n. */
  ghost predicate PairFrom(day: seq<TimesheetEntry>, n: nat, o: (nat, nat))
    requires n <= |day|
  {
    exists i, j :: 0 <= i < n && i < j < |day| && Conflict(day[i], day[j]) && o == (day[i].id, day[j].id)
  }

  /** Pairs of entry i with the entries after it, up to n. */
  ghost predicate PairOf(day: seq<TimesheetEntry>, i: nat, n: nat, o: (nat, nat))
    requires i < |day| && n <= |day|
  {
    exists j :: i < j < n && Conflict(day[i], day[j]) && o == (day[i].id, day[j].id)
  }

  /** Reports exactly the pairs of entries that overlap under different charge codes. */
  method DayOverlaps(day: seq<TimesheetEntry>) returns (overlaps: seq<(nat, nat)>)
    requires AllTimed(day)
    ensures forall o :: o in overlaps <==> PairIn(day, o)
    ensures overlaps == [] <==> Clear(day)
  {
    hide Conflict, PairIn, PairFrom, PairOf, Clear;
    overlaps := [];
    NoPairs(day);
    for i := 0 to |day|
      invariant forall o :: o in overlaps <==> PairFrom(day, i, o)
    {
      NoPairsOf(day, i, i + 1);
      for j := i + 1 to |day|
        invariant forall o :: o in overlaps <==> PairFrom(day, i, o) || PairOf(day, i, j, o)
      {
        ConflictIs(day[i], day[j]);
        OnePairMore(day, i, j);
        if day[i].code != day[j].code && Overlap(day[i], day[j]) {
          overlaps := overlaps + [(day[i].id, day[j].id)];
        }
      }
      RowDone(day, i);
    }
    AllPairs(day);
    assert overlaps != [] ==> overlaps[0] in overlaps;
    ClearIff(day);
  }

  lemma NoPairs(day: seq<TimesheetEntry>)
    ensures forall o :: !PairFrom(day, 0, o)
  {
  }

  lemma NoPairsOf(day: seq<TimesheetEntry>, i: nat, n: nat)
    requires i < |day| && n == i + 1
    ensures forall o :: !PairOf(day, i, n, o)
  {
  }

  lemma ConflictIs(a: TimesheetEntry, b: TimesheetEntry)
    requires Timed(a) && Timed(b)
    ensures Conflict(a, b) <==> a.code != b.code && Overlap(a, b)
  {
  }

  lemma OnePairMore(day: seq<TimesheetEntry>, i: nat, j: nat)
    requires i < j < |day|
    ensures forall o :: PairOf(day, i, j + 1, o) <==>
                        PairOf(day, i, j, o) || (Conflict(day[i], day[j]) && o == (day[i].id, day[j].id))
  {
    hide Conflict;
  }

  lemma RowDone(day: seq<TimesheetEntry>, i: nat)
    requires i < |day|
    ensures forall o :: PairFrom(day, i + 1, o) <==> PairFrom(day, i, o) || PairOf(day, i, |day|, o)
  {
    hide Conflict;
    forall o | PairFrom(day, i + 1, o) ensures PairFrom(day, i, o) || PairOf(day, i, |day|, o) {
      var k, l :| 0 <= k < i + 1 && k < l < |day| && Conflict(day[k], day[l]) && o == (day[k].id, day[l].id);
    }
    forall o | PairOf(day, i, |day|, o) ensures PairFrom(day, i + 1, o) {
      var l :| i < l < |day| && Conflict(day[i], day[l]) && o == (day[i].id, day[l].id);
    }
  }

  lemma AllPairs(day: seq<TimesheetEntry>)
    ensures forall o :: PairFrom(day, |day|, o) <==> PairIn(day, o)
  {
    hide Conflict;
  }

  lemma ClearIff(day: seq<TimesheetEntry>)
    ensures Clear(day) <==> forall o :: !PairIn(day, o)
  {
    hide Conflict;
    if !Clear(day) {
      var i, j :| 0 <= i < j < |day| && Conflict(day[i], day[j]);
      assert PairIn(day, (day[i].id, day[j].id));
    }
  }

  function DayIn(byDate: map<Date, seq<TimesheetEntry>>, date: Date): seq<TimesheetEntry> {
    if date in byDate then byDate[date] else []
  }

  method GroupByDate(entries: seq<TimesheetEntry>) returns (byDate: map<Date, seq<TimesheetEntry>>)
    ensures forall d :: DayIn(byDate, d) == Day(entries, d)
  {
    byDate := map[];
    for i := 0 to |entries|
      invariant forall d :: DayIn(byDate, d) == Day(entries[..i], d)
    {
      assert entries[..i + 1][..i] == entries[..i];
      var e := entries[i];
      byDate := byDate[e.date := DayIn(byDate, e.date) + [e]];
    }
    assert entries[..|entries|] == entries;
  }

  ghost predicate DayClear(entries: seq<TimesheetEntry>, date: Date) { Clear(TimedOnly(Day(entries, date))) }

  /** No two entries of one date overlap under different charge codes. */
  ghost predicate NoConcurrentWork(entries: seq<TimesheetEntry>) { forall d :: DayClear(entries, d) }

  /** Two entries of one date that overlap under different charge codes, in list order. */
  ghost predicate Concurrent(entries: seq<TimesheetEntry>, date: Date, o: (nat, nat)) {
    exists i, j :: 0 <= i < j < |entries| && entries[i].date == entries[j].date == date &&
                   Conflict(entries[i], entries[j]) && o == (entries[i].id, entries[j].id)
  }

  /** Grouping by date and dropping untimed entries loses no conflict and invents none. */
  lemma {:induction false} PairsOfDay(entries: seq<TimesheetEntry>, date: Date, o: (nat, nat))
    ensures PairIn(TimedOnly(Day(entries, date)), o) <==> Concurrent(entries, date, o)
  {
    hide Conflict, PairIn, PairWith, Concurrent, WithEarlier, Day, TimedOnly;
    if entries == [] {
      NothingToday(date, o);
    } else {
      var init, last := entries[..|entries| - 1], entries[|entries| - 1];
      PairsOfDay(init, date, o);
      assert entries == init + [last];
      ConcurrentAppend(init, last, date, o);
      DayAppend(init, last, date);
      TimedAppend(Day(init, date), last);
      PairInAppend(TimedOnly(Day(init, date)), last, o);
      WithDay(init, last, date, o);
      assert Day(init, date) + [] == Day(init, date);
      assert TimedOnly(Day(init, date)) + [] == TimedOnly(Day(init, date));
    }
  }

  lemma NothingToday(date: Date, o: (nat, nat))
    ensures !PairIn(TimedOnly(Day([], date)), o) && !Concurrent([], date, o)
  {
  }

  lemma DayAppend(entries: seq<TimesheetEntry>, e: TimesheetEntry, date: Date)
    ensures Day(entries + [e], date) == Day(entries, date) + if e.date == date then [e] else []
  {
    assert (entries + [e])[..|entries|] == entries;
  }

  lemma TimedAppend(day: seq<TimesheetEntry>, e: TimesheetEntry)
    ensures TimedOnly(day + [e]) == TimedOnly(day) + if Timed(e) then [e] else []
  {
    assert (day + [e])[..|day|] == day;
  }

  lemma ConcurrentAppend(entries: seq<TimesheetEntry>, e: TimesheetEntry, date: Date, o: (nat, nat))
    ensures Concurrent(entries + [e], date, o) <==>
            Concurrent(entries, date, o) || (e.date == date && WithEarlier(entries, e, date, o))
  {
    hide Conflict;
    var more := entries + [e];
    if Concurrent(entries, date, o) {
      var i, j :| 0 <= i < j < |entries| && entries[i].date == entries[j].date == date &&
                  Conflict(entries[i], entries[j]) && o == (entries[i].id, entries[j].id);
      assert more[i] == entries[i] && more[j] == entries[j];
    }
    if e.date == date && WithEarlier(entries, e, date, o) {
      var i :| 0 <= i < |entries| && entries[i].date == date && Conflict(entries[i], e) && o == (entries[i].id, e.id);
      assert more[i] == entries[i] && more[|entries|] == e;
    }
  }

  ghost predicate WithEarlier(entries: seq<TimesheetEntry>, e: TimesheetEntry, date: Date, o: (nat, nat)) {
    exists i :: 0 <= i < |entries| && entries[i].date == date && Conflict(entries[i], e) && o == (entries[i].id, e.id)
  }

  lemma WithDay(entries: seq<TimesheetEntry>, e: TimesheetEntry, date: Date, o: (nat, nat))
    ensures Timed(e) ==> (PairWith(TimedOnly(Day(entries, date)), e, o) <==> WithEarlier(entries, e, date, o))
    ensures !Timed(e) ==> !WithEarlier(entries, e, date, o)
  {
    hide Overlap, Day, TimedOnly;
    var day := TimedOnly(Day(entries, date));
    if PairWith(day, e, o) {
      var i :| 0 <= i < |day| && Conflict(day[i], e) && o == (day[i].id, e.id);
      assert day[i] in day;
      var k :| 0 <= k < |entries| && entries[k] == day[i];
      assert entries[k].date == date;
    }
    if WithEarlier(entries, e, date, o) {
      var i :| 0 <= i < |entries| && entries[i].date == date && Conflict(entries[i], e) && o == (entries[i].id, e.id);
      assert entries[i] in day;
      var k :| 0 <= k < |day| && day[k] == entries[i];
    }
  }

  /** Reports exactly the pairs of entries of one date that overlap under different charge codes. */
  method DetectConcurrentOverlaps(entries: seq<TimesheetEntry>) returns (valid: bool, overlaps: seq<(nat, nat)>)
    ensures valid <==> overlaps == []
    ensures valid <==> NoConcurrentWork(entries)
    ensures forall o :: o in overlaps <==> exists d :: Concurrent(entries, d, o)
  {
    hide DayClear, Day, TimedOnly, Concurrent, PairIn;
    overlaps := [];
    var byDate := GroupByDate(entries);
    var rest := byDate.Keys;
    while rest != {}
      invariant rest <= byDate.Keys
      invariant overlaps == [] <==> forall d :: d in byDate && d !in rest ==> DayClear(entries, d)
      invariant forall o :: o in overlaps <==> exists d :: d in byDate && d !in rest && Concurrent(entries, d, o)
      decreases |rest|
    {
      var d :| d in rest;
      rest := rest - {d};
      TimedOnlyIsTimed(DayIn(byDate, d));
      var found := DayOverlaps(TimedOnly(DayIn(byDate, d)));
      DayClearIs(entries, d);
      forall o ensures o in found <==> Concurrent(entries, d, o) {
        PairsOfDay(entries, d, o);
      }
      overlaps := overlaps + found;
    }
    forall d, o | Concurrent(entries, d, o) ensures d in byDate {
      PairsOfDay(entries, d, o);
      NoPairsToday(DayIn(byDate, d), o);
    }
    forall d | d !in byDate ensures DayClear(entries, d) {
      assert DayIn(byDate, d) == [];
      DayClearIs(entries, d);
      NothingConflicts();
    }
    valid := overlaps == [];
  }

  lemma NoPairsToday(day: seq<TimesheetEntry>, o: (nat, nat))
    ensures PairIn(TimedOnly(day), o) ==> day != []
  {
  }

  lemma {:induction false} TimedOnlyIsTimed(entries: seq<TimesheetEntry>)
    ensures AllTimed(TimedOnly(entries))
  {
    if entries != [] {
      TimedOnlyIsTimed(entries[..|entries| - 1]);
    }
  }

  lemma DayClearIs(entries: seq<TimesheetEntry>, date: Date)
    ensures DayClear(entries, date) <==> Clear(TimedOnly(Day(entries, date)))
  {
  }

  lemma NothingConflicts()
    ensures Clear(TimedOnly([]))
  {
  }

  function HoursIn(byDate: map<Date, real>, date: Date): real { if date in byDate then byDate[date] else 0.0 }

  method SumByDate(entries: seq<TimesheetEntry>) returns (byDate: map<Date, real>)
    ensures forall d :: HoursIn(byDate, d) == Hours(Day(entries, d))
    ensures forall d :: d in byDate <==> exists e :: e in entries && e.date == d
  {
    hide Hours, Day;
    byDate := map[];
    NoHours();
    for i := 0 to |entries|
      invariant forall d :: HoursIn(byDate, d) == Hours(Day(entries[..i], d))
      invariant forall d :: d in byDate <==> exists j :: 0 <= j < i && entries[j].date == d
    {
      var e := entries[i];
      assert entries[..i + 1] == entries[..i] + [e];
      AddHours(entries[..i], e);
      byDate := byDate[e.date := HoursIn(byDate, e.date) + e.hours];
    }
    assert entries[..|entries|] == entries;
  }

  method ValidateDailyHours(entries: seq<TimesheetEntry>, maxHours: real)
      returns (valid: bool, violations: map<Date, real>)
    ensures forall d :: d in violations <==>
      (exists e :: e in entries && e.date == d) && Hours(Day(entries, d)) > maxHours
    ensures forall d :: d in violations ==> violations[d] == Hours(Day(entries, d))
    ensures valid <==> forall e :: e in entries ==> Hours(Day(entries, e.date)) <= maxHours
  {
    hide Hours, Day;
    var byDate := SumByDate(entries);
    violations := map d | d in byDate && byDate[d] > maxHours :: byDate[d];
    valid := violations == map[];
    assert forall d :: Hours(Day(entries, d)) == HoursIn(byDate, d);
    assert !valid ==> exists d :: d in violations;
    assert valid ==> forall d :: d !in violations;
  }

  lemma NoHours()
    ensures forall d :: Hours(Day([], d)) == 0.0
  {
  }

  lemma AddHours(entries: seq<TimesheetEntry>, e: TimesheetEntry)
    ensures forall d :: Hours(Day(entries + [e], d)) == Hours(Day(entries, d)) + if e.date == d then e.hours else 0.0
  {
    assert (entries + [e])[..|entries + [e]| - 1] == entries;
    forall d ensures Hours(Day(entries + [e], d)) == Hours(Day(entries, d)) + if e.date == d then e.hours else 0.0 {
      var day := Day(entries, d);
      assert day + [] == day;
      assert (day + [e])[..|day + [e]| - 1] == day;
    }
  }

  // ---- Interval packing ----

  function Length(e: TimesheetEntry): int
    requires Timed(e)
  {
    e.end.value - e.start.value
  }

  function LengthSum(day: seq<TimesheetEntry>): int
    requires AllTimed(day)
  {
    if day == [] then 0 else LengthSum(day[..|day| - 1]) + Length(day[|day| - 1])
  }

  ghost predicate Disjoint(day: seq<TimesheetEntry>) {
    && AllTimed(day)
    && (forall i, j :: 0 <= i < j < |day| ==> !Overlap(day[i], day[j]))
  }

  function Without(day: seq<TimesheetEntry>, k: nat): (r: seq<TimesheetEntry>)
    requires k < |day|
    ensures |r| == |day| - 1
  {
    day[..k] + day[k + 1..]
  }

  lemma {:induction false} SumWithout(day: seq<TimesheetEntry>, k: nat)
    requires AllTimed(day) && k < |day|
    ensures LengthSum(day) == LengthSum(Without(day, k)) + Length(day[k])
  {
    var init := day[..|day| - 1];
    if k == |day| - 1 {
      assert Without(day, k) == init;
    } else {
      SumWithout(init, k);
      assert Without(day, k)[..|day| - 2] == Without(init, k);
      assert Without(day, k)[|day| - 2] == day[|day| - 1];
    }
  }

  lemma {:induction false} LatestEnd(day: seq<TimesheetEntry>) returns (k: nat)
    requires day != [] && AllTimed(day)
    ensures k < |day| && forall i :: 0 <= i < |day| ==> day[i].end.value <= day[k].end.value
  {
    k := 0;
    for i := 0 to |day|
      invariant k < |day| && forall j :: 0 <= j < i ==> day[j].end.value <= day[k].end.value
    {
      if day[i].end.value > day[k].end.value {
        k := i;
      }
    }
  }

  /** Disjoint intervals that end by a bound have total length at most the bound: set aside the one
      that ends last, and the others must end before it starts. */
  lemma {:induction false} Packing(day: seq<TimesheetEntry>, bound: nat)
    requires Disjoint(day) && forall i :: 0 <= i < |day| ==> day[i].end.value <= bound
    ensures LengthSum(day) <= bound
    decreases |day|
  {
    if day != [] {
      var k := LatestEnd(day);
      var rest := Without(day, k);
      forall i | 0 <= i < |rest| ensures Timed(rest[i]) && rest[i].end.value <= day[k].start.value {
        var m := if i < k then i else i + 1;
        assert rest[i] == day[m];
        assert !Overlap(day[Min(m, k)], day[Max(m, k)]);
      }
      Packing(rest, day[k].start.value);
      SumWithout(day, k);
    }
  }

  /** Every entry is timed and claims exactly the hours between its times. */
  ghost predicate HonestHours(entries: seq<TimesheetEntry>) {
    forall i :: 0 <= i < |entries| ==>
      Timed(entries[i]) && entries[i].hours * HOUR as real == Length(entries[i]) as real
  }

  lemma {:induction false} HoursAreLengths(day: seq<TimesheetEntry>)
    requires HonestHours(day)
    ensures Hours(day) * HOUR as real == LengthSum(day) as real
  {
    if day != [] {
      HoursAreLengths(day[..|day| - 1]);
    }
  }

  lemma {:induction false} TimedDay(day: seq<TimesheetEntry>)
    requires AllTimed(day)
    ensures TimedOnly(day) == day
  {
    if day != [] {
      TimedDay(day[..|day| - 1]);
    }
  }

  lemma {:induction false} HonestDay(entries: seq<TimesheetEntry>, date: Date)
    requires HonestHours(entries)
    ensures HonestHours(Day(entries, date))
  {
    if entries != [] {
      HonestDay(entries[..|entries| - 1], date);
    }
  }

  /** Interval packing: if the overlap check accepts honestly timed entries and yet some date exceeds
      24 hours, then two entries of that date overlap under one and the same charge code. */
  lemma ExcessMeansSameCodeOverlap(entries: seq<TimesheetEntry>, date: Date)
    requires HonestHours(entries) && NoConcurrentWork(entries)
    requires Hours(Day(entries, date)) > 24.0
    ensures var day := Day(entries, date);
            exists i, j :: 0 <= i < j < |day| && Timed(day[i]) && Timed(day[j]) &&
                           day[i].code == day[j].code && Overlap(day[i], day[j])
  {
    hide Day, Hours, TimedOnly, Overlap;
    var day := Day(entries, date);
    HonestDay(entries, date);
    TimedDay(day);
    assert DayClear(entries, date);
    if forall i, j :: 0 <= i < j < |day| ==> !Overlap(day[i], day[j]) {
      DisjointDayFits(day);
    }
  }

  lemma DisjointDayFits(day: seq<TimesheetEntry>)
    requires HonestHours(day) && Disjoint(day)
    ensures Hours(day) <= 24.0
  {
    hide Overlap, Hours, LengthSum;
    Packing(day, DAY);
    HoursAreLengths(day);
  }

  /** With distinct charge codes per date the overlap check therefore implies the 24-hour check. */
  lemma OverlapCheckImpliesDailyCheck(entries: seq<TimesheetEntry>)
    requires HonestHours(entries) && NoConcurrentWork(entries)
    requires forall d, i, j :: 0 <= i < j < |Day(entries, d)| ==> Day(entries, d)[i].code != Day(entries, d)[j].code
    ensures forall d :: Hours(Day(entries, d)) <= 24.0
  {
    forall d ensures Hours(Day(entries, d)) <= 24.0 {
      if Hours(Day(entries, d)) > 24.0 {
        ExcessMeansSameCodeOverlap(entries, d);
      }
    }
  }

  /** Without that the implication fails: the same shift entered twice on one code is accepted. */
  lemma SameCodeEscapesOverlapCheck()
    ensures var e: TimesheetEntry := Entry(1, Date(0), "A", 20.0, Some(0), Some(20 * HOUR));
            HonestHours([e, e]) && NoConcurrentWork([e, e]) && Hours(Day([e, e], Date(0))) > 24.0
  {
    hide Day, Hours, NoConcurrentWork;
    var e: TimesheetEntry := Entry(1, Date(0), "A", 20.0, Some(0), Some(20 * HOUR));
    OneCodeNeverConflicts([e, e], "A");
    DayOfTwo(e);
  }

  lemma DayOfTwo(e: TimesheetEntry)
    ensures Hours(Day([e, e], e.date)) == e.hours + e.hours
  {
    assert [] + [e] == [e] && [e] + [e] == [e, e];
    AddHours([], e);
    AddHours([e], e);
    NoHours();
  }

  lemma OneCodeNeverConflicts(entries: seq<TimesheetEntry>, code: string)
    requires forall e :: e in entries ==> e.code == code
    ensures NoConcurrentWork(entries)
  {
    forall d ensures DayClear(entries, d) {
      var day := TimedOnly(Day(entries, d));
      assert forall i :: 0 <= i < |day| ==> day[i] in day;
    }
  }
}
