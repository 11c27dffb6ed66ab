/** finance_engines/ice.py: the schedules of an incurred cost electronically submission and the
    checks that tie them to one another. Hours are exact, amounts are whole minor units. */
module Ice {
  import opened Common
  import opened Rounding
  import opened StableSort
  import Lexicographic
  import Cascade
  import Billing

  // ---- Inputs ----

  datatype ContractRecord = Contract(
    number: string, kind: string, labor: int,
    material: Option<int>, subcontract: Option<int>, travel: Option<int>, odc: Option<int>)

  predicate NonNegativeCosts(c: ContractRecord) {
    c.labor >= 0 && OrZero(c.material) >= 0 && OrZero(c.subcontract) >= 0 && OrZero(c.travel) >= 0 && OrZero(c.odc) >= 0
  }

  type ContractCost = c: ContractRecord | NonNegativeCosts(c) witness Contract("", "", 0, None, None, None, None)

  function TotalDirect(c: ContractCost): int {
    c.labor + OrZero(c.material) + OrZero(c.subcontract) + OrZero(c.travel) + OrZero(c.odc)
  }

  datatype PoolRecord = Pool(name: string, claimedRate: real)

  type IndirectPool = p: PoolRecord | p.claimedRate >= 0.0 witness Pool("", 0.0)

  datatype LaborRecord = Labor(contract: string, category: string, employee: string, hours: real, amount: int)

  type LaborDetail = d: LaborRecord | d.hours >= 0.0 witness Labor("", "", "", 0.0, 0)

  datatype Element = Material | Subcontract | Travel | OtherDirect

  datatype Allowability = Allowable | Unallowable | Conditional

  datatype OtherCost = OtherCost(
    contract: string, element: Element, description: string, vendor: string, amount: int, allowability: Allowability)

  /** The cumulative amounts are zero when the caller leaves them out. */
  datatype Ceiling = Ceiling(
    contract: string, kind: string, funded: int, ceiling: Option<int>, incurred: int, billed: int, fee: int)

  datatype IceInput = IceInput(
    contracts: seq<ContractCost>, labor: seq<LaborDetail>, other: seq<OtherCost>,
    pools: seq<IndirectPool>, ceilings: seq<Ceiling>, unallowableDirect: Option<int>, unallowableIndirect: Option<int>)

  // ---- Sums along the inputs ----

  function Total<T>(s: seq<T>, f: T -> int): int {
    if s == [] then 0 else Total(s[..|s| - 1], f) + f(s[|s| - 1])
  }

  function LaborCost(c: ContractCost): int { c.labor }

  function MaterialCost(c: ContractCost): int { OrZero(c.material) }

  function SubcontractCost(c: ContractCost): int { OrZero(c.subcontract) }

  function TravelCost(c: ContractCost): int { OrZero(c.travel) }

  function OdcCost(c: ContractCost): int { OrZero(c.odc) }

  function NonLabor(c: ContractCost): int { TotalDirect(c) - c.labor }

  function Spent(c: OtherCost): int { c.amount }

  // ---- Schedule A ----

  datatype ALine = ALine(
    contract: string, kind: string, labor: int, material: int, subcontract: int, travel: int, odc: int, total: int)

  datatype ScheduleA = ScheduleA(
    lines: seq<ALine>, labor: int, material: int, subcontract: int, travel: int, odc: int, total: int)

  predicate Shows(l: ALine, c: ContractCost) {
    && l.contract == c.number && l.kind == c.kind && l.labor == c.labor && l.material == MaterialCost(c)
    && l.subcontract == SubcontractCost(c) && l.travel == TravelCost(c) && l.odc == OdcCost(c) &&
       l.total == TotalDirect(c)
  }

  method CompileScheduleA(contracts: seq<ContractCost>) returns (a: ScheduleA)
    ensures |a.lines| == |contracts|
    ensures forall i :: 0 <= i < |contracts| ==> Shows(a.lines[i], contracts[i])
    ensures a.labor == Total(contracts, LaborCost) && a.material == Total(contracts, MaterialCost)
    ensures a.subcontract == Total(contracts, SubcontractCost) && a.travel == Total(contracts, TravelCost)
    ensures a.odc == Total(contracts, OdcCost)
    ensures a.material + a.subcontract + a.travel + a.odc == Total(contracts, NonLabor)
    // Footing and cross-footing agree: the column totals add up to the sum of the line totals.
    ensures a.total == Total(contracts, TotalDirect)
  {
    var lines: seq<ALine> := [];
    var labor, material, sub, travel, odc := 0, 0, 0, 0, 0;
    for i := 0 to |contracts|
      invariant |lines| == i
      invariant forall j :: 0 <= j < i ==> Shows(lines[j], contracts[j])
      invariant labor == Total(contracts[..i], LaborCost) && material == Total(contracts[..i], MaterialCost)
      invariant sub == Total(contracts[..i], SubcontractCost) && travel == Total(contracts[..i], TravelCost)
      invariant odc == Total(contracts[..i], OdcCost)
      invariant material + sub + travel + odc == Total(contracts[..i], NonLabor)
      invariant labor + material + sub + travel + odc == Total(contracts[..i], TotalDirect)
    {
      assert contracts[..i + 1][..i] == contracts[..i];
      var c := contracts[i];
      var m, s, t, o := OrZero(c.material), OrZero(c.subcontract), OrZero(c.travel), OrZero(c.odc);
      lines := lines + [ALine(c.number, c.kind, c.labor, m, s, t, o, c.labor + m + s + t + o)];
      labor, material, sub, travel, odc := labor + c.labor, material + m, sub + s, travel + t, odc + o;
    }
    assert contracts[..|contracts|] == contracts;
    a := ScheduleA(lines, labor, material, sub, travel, odc, labor + material + sub + travel + odc);
  }

  // ---- Schedule B: labour grouped by contract and category ----

  datatype Key = Key(contract: string, category: string)

  function KeyOf(d: LaborDetail): Key { Key(d.contract, d.category) }

  predicate KeyLeq(a: Key, b: Key) {
    if a.contract == b.contract then Lexicographic.Leq(a.category, b.category)
    else Lexicographic.Leq(a.contract, b.contract)
  }

  lemma KeyOrder()
    ensures TotalPreorder(KeyLeq)
  {
    forall a, b ensures KeyLeq(a, b) || KeyLeq(b, a) {
      Lexicographic.Total(a.contract, b.contract);
      Lexicographic.Total(a.category, b.category);
    }
    forall a, b, c | KeyLeq(a, b) && KeyLeq(b, c) ensures KeyLeq(a, c) {
      KeyTransitive(a, b, c);
    }
  }

  lemma KeyTransitive(a: Key, b: Key, c: Key)
    requires KeyLeq(a, b) && KeyLeq(b, c)
    ensures KeyLeq(a, c)
  {
    if a.contract == b.contract == c.contract {
      Lexicographic.Transitive(a.category, b.category, c.category);
    } else if a.contract == c.contract {
      Lexicographic.Antisymmetric(a.contract, b.contract);
    } else if a.contract != b.contract && b.contract != c.contract {
      Lexicographic.Transitive(a.contract, b.contract, c.contract);
    }
  }

  datatype Work = Work(hours: real, amount: int)

  function Plus(a: Work, b: Work): Work { Work(a.hours + b.hours, a.amount + b.amount) }

  const NO_WORK := Work(0.0, 0)

  function WorkOf(d: LaborDetail): Work { Work(d.hours, d.amount) }

  /** All the work in the details, ungrouped. */
  function AllWork(details: seq<LaborDetail>): Work {
    if details == [] then NO_WORK
    else Plus(AllWork(details[..|details| - 1]), WorkOf(details[|details| - 1]))
  }

  /** Hours and amounts are added up as they are. */
  lemma OneMoreDetail(details: seq<LaborDetail>, d: LaborDetail, key: Key)
    ensures AllWork([]) == WorkAt([], key) == Work(0.0, 0)
    ensures var before, after := AllWork(details), AllWork(details + [d]);
            after.hours == before.hours + d.hours && after.amount == before.amount + d.amount
    ensures var before, after := WorkAt(details, key), WorkAt(details + [d], key);
            if d.contract == key.contract && d.category == key.category
            then after.hours == before.hours + d.hours && after.amount == before.amount + d.amount
            else after == before
  {
    assert (details + [d])[..|details|] == details;
  }

  /** The work charged to one contract and category. */
  function WorkAt(details: seq<LaborDetail>, key: Key): Work {
    if details == [] then NO_WORK
    else
      var last := details[|details| - 1];
      Plus(WorkAt(details[..|details| - 1], key), if KeyOf(last) == key then WorkOf(last) else NO_WORK)
  }

  function Staff(details: seq<LaborDetail>, key: Key): set<string> {
    set d | d in details && KeyOf(d) == key :: d.employee
  }

  function GroupedWork(details: seq<LaborDetail>, keys: seq<Key>): Work {
    if keys == [] then NO_WORK
    else Plus(GroupedWork(details, keys[..|keys| - 1]), WorkAt(details, keys[|keys| - 1]))
  }

  ghost predicate Covers(keys: seq<Key>, details: seq<LaborDetail>) {
    forall d :: d in details ==> KeyOf(d) in keys
  }

  ghost predicate Distinct(keys: seq<Key>) { forall i, j :: 0 <= i < j < |keys| ==> keys[i] != keys[j] }

  lemma {:induction false} GroupingNothing(keys: seq<Key>)
    ensures GroupedWork([], keys) == NO_WORK
  {
    if keys != [] {
      GroupingNothing(keys[..|keys| - 1]);
    }
  }

  /** One more detail is counted once if its key is among the keys and not at all otherwise. */
  lemma {:induction false} GroupingOneMore(details: seq<LaborDetail>, keys: seq<Key>)
    requires details != [] && Distinct(keys)
    ensures var rest, last := details[..|details| - 1], details[|details| - 1];
            GroupedWork(details, keys) ==
            Plus(GroupedWork(rest, keys), if KeyOf(last) in keys then WorkOf(last) else NO_WORK)
  {
    hide WorkAt, WorkOf, KeyOf, Plus, GroupedWork;
    var rest, last := details[..|details| - 1], details[|details| - 1];
    PlusNothing(GroupedWork(rest, keys));
    GroupedByLastKey(rest, keys);
    GroupedByLastKey(details, keys);
    if keys != [] {
      var front, key := keys[..|keys| - 1], keys[|keys| - 1];
      GroupingOneMore(details, front);
      WorkAtOneMore(details, key);
      assert keys == front + [key] && key !in front;
      var here := if KeyOf(last) == key then WorkOf(last) else NO_WORK;
      var before := if KeyOf(last) in front then WorkOf(last) else NO_WORK;
      PlusExchanges(GroupedWork(rest, front), before, WorkAt(rest, key), here);
      PlusNothing(here);
      PlusNothing(before);
    }
  }

  lemma GroupedByLastKey(details: seq<LaborDetail>, keys: seq<Key>)
    ensures GroupedWork(details, keys) ==
            if keys == [] then NO_WORK
            else Plus(GroupedWork(details, keys[..|keys| - 1]), WorkAt(details, keys[|keys| - 1]))
  {
  }

  lemma PlusNothing(a: Work)
    ensures Plus(a, NO_WORK) == Plus(NO_WORK, a) == a
  {
  }

  lemma PlusExchanges(a: Work, b: Work, c: Work, d: Work)
    ensures Plus(Plus(a, b), Plus(c, d)) == Plus(Plus(a, c), Plus(b, d))
  {
  }

  lemma WorkAtOneMore(details: seq<LaborDetail>, key: Key)
    requires details != []
    ensures var rest, last := details[..|details| - 1], details[|details| - 1];
            WorkAt(details, key) == Plus(WorkAt(rest, key), if KeyOf(last) == key then WorkOf(last) else NO_WORK)
  {
  }

  /** Grouping conserves: whatever the order of the groups, their work adds up to all the work. */
  lemma {:induction false} GroupingConserves(details: seq<LaborDetail>, keys: seq<Key>)
    requires Distinct(keys) && Covers(keys, details)
    ensures GroupedWork(details, keys) == AllWork(details)
  {
    if details == [] {
      GroupingNothing(keys);
    } else {
      GroupingConserves(details[..|details| - 1], keys);
      GroupingOneMore(details, keys);
    }
  }

  datatype BLine = BLine(key: Key, work: Work, averageRate: int, staff: nat)

  datatype ScheduleB = ScheduleB(lines: seq<BLine>, total: Work)

  datatype Group = Group(work: Work, staff: set<string>)

  const NO_GROUP := Group(NO_WORK, {})

  function GroupAt(groups: map<Key, Group>, key: Key): Group { if key in groups then groups[key] else NO_GROUP }

  ghost predicate Charged(details: seq<LaborDetail>, key: Key) { exists d :: d in details && KeyOf(d) == key }

  function Summary(details: seq<LaborDetail>, key: Key): Group { Group(WorkAt(details, key), Staff(details, key)) }

  function AddTo(g: Group, d: LaborDetail, key: Key): Group {
    if KeyOf(d) == key then Group(Plus(g.work, WorkOf(d)), g.staff + {d.employee}) else g
  }

  method GroupLabor(details: seq<LaborDetail>) returns (groups: map<Key, Group>)
    ensures forall k :: k in groups <==> Charged(details, k)
    ensures forall k :: GroupAt(groups, k) == Summary(details, k)
  {
    hide WorkAt, WorkOf, KeyOf, Staff, Plus;
    groups := map[];
    NothingCharged();
    for i := 0 to |details|
      invariant forall k :: k in groups <==> Charged(details[..i], k)
      invariant forall k :: GroupAt(groups, k) == Summary(details[..i], k)
    {
      var d := details[i];
      ChargingOneMore(details[..i], d);
      assert details[..i + 1] == details[..i] + [d];
      var g := GroupAt(groups, KeyOf(d));
      groups := groups[KeyOf(d) := Group(Plus(g.work, WorkOf(d)), g.staff + {d.employee})];
    }
    assert details[..|details|] == details;
  }

  lemma NothingCharged()
    ensures forall k :: Summary([], k) == NO_GROUP && !Charged([], k)
  {
  }

  lemma ChargingOneMore(details: seq<LaborDetail>, d: LaborDetail)
    ensures forall k :: Charged(details + [d], k) <==> Charged(details, k) || KeyOf(d) == k
    ensures forall k :: Summary(details + [d], k) == AddTo(Summary(details, k), d, k)
  {
    forall k ensures Charged(details + [d], k) <==> Charged(details, k) || KeyOf(d) == k {
    }
    forall k ensures Summary(details + [d], k) == AddTo(Summary(details, k), d, k) {
      assert (details + [d])[..|details|] == details;
      StaffGrows(details, d, k);
    }
  }

  lemma StaffGrows(details: seq<LaborDetail>, d: LaborDetail, k: Key)
    ensures Staff(details + [d], k) == Staff(details, k) + if KeyOf(d) == k then {d.employee} else {}
  {
    assert forall e :: e in details + [d] <==> e in details || e == d;
  }

  /** Python's sorted() of a set. */
  method SortedElements<T(!new, ==)>(s: set<T>, leq: (T, T) -> bool) returns (r: seq<T>)
    requires TotalPreorder(leq)
    ensures Sorted(r, leq)
    ensures forall x :: x in r <==> x in s
    ensures forall i, j :: 0 <= i < j < |r| ==> r[i] != r[j]
  {
    var rest, some := s, [];
    while rest != {}
      invariant rest <= s
      invariant forall x :: x in some <==> x in s && x !in rest
      invariant forall x :: multiset(some)[x] <= 1
      decreases |rest|
    {
      var x :| x in rest;
      rest, some := rest - {x}, some + [x];
    }
    SortSorts(some, leq);
    SortKeeps(some, leq);
    r := Sort(some, leq);
    forall i, j | 0 <= i < j < |r| ensures r[i] != r[j] {
      if r[i] == r[j] {
        TwiceInCountsTwo(r, i, j);
      }
    }
  }

  function AverageRate(w: Work): int {
    if w.hours > 0.0 then RoundHalfUp(w.amount as real / w.hours) else 0
  }

  ghost predicate Listed(lines: seq<BLine>, key: Key) { exists l :: l in lines && l.key == key }

  /** A line carries the work of its key, the number of different people who did it, and the average rate
      in minor units per hour, rounded, or zero where there are no hours. */
  ghost predicate Figures(details: seq<LaborDetail>, l: BLine) {
    && l.work == WorkAt(details, l.key)
    && l.staff == |set d | d in details && d.contract == l.key.contract && d.category == l.key.category :: d.employee|
    && l.averageRate == (if l.work.hours > 0.0 then RoundHalfUp(l.work.amount as real / l.work.hours) else 0)
  }

  lemma FiguresOf(details: seq<LaborDetail>, key: Key)
    ensures Figures(details, LineFor(details, key))
  {
    hide WorkAt, RoundHalfUp;
    assert Staff(details, key) ==
           set d | d in details && d.contract == key.contract && d.category == key.category :: d.employee;
  }

  function LineFor(details: seq<LaborDetail>, key: Key): BLine {
    var g := Summary(details, key);
    BLine(key, g.work, AverageRate(g.work), |g.staff|)
  }

  /** The loop over the groups, in the order of their keys. */
  method SummarizeGroups(details: seq<LaborDetail>, groups: map<Key, Group>, keys: seq<Key>)
      returns (lines: seq<BLine>, total: Work)
    requires forall k :: k in keys ==> k in groups
    requires forall k :: GroupAt(groups, k) == Summary(details, k)
    ensures |lines| == |keys| && total == GroupedWork(details, keys)
    ensures forall j :: 0 <= j < |keys| ==> lines[j] == LineFor(details, keys[j]) && lines[j].key == keys[j]
  {
    hide AverageRate, Plus, Staff, LineFor, WorkAt;
    lines, total := [], NO_WORK;
    for i := 0 to |keys|
      invariant |lines| == i && total == GroupedWork(details, keys[..i])
      invariant forall j :: 0 <= j < i ==> lines[j] == LineFor(details, keys[j]) && lines[j].key == keys[j]
    {
      assert keys[..i + 1][..i] == keys[..i];
      var g := groups[keys[i]];
      assert g == GroupAt(groups, keys[i]);
      LineForIs(details, keys[i]);
      lines := lines + [BLine(keys[i], g.work, AverageRate(g.work), |g.staff|)];
      total := Plus(total, g.work);
    }
    assert keys[..|keys|] == keys;
  }

  method CompileScheduleB(details: seq<LaborDetail>) returns (b: ScheduleB)
    // One line per contract and category that was charged, in order, with that group's own figures.
    ensures forall i, j :: 0 <= i < j < |b.lines| ==>
      b.lines[i].key != b.lines[j].key && KeyLeq(b.lines[i].key, b.lines[j].key)
    ensures forall k :: Listed(b.lines, k) <==> Charged(details, k)
    ensures forall i :: 0 <= i < |b.lines| ==> b.lines[i] == LineFor(details, b.lines[i].key)
    ensures forall i :: 0 <= i < |b.lines| ==> Figures(details, b.lines[i])
    // Grouping loses nothing.
    ensures b.total == AllWork(details)
  {
    hide KeyLeq, AllWork, GroupedWork, Charged, LineFor, Listed, GroupAt, Summary, Figures;
    var groups := GroupLabor(details);
    KeyOrder();
    var keys := SortedElements(groups.Keys, KeyLeq);
    var lines, total := SummarizeGroups(details, groups, keys);
    ChargedKeysCover(details, keys);
    GroupingConserves(details, keys);
    ListedAreKeys(lines, keys);
    forall i | 0 <= i < |lines| ensures Figures(details, lines[i]) {
      FiguresOf(details, lines[i].key);
    }
    b := ScheduleB(lines, total);
  }

  lemma LineForIs(details: seq<LaborDetail>, key: Key)
    ensures var work := WorkAt(details, key);
            LineFor(details, key) == BLine(key, work, AverageRate(work), |Staff(details, key)|)
  {
  }

  lemma ChargedKeysCover(details: seq<LaborDetail>, keys: seq<Key>)
    requires forall k :: k in keys <==> Charged(details, k)
    ensures Covers(keys, details)
  {
  }

  lemma ListedAreKeys(lines: seq<BLine>, keys: seq<Key>)
    requires |lines| == |keys| && forall j :: 0 <= j < |keys| ==> lines[j].key == keys[j]
    ensures forall k :: Listed(lines, k) <==> k in keys
  {
    forall k | k in keys ensures Listed(lines, k) {
      var i :| 0 <= i < |keys| && keys[i] == k;
      assert lines[i] in lines;
    }
  }

  // ---- Schedule C ----

  datatype ScheduleC = ScheduleC(
    lines: seq<OtherCost>, material: int, subcontract: int, travel: int, odc: int, total: int)

  function SpentOn(other: seq<OtherCost>, element: Element): int {
    if other == [] then 0
    else
      var last := other[|other| - 1];
      SpentOn(other[..|other| - 1], element) + if last.element == element then last.amount else 0
  }

  /** One line per cost as it was given, and the totals by element. */
  method CompileScheduleC(other: seq<OtherCost>) returns (c: ScheduleC)
    ensures c.lines == other
    ensures c.total == Total(other, Spent)
    ensures c.material == SpentOn(other, Material) && c.subcontract == SpentOn(other, Subcontract)
    ensures c.travel == SpentOn(other, Travel) && c.odc == SpentOn(other, OtherDirect)
  {
    var lines: seq<OtherCost> := [];
    var material, sub, travel, odc := 0, 0, 0, 0;
    for i := 0 to |other|
      invariant lines == other[..i]
      invariant material + sub + travel + odc == Total(other[..i], Spent)
      invariant material == SpentOn(other[..i], Material) && sub == SpentOn(other[..i], Subcontract)
      invariant travel == SpentOn(other[..i], Travel) && odc == SpentOn(other[..i], OtherDirect)
    {
      assert other[..i + 1][..i] == other[..i];
      lines := lines + [other[i]];
      match other[i].element {
        case Material => material := material + other[i].amount;
        case Subcontract => sub := sub + other[i].amount;
        case Travel => travel := travel + other[i].amount;
        case OtherDirect => odc := odc + other[i].amount;
      }
    }
    assert other[..|other|] == other;
    c := ScheduleC(lines, material, sub, travel, odc, material + sub + travel + odc);
  }

  // ---- Schedules H and I: indirect rates applied to contracts ----

  function UpperChar(c: char): char { if 'a' <= c <= 'z' then c - 'a' + 'A' else c }

  function Upper(s: string): string { seq(|s|, i requires 0 <= i < |s| => UpperChar(s[i])) }

  function PoolBase(c: ContractCost, pool: string): int {
    var name := Upper(pool);
    if name in {"FRINGE", "OVERHEAD"} then c.labor
    else if name in {"MATERIAL_HANDLING", "MAT_HANDLING"} then OrZero(c.material)
    else TotalDirect(c)
  }

  /** Pools by name, whatever the case: fringe and overhead go on labor, material handling on material, and
      everything else, G&A by any of its names included, on all direct cost. */
  lemma PoolBases(c: ContractCost)
    ensures PoolBase(c, "FRINGE") == PoolBase(c, "fringe") == PoolBase(c, "Overhead") == c.labor
    ensures PoolBase(c, "MATERIAL_HANDLING") == PoolBase(c, "mat_handling") == OrZero(c.material)
    ensures PoolBase(c, "G&A") == PoolBase(c, "ga") == PoolBase(c, "G_AND_A") == PoolBase(c, "SITE") == TotalDirect(c)
  {
    hide PoolBase, TotalDirect;
    assert Upper("FRINGE") == Upper("fringe") == "FRINGE" && Upper("Overhead") == "OVERHEAD";
    assert Upper("MATERIAL_HANDLING") == "MATERIAL_HANDLING" && Upper("mat_handling") == "MAT_HANDLING";
    assert Upper("G&A") == "G&A" && Upper("ga") == "GA" && Upper("G_AND_A") == "G_AND_A" && Upper("SITE") == "SITE";
    PoolBaseOf(c, "FRINGE");
    PoolBaseOf(c, "fringe");
    PoolBaseOf(c, "Overhead");
    PoolBaseOf(c, "MATERIAL_HANDLING");
    PoolBaseOf(c, "mat_handling");
    PoolBaseOf(c, "G&A");
    PoolBaseOf(c, "ga");
    PoolBaseOf(c, "G_AND_A");
    PoolBaseOf(c, "SITE");
  }

  lemma PoolBaseOf(c: ContractCost, pool: string)
    ensures Upper(pool) in {"FRINGE", "OVERHEAD"} ==> PoolBase(c, pool) == c.labor
    ensures Upper(pool) in {"MATERIAL_HANDLING", "MAT_HANDLING"} ==> PoolBase(c, pool) == OrZero(c.material)
    ensures |Upper(pool)| in {2, 3, 4, 7} ==> PoolBase(c, pool) == TotalDirect(c)
  {
    hide Upper, TotalDirect;
    assert |"FRINGE"| == 6 && |"OVERHEAD"| == 8 && |"MATERIAL_HANDLING"| == 17 && |"MAT_HANDLING"| == 12;
  }

  function Applied(c: ContractCost, pool: IndirectPool): int {
    RoundHalfUp(PoolBase(c, pool.name) as real * pool.claimedRate)
  }

  function Indirect(c: ContractCost, pools: seq<IndirectPool>): int {
    if pools == [] then 0 else Indirect(c, pools[..|pools| - 1]) + Applied(c, pools[|pools| - 1])
  }

  function IndirectOfAll(contracts: seq<ContractCost>, pools: seq<IndirectPool>): int {
    if contracts == [] then 0
    else IndirectOfAll(contracts[..|contracts| - 1], pools) + Indirect(contracts[|contracts| - 1], pools)
  }

  datatype HLine = HLine(contract: string, pool: string, base: int, rate: real, applied: int)

  datatype ScheduleH = ScheduleH(lines: seq<HLine>, total: int)

  /** What Schedule H charges to a contract number, over all its lines. */
  function ChargedTo(lines: seq<HLine>, number: string): int {
    if lines == [] then 0
    else
      var last := lines[|lines| - 1];
      ChargedTo(lines[..|lines| - 1], number) + if last.contract == number then last.applied else 0
  }

  /** The indirect cost of the contracts that carry a number. */
  function IndirectOfNumber(contracts: seq<ContractCost>, pools: seq<IndirectPool>, number: string): int {
    if contracts == [] then 0
    else
      var last := contracts[|contracts| - 1];
      IndirectOfNumber(contracts[..|contracts| - 1], pools, number) +
      if last.number == number then Indirect(last, pools) else 0
  }

  function HLineFor(c: ContractCost, p: IndirectPool): HLine {
    HLine(c.number, p.name, PoolBase(c, p.name), p.claimedRate, Applied(c, p))
  }

  function HRow(c: ContractCost, pools: seq<IndirectPool>): seq<HLine> {
    if pools == [] then [] else HRow(c, pools[..|pools| - 1]) + [HLineFor(c, pools[|pools| - 1])]
  }

  function HRows(contracts: seq<ContractCost>, pools: seq<IndirectPool>): seq<HLine> {
    if contracts == [] then []
    else HRows(contracts[..|contracts| - 1], pools) + HRow(contracts[|contracts| - 1], pools)
  }

  /** Each line charges its pool's claimed rate on the contract's base for it, rounded. */
  lemma HLineIs(c: ContractCost, p: IndirectPool)
    ensures var line := HLineFor(c, p);
            && line.contract == c.number && line.pool == p.name && line.base == PoolBase(c, p.name)
            && line.rate == p.claimedRate && line.applied == RoundHalfUp(line.base as real * p.claimedRate)
  {
    hide PoolBase, RoundHalfUp;
  }

  method CompileScheduleH(contracts: seq<ContractCost>, pools: seq<IndirectPool>) returns (h: ScheduleH)
    ensures h.lines == HRows(contracts, pools)
    ensures h.total == IndirectOfAll(contracts, pools)
    ensures forall n :: ChargedTo(h.lines, n) == IndirectOfNumber(contracts, pools, n)
  {
    hide Applied, PoolBase;
    var lines: seq<HLine> := [];
    var total := 0;
    for i := 0 to |contracts|
      invariant lines == HRows(contracts[..i], pools)
      invariant total == IndirectOfAll(contracts[..i], pools)
      invariant forall n :: ChargedTo(lines, n) == IndirectOfNumber(contracts[..i], pools, n)
    {
      assert contracts[..i + 1][..i] == contracts[..i];
      var c := contracts[i];
      for j := 0 to |pools|
        invariant lines == HRows(contracts[..i], pools) + HRow(c, pools[..j])
        invariant total == IndirectOfAll(contracts[..i], pools) + Indirect(c, pools[..j])
        invariant forall n ::
          ChargedTo(lines, n) ==
          IndirectOfNumber(contracts[..i], pools, n) + if c.number == n then Indirect(c, pools[..j]) else 0
      {
        assert pools[..j + 1][..j] == pools[..j];
        var p := pools[j];
        ghost var before := lines;
        lines := lines + [HLine(c.number, p.name, PoolBase(c, p.name), p.claimedRate, Applied(c, p))];
        assert lines[..|lines| - 1] == before;
        total := total + Applied(c, p);
      }
      assert pools[..|pools|] == pools;
    }
    assert contracts[..|contracts|] == contracts;
    h := ScheduleH(lines, total);
  }

  datatype ILine = ILine(contract: string, kind: string, direct: int, indirect: int, cost: int, fee: int, claimed: int)

  datatype ScheduleI = ScheduleI(lines: seq<ILine>, direct: int, indirect: int, cost: int, fee: int, claimed: int)

  function IndirectClaimedOn(lines: seq<ILine>, number: string): int {
    if lines == [] then 0
    else
      var last := lines[|lines| - 1];
      IndirectClaimedOn(lines[..|lines| - 1], number) + if last.contract == number then last.indirect else 0
  }

  predicate Claims(l: ILine, c: ContractCost, pools: seq<IndirectPool>) {
    && l.contract == c.number && l.kind == c.kind && l.fee == 0
    && l.direct == TotalDirect(c) && l.indirect == Indirect(c, pools)
    && l.claimed == l.cost == l.direct + l.indirect
  }

  /** The inner loop of Schedule I, over the pools of one contract. */
  method ChargePools(c: ContractCost, pools: seq<IndirectPool>) returns (charged: int)
    ensures charged == Indirect(c, pools)
  {
    hide Applied;
    charged := 0;
    for j := 0 to |pools|
      invariant charged == Indirect(c, pools[..j])
    {
      assert pools[..j + 1][..j] == pools[..j];
      charged := charged + Applied(c, pools[j]);
    }
    assert pools[..|pools|] == pools;
  }

  method CompileScheduleI(contracts: seq<ContractCost>, pools: seq<IndirectPool>) returns (s: ScheduleI)
    ensures |s.lines| == |contracts|
    ensures forall i :: 0 <= i < |contracts| ==> Claims(s.lines[i], contracts[i], pools)
    ensures s.direct == Total(contracts, TotalDirect) && s.indirect == IndirectOfAll(contracts, pools)
    ensures s.claimed == s.cost == s.direct + s.indirect && s.fee == 0
    ensures forall n :: IndirectClaimedOn(s.lines, n) == IndirectOfNumber(contracts, pools, n)
  {
    hide Indirect, TotalDirect;
    var lines: seq<ILine> := [];
    var direct, indirect, cost, fee, claimed := 0, 0, 0, 0, 0;
    for i := 0 to |contracts|
      invariant |lines| == i
      invariant forall j :: 0 <= j < i ==> Claims(lines[j], contracts[j], pools)
      invariant direct == Total(contracts[..i], TotalDirect) && indirect == IndirectOfAll(contracts[..i], pools)
      invariant claimed == cost == direct + indirect && fee == 0
      invariant forall n :: IndirectClaimedOn(lines, n) == IndirectOfNumber(contracts[..i], pools, n)
    {
      assert contracts[..i + 1][..i] == contracts[..i];
      var c := contracts[i];
      var mine := ChargePools(c, pools);
      var line := ILine(c.number, c.kind, TotalDirect(c), mine, TotalDirect(c) + mine, 0, TotalDirect(c) + mine);
      ghost var before := lines;
      lines := lines + [line];
      assert lines[..|lines| - 1] == before;
      direct, indirect, cost := direct + line.direct, indirect + mine, cost + line.cost;
      fee, claimed := fee + line.fee, claimed + line.claimed;
    }
    assert contracts[..|contracts|] == contracts;
    s := ScheduleI(lines, direct, indirect, cost, fee, claimed);
  }

  function BaseOfAll(contracts: seq<ContractCost>, pool: string): int {
    if contracts == [] then 0
    else BaseOfAll(contracts[..|contracts| - 1], pool) + PoolBase(contracts[|contracts| - 1], pool)
  }

  function Unrounded(base: int, rate: real): real { base as real * rate }

  /** Absorption: rounding contract by contract moves a pool's charge by at most half a minor unit
      per contract, so a pool claimed at its own rate is recovered to within that. */
  lemma {:induction false} AbsorptionBound(contracts: seq<ContractCost>, pool: IndirectPool)
    ensures var exact := Unrounded(BaseOfAll(contracts, pool.name), pool.claimedRate);
            -(|contracts| as real) <= 2.0 * (IndirectOfAll(contracts, [pool]) as real - exact) <= |contracts| as real
  {
    hide PoolBase, Applied, Indirect, Unrounded;
    NothingToCharge(pool.claimedRate);
    if contracts != [] {
      var rest, last := contracts[..|contracts| - 1], contracts[|contracts| - 1];
      AbsorptionBound(rest, pool);
      OnePool(last, pool);
      var base, all := PoolBase(last, pool.name), BaseOfAll(rest, pool.name);
      Distributes(all, base, pool.claimedRate);
      assert BaseOfAll(contracts, pool.name) == all + base;
      assert IndirectOfAll(contracts, [pool]) as real ==
        IndirectOfAll(rest, [pool]) as real + Applied(last, pool) as real;
      assert |contracts| as real == |rest| as real + 1.0;
    }
  }

  lemma NothingToCharge(rate: real)
    ensures Unrounded(0, rate) == 0.0
  {
  }

  lemma Distributes(a: int, b: int, rate: real)
    ensures Unrounded(a + b, rate) == Unrounded(a, rate) + Unrounded(b, rate)
  {
  }

  lemma OnePool(c: ContractCost, pool: IndirectPool)
    ensures Indirect(c, [pool]) == Applied(c, pool)
    ensures -1.0 <= 2.0 * (Applied(c, pool) as real - Unrounded(PoolBase(c, pool.name), pool.claimedRate)) <= 1.0
  {
    hide PoolBase;
    assert [pool][..0] == [];
  }

  // ---- The claim against the bill ----

  /** A contract's costs as the billing engine takes them. */
  function CostsOf(c: ContractCost): Billing.Costs {
    Billing.Costs(c.labor, c.material, c.subcontract, c.travel, c.odc)
  }

  function StandardPools(r: Billing.IndirectRates): seq<IndirectPool> {
    [Pool("FRINGE", r.fringe), Pool("OVERHEAD", r.overhead), Pool("G&A", r.ga),
      Pool("MATERIAL_HANDLING", r.materialHandling)]
  }

  lemma UpperAlready(s: string)
    requires forall i :: 0 <= i < |s| ==> !('a' <= s[i] <= 'z')
    ensures Upper(s) == s
  {
  }

  lemma StandardBases(c: ContractCost)
    ensures PoolBase(c, "FRINGE") == PoolBase(c, "OVERHEAD") == c.labor
    ensures PoolBase(c, "G&A") == TotalDirect(c) && PoolBase(c, "MATERIAL_HANDLING") == OrZero(c.material)
  {
    hide Upper;
    UpperAlready("FRINGE");
    UpperAlready("OVERHEAD");
    UpperAlready("G&A");
    UpperAlready("MATERIAL_HANDLING");
    assert |"FRINGE"| == 6 && |"OVERHEAD"| == 8 && |"G&A"| == 3 && |"MATERIAL_HANDLING"| == 17 &&
      |"MAT_HANDLING"| == 12;
  }

  lemma FourPools(c: ContractCost, r: Billing.IndirectRates)
    ensures Indirect(c, StandardPools(r)) ==
            Cascade.AtRate(c.labor, r.fringe) + Cascade.AtRate(c.labor, r.overhead) +
            Cascade.AtRate(TotalDirect(c), r.ga) + Cascade.AtRate(OrZero(c.material), r.materialHandling)
  {
    hide PoolBase, TotalDirect, Indirect, Cascade.AtRate, Applied;
    StandardBases(c);
    var f, o, g, m := Pool("FRINGE", r.fringe), Pool("OVERHEAD", r.overhead), Pool("G&A", r.ga),
      Pool("MATERIAL_HANDLING", r.materialHandling);
    NoPools(c);
    OneMorePool(c, [], f);
    OneMorePool(c, [f], o);
    OneMorePool(c, [f, o], g);
    OneMorePool(c, [f, o, g], m);
    assert [] + [f] == [f] && [f] + [o] == [f, o] && [f, o] + [g] == [f, o, g] && [f, o, g] + [m] == StandardPools(r);
  }

  lemma NoPools(c: ContractCost)
    ensures Indirect(c, []) == 0
  {
  }

  lemma OneMorePool(c: ContractCost, pools: seq<IndirectPool>, p: IndirectPool)
    ensures Indirect(c, pools + [p]) == Indirect(c, pools) + Cascade.AtRate(PoolBase(c, p.name), p.claimedRate)
  {
    hide PoolBase;
    assert (pools + [p])[..|pools|] == pools;
  }

  lemma AtRateMonotone(a: int, b: int, rate: real)
    requires a <= b && rate >= 0.0
    ensures Cascade.AtRate(a, rate) <= Cascade.AtRate(b, rate)
  {
    assert a as real * rate <= b as real * rate;
    RoundMonotone(a as real * rate, b as real * rate);
  }

  /** The submission takes overhead on labour alone and G&A on direct cost alone, although it is
      documented to take them on labour plus fringe and on total cost. So at the same rates it never
      claims more indirect cost than the billing engine charges, and it claims as much exactly when
      rounding hides the missing part of both bases. */
  lemma ClaimWithinBill(c: ContractCost, r: Billing.IndirectRates)
    ensures var i := Billing.IndirectCosts(CostsOf(c), r);
            var billed := i.fringe + i.overhead + i.ga + i.handling;
            && Indirect(c, StandardPools(r)) <= billed
            && (Indirect(c, StandardPools(r)) == billed <==>
                  && Cascade.AtRate(c.labor, r.overhead) == Cascade.AtRate(c.labor + i.fringe, r.overhead)
                  && Cascade.AtRate(TotalDirect(c), r.ga) ==
                     Cascade.AtRate(TotalDirect(c) + i.fringe + i.overhead, r.ga))
  {
    hide Cascade.AtRate, Indirect;
    var i := Billing.IndirectCosts(CostsOf(c), r);
    Billing.IndirectNonNegative(CostsOf(c), r);
    FourPools(c, r);
    AtRateMonotone(c.labor, c.labor + i.fringe, r.overhead);
    AtRateMonotone(TotalDirect(c), TotalDirect(c) + i.fringe + i.overhead, r.ga);
  }

  /** One dollar of labour at 50% fringe and 100% overhead: 1.50 is claimed where 2.00 is billed. */
  lemma ClaimBelowBill()
    ensures var c: ContractCost := Contract("C", "CPFF", 100, None, None, None, None);
            var r: Billing.IndirectRates := Billing.Rates(0.5, 1.0, 0.0, 0.0);
            var i := Billing.IndirectCosts(CostsOf(c), r);
            Indirect(c, StandardPools(r)) == 150 && i.fringe + i.overhead + i.ga + i.handling == 200
  {
    hide Cascade.AtRate, Indirect;
    var c: ContractCost := Contract("C", "CPFF", 100, None, None, None, None);
    ExampleRates();
    FourPools(c, Billing.Rates(0.5, 1.0, 0.0, 0.0));
  }

  lemma ExampleRates()
    ensures Cascade.AtRate(100, 0.5) == 50 && Cascade.AtRate(100, 1.0) == 100 && Cascade.AtRate(150, 1.0) == 150
    ensures forall base :: Cascade.AtRate(base, 0.0) == 0
  {
  }

  // ---- Schedule J ----

  /** Utilisation is a percentage to two places, held as hundredths of a percent. */
  datatype JLine = JLine(record: Ceiling, remaining: int, utilization: int)

  function Utilization(c: Ceiling): int {
    if c.funded > 0 then RoundHalfUp(c.incurred as real / c.funded as real * 10000.0) else 0
  }

  datatype ScheduleJ = ScheduleJ(lines: seq<JLine>, funded: int, incurred: int, billed: int)

  function Funded(c: Ceiling): int { c.funded }

  function Incurred(c: Ceiling): int { c.incurred }

  function BilledToDate(c: Ceiling): int { c.billed }

  /** A line repeats its record; funding and utilisation are consistent with it. */
  ghost predicate Compares(l: JLine, c: Ceiling) {
    && l.record == c && l.remaining + c.incurred == c.funded
    && IsUtilization(l.utilization, c)
    && (l.remaining < 0 <==> c.incurred > c.funded)
    && (l.utilization > 9000 <==> NearlySpent(c))
  }

  method CompileScheduleJ(ceilings: seq<Ceiling>) returns (j: ScheduleJ)
    ensures |j.lines| == |ceilings|
    ensures forall i :: 0 <= i < |ceilings| ==> Compares(j.lines[i], ceilings[i])
    ensures j.funded == Total(ceilings, Funded) && j.incurred == Total(ceilings, Incurred)
    ensures j.billed == Total(ceilings, BilledToDate)
  {
    hide Utilization, NearlySpent, IsUtilization;
    var lines: seq<JLine> := [];
    var funded, incurred, billed := 0, 0, 0;
    for i := 0 to |ceilings|
      invariant |lines| == i && funded == Total(ceilings[..i], Funded) && incurred == Total(ceilings[..i], Incurred)
      invariant billed == Total(ceilings[..i], BilledToDate)
      invariant forall k :: 0 <= k < i ==> Compares(lines[k], ceilings[k])
    {
      assert ceilings[..i + 1][..i] == ceilings[..i];
      var c := ceilings[i];
      UtilizationThreshold(c);
      UtilizationIs(c);
      lines := lines + [JLine(c, c.funded - c.incurred, Utilization(c))];
      funded, incurred, billed := funded + c.funded, incurred + c.incurred, billed + c.billed;
    }
    assert ceilings[..|ceilings|] == ceilings;
    j := ScheduleJ(lines, funded, incurred, billed);
  }

  /** Since utilisation is rounded first, the 90% warning fires from 90.005% on. */
  predicate NearlySpent(c: Ceiling) { c.funded > 0 && 20000 * c.incurred >= 18001 * c.funded }

  /** In whole numbers: the share of the funding that was incurred, to the nearest hundredth of a percent,
      ties away from zero; zero where there is no funding. */
  ghost predicate IsUtilization(u: int, c: Ceiling) {
    if c.funded <= 0 then u == 0
    else
      var twice := 2 * (u * c.funded - 10000 * c.incurred);
      && -c.funded <= twice <= c.funded
      && (twice == c.funded ==> c.incurred > 0)
      && (twice == -c.funded ==> c.incurred < 0)
  }

  lemma UtilizationIs(c: Ceiling)
    ensures IsUtilization(Utilization(c), c)
  {
    hide RoundHalfUp;
    if c.funded > 0 {
      var x := c.incurred as real / c.funded as real * 10000.0;
      var u := RoundHalfUp(x);
      InWholeNumbers(u, x, c.incurred, c.funded);
      HalfOf(u * c.funded - 10000 * c.incurred, u as real - x, c.funded);
    }
  }

  lemma InWholeNumbers(u: int, x: real, incurred: int, funded: int)
    requires funded > 0 && x == incurred as real / funded as real * 10000.0
    ensures (u * funded - 10000 * incurred) as real == (u as real - x) * funded as real
    ensures x > 0.0 ==> incurred > 0
    ensures x < 0.0 ==> incurred < 0
  {
    var i, f := incurred as real, funded as real;
    var q := i / f;
    assert q * f == i;
    assert x * f == 10000.0 * i;
    assert (u * funded) as real == u as real * f;
  }

  lemma HalfOf(d: int, e: real, funded: int)
    requires funded > 0 && d as real == e * funded as real && -0.5 <= e <= 0.5
    ensures -funded <= 2 * d <= funded
    ensures 2 * d == funded ==> e == 0.5
    ensures 2 * d == -funded ==> e == -0.5
  {
    TimesHalf(e, funded as real, d as real);
    TwiceWithin(d, funded, d as real);
  }

  lemma TimesHalf(e: real, f: real, x: real)
    requires f > 0.0 && x == e * f && -0.5 <= e <= 0.5
    ensures -f <= 2.0 * x <= f
    ensures 2.0 * x == f ==> e == 0.5
    ensures 2.0 * x == -f ==> e == -0.5
  {
    Scaled(0.5 - e, f, 0.5 * f - x);
    Scaled(0.5 + e, f, 0.5 * f + x);
  }

  lemma Scaled(a: real, f: real, x: real)
    requires f > 0.0 && a >= 0.0 && x == a * f
    ensures x >= 0.0 && (x == 0.0 ==> a == 0.0)
  {
  }

  lemma TwiceWithin(d: int, funded: int, x: real)
    requires x == d as real
    ensures 2.0 * x <= funded as real <==> 2 * d <= funded
    ensures 2.0 * x >= -(funded as real) <==> 2 * d >= -funded
  {
    assert (2 * d) as real == 2.0 * x && (-funded) as real == -(funded as real);
    assert 2 * d <= funded <==> (2 * d) as real <= funded as real;
    assert 2 * d >= -funded <==> (2 * d) as real >= (-funded) as real;
  }

  lemma UtilizationThreshold(c: Ceiling)
    ensures Utilization(c) > 9000 <==> NearlySpent(c)
  {
    if c.funded > 0 {
      var x := c.incurred as real / c.funded as real * 10000.0;
      RoundsAbove(x, 9000);
      RatioAtLeast(c.incurred, c.funded);
    }
  }

  lemma RoundsAbove(x: real, n: nat)
    ensures RoundHalfUp(x) > n <==> x >= n as real + 0.5
  {
  }

  lemma RatioAtLeast(incurred: int, funded: int)
    requires funded > 0
    ensures incurred as real / funded as real * 10000.0 >= 9000.5 <==> 20000 * incurred >= 18001 * funded
  {
    var i, f := incurred as real, funded as real;
    var q := i / f;
    assert q * f == i;
    MultiplyOrder(q, 0.90005, f);
    assert q * 10000.0 >= 9000.5 <==> q >= 0.90005;
    assert (20000 * incurred) as real == 20000.0 * i && (18001 * funded) as real == 18001.0 * f;
  }

  // ---- Cross-schedule validation ----

  datatype Severity = Warning | Error

  datatype Check = LaborTotals | OtherTotals | IndirectTotals | MissingContract | HighUtilization | NegativeFunding

  datatype Finding = Finding(severity: Severity, check: Check, contract: Option<string>)

  datatype Schedules = Schedules(a: ScheduleA, b: ScheduleB, c: ScheduleC, h: ScheduleH, i: ScheduleI, j: ScheduleJ)

  ghost predicate Missing(s: Schedules, number: string) {
    (exists l :: l in s.a.lines && l.contract == number) && !exists l :: l in s.i.lines && l.contract == number
  }

  ghost predicate StrainIn(lines: seq<JLine>, contract: Option<string>) {
    exists l :: l in lines && l.utilization > 9000 && contract == Some(l.record.contract)
  }

  ghost predicate OverrunIn(lines: seq<JLine>, contract: Option<string>) {
    exists l :: l in lines && l.remaining < 0 && contract == Some(l.record.contract)
  }

  /** When a finding belongs in the report. */
  ghost predicate Due(s: Schedules, f: Finding) {
    match f.check
    case LaborTotals => f == Finding(Warning, LaborTotals, None) && s.b.total.amount != s.a.labor
    case OtherTotals =>
      f == Finding(Warning, OtherTotals, None) && s.c.total != s.a.material + s.a.subcontract + s.a.travel + s.a.odc
    case IndirectTotals => f == Finding(Error, IndirectTotals, None) && s.h.total != s.i.indirect
    case MissingContract => f.severity == Error && f.contract.Some? && Missing(s, f.contract.value)
    case HighUtilization =>
      f.severity == Warning && StrainIn(s.j.lines, f.contract)
    case NegativeFunding =>
      f.severity == Error && OverrunIn(s.j.lines, f.contract)
  }

  method JFindings(lines: seq<JLine>) returns (findings: seq<Finding>)
    ensures forall f :: f in findings <==>
      || (f.severity == Warning && f.check == HighUtilization && StrainIn(lines, f.contract))
      || (f.severity == Error && f.check == NegativeFunding && OverrunIn(lines, f.contract))
  {
    findings := [];
    for k := 0 to |lines|
      invariant forall f :: f in findings <==>
        f.severity == Warning && f.check == HighUtilization &&
        StrainIn(lines[..k], f.contract)
    {
      if lines[k].utilization > 9000 {
        findings := findings + [Finding(Warning, HighUtilization, Some(lines[k].record.contract))];
      }
      assert lines[..k + 1] == lines[..k] + [lines[k]];
    }
    assert lines[..|lines|] == lines;
    for k := 0 to |lines|
      invariant forall f :: f in findings <==>
        || (f.severity == Warning && f.check == HighUtilization && StrainIn(lines, f.contract))
        || (f.severity == Error && f.check == NegativeFunding && OverrunIn(lines[..k], f.contract))
    {
      if lines[k].remaining < 0 {
        findings := findings + [Finding(Error, NegativeFunding, Some(lines[k].record.contract))];
      }
      assert lines[..k + 1] == lines[..k] + [lines[k]];
    }
  }

  lemma StringOrder()
    ensures TotalPreorder(Lexicographic.Leq)
  {
    forall a, b ensures Lexicographic.Leq(a, b) || Lexicographic.Leq(b, a) {
      Lexicographic.Total(a, b);
    }
    forall a, b, c | Lexicographic.Leq(a, b) && Lexicographic.Leq(b, c) ensures Lexicographic.Leq(a, c) {
      Lexicographic.Transitive(a, b, c);
    }
  }

  method MissingContracts(s: Schedules) returns (findings: seq<Finding>)
    ensures forall f :: f in findings <==> f.check == MissingContract && Due(s, f)
  {
    var inA := set l | l in s.a.lines :: l.contract;
    var inI := set l | l in s.i.lines :: l.contract;
    StringOrder();
    var missing := SortedElements(inA - inI, Lexicographic.Leq);
    findings := [];
    for k := 0 to |missing|
      invariant forall f :: f in findings <==>
        f.severity == Error && f.check == MissingContract && f.contract.Some? && f.contract.value in missing[..k]
    {
      findings := findings + [Finding(Error, MissingContract, Some(missing[k]))];
      assert missing[..k + 1] == missing[..k] + [missing[k]];
    }
    assert missing[..|missing|] == missing;
    assert forall n :: n in missing <==> Missing(s, n);
  }

  method CompareTotals(s: Schedules) returns (findings: seq<Finding>)
    ensures forall f :: f in findings <==> f.check in {LaborTotals, OtherTotals, IndirectTotals} && Due(s, f)
  {
    hide Missing;
    findings := [];
    if s.b.total.amount != s.a.labor {
      findings := findings + [Finding(Warning, LaborTotals, None)];
    }
    if s.c.total != s.a.material + s.a.subcontract + s.a.travel + s.a.odc {
      findings := findings + [Finding(Warning, OtherTotals, None)];
    }
    if s.h.total != s.i.indirect {
      findings := findings + [Finding(Error, IndirectTotals, None)];
    }
  }

  lemma FundingFindings(s: Schedules, f: Finding)
    ensures f.check in {HighUtilization, NegativeFunding} && Due(s, f) <==>
            || (f.severity == Warning && f.check == HighUtilization && StrainIn(s.j.lines, f.contract))
            || (f.severity == Error && f.check == NegativeFunding && OverrunIn(s.j.lines, f.contract))
  {
  }

  /** Reports exactly the findings that are due. */
  method Validate(s: Schedules) returns (findings: seq<Finding>)
    ensures forall f :: f in findings <==> Due(s, f)
  {
    hide Due;
    var totals := CompareTotals(s);
    var missing := MissingContracts(s);
    var funding := JFindings(s.j.lines);
    findings := totals + missing + funding;
    forall f ensures f in findings <==> Due(s, f) {
      FundingFindings(s, f);
      assert f in findings <==> f in totals || f in missing || f in funding;
    }
  }

  datatype Submission = Submission(
    schedules: Schedules, findings: seq<Finding>, isValid: bool, claimed: int, unallowable: int)

  ghost predicate Strained(ceilings: seq<Ceiling>, number: string) {
    exists c :: c in ceilings && c.contract == number && NearlySpent(c)
  }

  ghost predicate Overrun(ceilings: seq<Ceiling>, number: string) {
    exists c :: c in ceilings && c.contract == number && c.incurred > c.funded
  }

  /** What the schedules of one input have to do with one another. */
  ghost predicate TiedOut(s: Schedules) {
    && s.h.total == s.i.indirect && s.a.total == s.i.direct
    && s.i.claimed == s.a.total + s.h.total
    && (forall n :: ChargedTo(s.h.lines, n) == IndirectClaimedOn(s.i.lines, n))
    && |s.a.lines| == |s.i.lines|
    && (forall k :: 0 <= k < |s.a.lines| ==>
          s.a.lines[k].contract == s.i.lines[k].contract && s.a.lines[k].total == s.i.lines[k].direct)
  }

  ghost predicate FromInput(s: Schedules, input: IceInput) {
    && s.b.total == AllWork(input.labor) && s.c.total == Total(input.other, Spent)
    && s.a.labor == Total(input.contracts, LaborCost)
    && s.a.material + s.a.subcontract + s.a.travel + s.a.odc == Total(input.contracts, NonLabor)
    && (forall n :: OverrunIn(s.j.lines, Some(n)) <==> Overrun(input.ceilings, n))
    && (forall n :: StrainIn(s.j.lines, Some(n)) <==> Strained(input.ceilings, n))
  }

  /** Schedules H and I agree on indirect cost and A and I on direct cost, in total and contract by
      contract, and A lists the contracts of I. */
  method CompileSchedules(input: IceInput) returns (s: Schedules)
    ensures TiedOut(s) && FromInput(s, input)
  {
    hide TotalDirect, NonLabor, NearlySpent, AllWork, Total, ChargedTo, IndirectClaimedOn, IndirectOfNumber,
      IndirectOfAll, LineFor, Listed, Charged, KeyLeq, Overrun, Strained, Indirect;
    var a := CompileScheduleA(input.contracts);
    var b := CompileScheduleB(input.labor);
    var c := CompileScheduleC(input.other);
    var h := CompileScheduleH(input.contracts, input.pools);
    var i := CompileScheduleI(input.contracts, input.pools);
    var j := CompileScheduleJ(input.ceilings);
    OverrunLines(input.ceilings, j.lines);
    s := Schedules(a, b, c, h, i, j);
  }

  /** On schedules of one input the error findings are the overrun contracts and nothing else. */
  lemma ErrorsAreOverruns(s: Schedules, input: IceInput, f: Finding)
    requires TiedOut(s) && FromInput(s, input) && f.severity == Error
    ensures Due(s, f) <==> f.check == NegativeFunding && f.contract.Some? && Overrun(input.ceilings, f.contract.value)
  {
    hide Missing, Overrun, Strained, AllWork, Total, ChargedTo, IndirectClaimedOn;
    NoneMissing(s);
  }

  /** And each warning says something about the input. */
  lemma WarningsTraced(s: Schedules, input: IceInput, f: Finding)
    requires TiedOut(s) && FromInput(s, input) && f.severity == Warning
    ensures Due(s, f) <==>
      match f.check
      case LaborTotals => f.contract.None? && AllWork(input.labor).amount != Total(input.contracts, LaborCost)
      case OtherTotals => f.contract.None? && Total(input.other, Spent) != Total(input.contracts, NonLabor)
      case HighUtilization => f.contract.Some? && Strained(input.ceilings, f.contract.value)
      case _ => false
  {
    hide Missing, Overrun, Strained, AllWork, Total, ChargedTo, IndirectClaimedOn;
  }

  /** A submission is valid exactly when no ceiling record has incurred more than was funded: the
      other two errors cannot arise. */
  method CompileSubmission(input: IceInput) returns (r: Submission)
    requires input.contracts != []
    ensures r.isValid <==> forall c :: c in input.ceilings ==> c.incurred <= c.funded
    ensures TiedOut(r.schedules) && FromInput(r.schedules, input)
    ensures forall f :: f in r.findings <==> Due(r.schedules, f)
    ensures r.claimed == r.schedules.a.total + r.schedules.h.total
    ensures r.unallowable == OrZero(input.unallowableDirect) + OrZero(input.unallowableIndirect)
  {
    hide Due, AllWork, Total, ChargedTo, IndirectClaimedOn, FromInput;
    var s := CompileSchedules(input);
    var findings := Validate(s);
    var isValid := forall f :: f in findings ==> f.severity != Error;
    forall f: Finding | f.severity == Error
      ensures Due(s, f) <==>
              f.check == NegativeFunding && f.contract.Some? && Overrun(input.ceilings, f.contract.value) {
      ErrorsAreOverruns(s, input, f);
    }
    forall c | c in input.ceilings && c.incurred > c.funded ensures !isValid {
      assert Overrun(input.ceilings, c.contract);
      assert Due(s, Finding(Error, NegativeFunding, Some(c.contract)));
    }
    r := Submission(
      s, findings, isValid, s.i.claimed, OrZero(input.unallowableDirect) + OrZero(input.unallowableIndirect));
  }

  lemma NoneMissing(s: Schedules)
    requires |s.a.lines| == |s.i.lines|
    requires forall k :: 0 <= k < |s.a.lines| ==> s.a.lines[k].contract == s.i.lines[k].contract
    ensures forall n :: !Missing(s, n)
  {
    forall n ensures !Missing(s, n) {
      if l :| l in s.a.lines && l.contract == n {
        var k :| 0 <= k < |s.a.lines| && s.a.lines[k] == l;
        assert s.i.lines[k] in s.i.lines;
      }
    }
  }

  lemma OverrunLines(ceilings: seq<Ceiling>, lines: seq<JLine>)
    requires |lines| == |ceilings|
    requires forall i :: 0 <= i < |ceilings| ==> Compares(lines[i], ceilings[i])
    ensures forall n :: OverrunIn(lines, Some(n)) <==> Overrun(ceilings, n)
    ensures forall n :: StrainIn(lines, Some(n)) <==> Strained(ceilings, n)
  {
    hide NearlySpent, IsUtilization;
    forall c | c in ceilings ensures exists l :: l in lines && Compares(l, c) {
      var i :| 0 <= i < |ceilings| && ceilings[i] == c;
      assert lines[i] in lines;
    }
    forall l | l in lines ensures exists c :: c in ceilings && Compares(l, c) {
      var i :| 0 <= i < |lines| && lines[i] == l;
      assert ceilings[i] in ceilings;
    }
  }
}
