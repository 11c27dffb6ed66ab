/** finance_engines/billing.py: the bill of one contract period, its caps and its withholding, and
    what the caps guarantee over a contract's life. Amounts are cents. */
module Billing {
  import opened Common
  import opened Rounding
  import opened Cascade

  datatype ContractType = Cpff | Cpif | Cpaf | TimeAndMaterials | LaborHour | FirmFixedPrice | FixedPriceIncentive

  /** Negative costs, rates, hours and milestone amounts are refused on construction. */
  datatype Costs = Costs(
    labor: nat, material: Option<nat>, subcontract: Option<nat>, travel: Option<nat>, odc: Option<nat>)

  datatype RatesRecord = Rates(fringe: real, overhead: real, ga: real, materialHandling: real)
  type IndirectRates = r: RatesRecord |
    r.fringe >= 0.0 && r.overhead >= 0.0 && r.ga >= 0.0 && r.materialHandling >= 0.0
    witness Rates(0.0, 0.0, 0.0, 0.0)

  datatype LaborRecord = Labor(hours: real, rate: real)
  type LaborEntry = l: LaborRecord | l.hours >= 0.0 && l.rate >= 0.0 witness Labor(0.0, 0.0)

  datatype MilestoneRecord = Milestone(amount: nat, completion: real)
  type MilestoneEntry = m: MilestoneRecord | 0.0 <= m.completion <= 100.0 witness Milestone(0, 0.0)

  datatype BillingInput = BillingInput(
    contractType: ContractType,
    costs: Option<Costs>, rates: Option<IndirectRates>, feeRate: real, feeCeiling: Option<int>,
    labor: seq<LaborEntry>, materials: Option<int>, milestones: seq<MilestoneEntry>,
    withholding: real, cumulative: int, funding: Option<int>, ceiling: Option<int>)

  datatype LineType =
    | DirectLabor | DirectMaterial | Subcontract | Travel | Odc
    | Fringe | Overhead | GeneralAdmin | Fee | MilestoneLine | WithholdingLine

  datatype BillingLine = BillingLine(kind: LineType, amount: int)

  datatype BillingResult = BillingResult(
    lines: seq<BillingLine>, direct: int, indirect: int, fee: int, gross: int, withheld: int, net: int,
    fundingLimited: bool, ceilingLimited: bool)

  datatype BillingError = CostsRequired | RatesRequired

  predicate IsCostPlus(t: ContractType) { t in {Cpff, Cpif, Cpaf} }

  predicate HasCeiling(t: ContractType) { IsCostPlus(t) || t in {TimeAndMaterials, LaborHour} }

  // ---- Costs ----

  function OtherDirect(c: Costs): nat {
    OrZero(c.material) + OrZero(c.subcontract) + OrZero(c.travel) + OrZero(c.odc)
  }

  function TotalDirect(c: Costs): nat { c.labor + OtherDirect(c) }

  datatype Indirect = Indirect(fringe: int, overhead: int, ga: int, handling: int)

  function IndirectCosts(c: Costs, r: IndirectRates): Indirect {
    var fringe := AtRate(c.labor, r.fringe);
    var overhead := AtRate(c.labor + fringe, r.overhead);
    var ga := AtRate(TotalDirect(c) + fringe + overhead, r.ga);
    Indirect(fringe, overhead, ga, AtRate(OrZero(c.material), r.materialHandling))
  }

  /** The pools and rates under which the standard cascade is run for a breakdown. */
  function PoolsOf(c: Costs): Pools { map["DIRECT_LABOR" := c.labor, "DIRECT_COST" := OtherDirect(c)] }

  function RateTable(r: IndirectRates): map<string, real> {
    map["fringe" := r.fringe, "overhead" := r.overhead, "g&a" := r.ga]
  }

  /** The cascade engine and the billing engine agree on fringe, overhead and G&A, to the cent, for
      every breakdown and every set of rates. */
  lemma CascadeEqualsBilling(c: Costs, r: IndirectRates)
    ensures var after := Run(DcaaCascade(), PoolsOf(c), RateTable(r)).pools;
            var i := IndirectCosts(c, r);
            && Balance(after, "FRINGE") == i.fringe
            && Balance(after, "OVERHEAD") == i.overhead
            && Balance(after, "G&A") == i.ga
  {
    hide AtRate, Run;
    var pools, rates := PoolsOf(c), RateTable(r);
    DcaaCharges(pools, rates);
    PoolBalances(c);
    RatesFound(r);
  }

  lemma PoolBalances(c: Costs)
    ensures var pools := PoolsOf(c);
            && Balance(pools, "DIRECT_LABOR") == c.labor && Balance(pools, "DIRECT_COST") == OtherDirect(c)
            && Balance(pools, "TOTAL_DIRECT") == Balance(pools, "FRINGE") == 0
            && Balance(pools, "OVERHEAD") == Balance(pools, "G&A") == 0
  {
    assert |"DIRECT_LABOR"| == 12 && |"DIRECT_COST"| == 11 && |"TOTAL_DIRECT"| == 12;
    assert "DIRECT_LABOR"[0] != "TOTAL_DIRECT"[0];
    assert |"FRINGE"| == 6 && |"OVERHEAD"| == 8 && |"G&A"| == 3;
  }

  lemma RatesFound(r: IndirectRates)
    ensures var rates := RateTable(r);
            RateOf(rates, "fringe") == r.fringe && RateOf(rates, "overhead") == r.overhead &&
              RateOf(rates, "g&a") == r.ga
  {
    assert |"fringe"| == 6 && |"overhead"| == 8 && |"g&a"| == 3;
  }

  lemma AtRateNonNegative(base: int, rate: real)
    requires base >= 0 && rate >= 0.0
    ensures AtRate(base, rate) >= 0
  {
    assert base as real * rate >= 0.0;
    RoundMonotone(0.0, base as real * rate);
  }

  lemma IndirectNonNegative(c: Costs, r: IndirectRates)
    ensures var i := IndirectCosts(c, r); i.fringe >= 0 && i.overhead >= 0 && i.ga >= 0 && i.handling >= 0
  {
    hide AtRate;
    AtRateNonNegative(c.labor, r.fringe);
    AtRateNonNegative(c.labor + AtRate(c.labor, r.fringe), r.overhead);
    AtRateNonNegative(TotalDirect(c) + AtRate(c.labor, r.fringe) +
                      AtRate(c.labor + AtRate(c.labor, r.fringe), r.overhead), r.ga);
    AtRateNonNegative(OrZero(c.material), r.materialHandling);
  }

  // ---- Caps, fee and withholding ----

  /** apply_funding_limit, and the ceiling check, which has the same shape: an amount above what a
      limit has left is cut down to it. */
  function CapAt(amount: int, cumulative: int, limit: Option<int>): (int, bool) {
    if limit.None? then (amount, false)
    else
      var left := Max(0, limit.value - cumulative);
      if amount > left then (left, true) else (amount, false)
  }

  /** calculate_fee: the raw fee, cut down to what the ceiling leaves after the fee earned so far. */
  function CalculateFee(cost: int, rate: real, ceiling: Option<int>, earned: int): (int, bool) {
    CapAt(AtRate(cost, rate), earned, ceiling)
  }

  /** The fee of a bill: the calculator is always told that nothing was earned before. */
  function FeeOn(cost: int, rate: real, ceiling: Option<int>): int { CalculateFee(cost, rate, ceiling, 0).0 }

  function LaborAmount(e: LaborEntry): int { RoundHalfUp(e.hours * e.rate * 100.0) }

  function LaborTotal(entries: seq<LaborEntry>): (t: int) {
    if entries == [] then 0
    else
      var e := entries[|entries| - 1];
      LaborTotal(entries[..|entries| - 1]) + LaborAmount(e)
  }

  function MilestoneTotal(ms: seq<MilestoneEntry>): (t: nat) {
    if ms == [] then 0
    else
      var m := ms[|ms| - 1];
      MilestoneTotal(ms[..|ms| - 1]) + if m.completion >= 100.0 then m.amount else 0
  }

  function Materials(b: BillingInput): int {
    if b.materials.Some? && b.materials.value > 0 then b.materials.value else 0
  }

  predicate Complete(b: BillingInput) { IsCostPlus(b.contractType) ==> b.costs.Some? && b.rates.Some? }

  function CostPlusCost(c: Costs, r: IndirectRates): int {
    var i := IndirectCosts(c, r);
    TotalDirect(c) + i.fringe + i.overhead + i.ga + i.handling
  }

  /** The bill before any cap. */
  function Uncapped(b: BillingInput): int
    requires Complete(b)
  {
    match b.contractType
    case TimeAndMaterials => LaborTotal(b.labor) + Materials(b)
    case LaborHour => LaborTotal(b.labor)
    case FirmFixedPrice => MilestoneTotal(b.milestones)
    case FixedPriceIncentive => MilestoneTotal(b.milestones)
    case _ =>
      var cost := CostPlusCost(b.costs.value, b.rates.value);
      cost + FeeOn(cost, b.feeRate, b.feeCeiling)
  }

  /** gross_billing: capped by the funding limit, then by the ceiling where the type has one. */
  function Gross(b: BillingInput): int
    requires Complete(b)
  {
    var funded := CapAt(Uncapped(b), b.cumulative, b.funding).0;
    if HasCeiling(b.contractType) then CapAt(funded, b.cumulative, b.ceiling).0 else funded
  }

  /** The fee rate of a cost-plus contract is not negative; nothing else is asked of an input. */
  predicate Earning(b: BillingInput) { IsCostPlus(b.contractType) ==> b.feeRate >= 0.0 }

  lemma {:induction false} LaborNonNegative(entries: seq<LaborEntry>)
    ensures LaborTotal(entries) >= 0
  {
    if entries != [] {
      LaborNonNegative(entries[..|entries| - 1]);
      var e := entries[|entries| - 1];
      ProductNonNegative(e.hours, e.rate);
      RoundMonotone(0.0, e.hours * e.rate * 100.0);
    }
  }

  lemma ProductNonNegative(x: real, y: real)
    requires x >= 0.0 && y >= 0.0
    ensures x * y * 100.0 >= 0.0
  {
    assert x * y >= 0.0;
  }

  lemma FeeNonNegative(cost: int, rate: real, ceiling: Option<int>, earned: int)
    requires cost >= 0 && rate >= 0.0
    ensures CalculateFee(cost, rate, ceiling, earned).0 >= 0
  {
    hide AtRate;
    AtRateNonNegative(cost, rate);
  }

  /** No bill is negative. */
  lemma GrossNonNegative(b: BillingInput)
    requires Complete(b) && Earning(b)
    ensures Uncapped(b) >= 0 && Gross(b) >= 0
  {
    hide AtRate, LaborTotal, MilestoneTotal, FeeOn, IndirectCosts;
    LaborNonNegative(b.labor);
    if IsCostPlus(b.contractType) {
      var cost := CostPlusCost(b.costs.value, b.rates.value);
      IndirectNonNegative(b.costs.value, b.rates.value);
      FeeIs(cost, b.feeRate, b.feeCeiling);
      FeeNonNegative(cost, b.feeRate, b.feeCeiling, 0);
    }
  }

  lemma FeeIs(cost: int, rate: real, ceiling: Option<int>)
    ensures FeeOn(cost, rate, ceiling) == CalculateFee(cost, rate, ceiling, 0).0
  {
  }

  // ---- The calculators ----

  const DIRECT_LINES := {DirectLabor, DirectMaterial, Subcontract, Travel, Odc}

  const INDIRECT_LINES := {Fringe, Overhead, GeneralAdmin}

  /** What the lines of some kinds add up to. */
  function KindSum(lines: seq<BillingLine>, kinds: set<LineType>): int {
    if lines == [] then 0
    else
      var last := lines[|lines| - 1];
      KindSum(lines[..|lines| - 1], kinds) + if last.kind in kinds then last.amount else 0
  }

  /** Every line is direct, indirect, a fee, a milestone or a withholding. */
  lemma {:induction false} LinesPartition(lines: seq<BillingLine>)
    ensures LineSum(lines) == KindSum(lines, DIRECT_LINES) + KindSum(lines, INDIRECT_LINES) +
                              KindSum(lines, {Fee}) + KindSum(lines, {MilestoneLine}) +
                                KindSum(lines, {WithholdingLine})
  {
    if lines != [] {
      LinesPartition(lines[..|lines| - 1]);
      match lines[|lines| - 1].kind {
        case DirectLabor | DirectMaterial | Subcontract | Travel | Odc =>
        case Fringe | Overhead | GeneralAdmin =>
        case Fee | MilestoneLine | WithholdingLine =>
      }
    }
  }

  lemma OneMoreLine(lines: seq<BillingLine>, kind: LineType, amount: int, kinds: set<LineType>)
    ensures KindSum(lines + [BillingLine(kind, amount)], kinds) ==
      KindSum(lines, kinds) + if kind in kinds then amount else 0
  {
    assert (lines + [BillingLine(kind, amount)])[..|lines|] == lines;
  }

  function LineSum(lines: seq<BillingLine>): int {
    if lines == [] then 0 else LineSum(lines[..|lines| - 1]) + lines[|lines| - 1].amount
  }

  function Positive(kind: LineType, amount: int): seq<BillingLine> {
    if amount > 0 then [BillingLine(kind, amount)] else []
  }

  lemma {:induction false} LineSumAppend(a: seq<BillingLine>, b: seq<BillingLine>)
    ensures LineSum(a + b) == LineSum(a) + LineSum(b)
  {
    if b == [] {
      assert a + b == a;
    } else {
      LineSumAppend(a, b[..|b| - 1]);
      assert (a + b)[..|a + b| - 1] == a + b[..|b| - 1];
    }
  }

  lemma AppendPositive(lines: seq<BillingLine>, kind: LineType, amount: int)
    ensures LineSum(lines + Positive(kind, amount)) == LineSum(lines) + Max(0, amount)
  {
    LineSumAppend(lines, Positive(kind, amount));
    assert amount > 0 ==> [BillingLine(kind, amount)][..0] == [];
  }

  method Withhold(gross: int, pct: real) returns (withheld: int, net: int)
    ensures withheld == AtRate(gross, pct) && withheld + net == gross
    ensures gross >= 0 && 0.0 <= pct <= 1.0 ==> 0 <= withheld <= gross && 0 <= net <= gross
  {
    withheld := AtRate(gross, pct);
    net := gross - withheld;
    if gross >= 0 && 0.0 <= pct <= 1.0 {
      assert 0.0 <= gross as real * pct <= gross as real;
      RoundBetween(0, gross as real * pct, gross);
    }
  }

  /** What a limit leaves after what was billed before; no limit leaves any amount. */
  ghost predicate Leaves(limit: Option<int>, cumulative: int, amount: int) {
    limit.Some? ==> amount <= if limit.value > cumulative then limit.value - cumulative else 0
  }

  /** The bill is the whole cost where the limits leave room for it, and otherwise the most that they leave;
      fixed-price bills are held to the funding limit alone. */
  lemma GrossIsMost(b: BillingInput, amount: int)
    requires Complete(b)
    ensures Gross(b) <= Uncapped(b) && Leaves(b.funding, b.cumulative, Gross(b))
    ensures !(b.contractType in {FirmFixedPrice, FixedPriceIncentive}) ==> Leaves(b.ceiling, b.cumulative, Gross(b))
    ensures amount <= Uncapped(b) && Leaves(b.funding, b.cumulative, amount) ==>
              Leaves(b.ceiling, b.cumulative, amount) ==> amount <= Gross(b)
    ensures amount <= Uncapped(b) && Leaves(b.funding, b.cumulative, amount) ==>
              b.contractType in {FirmFixedPrice, FixedPriceIncentive} ==> amount <= Gross(b)
  {
    hide Uncapped;
    match b.contractType {
      case Cpff | Cpif | Cpaf =>
      case TimeAndMaterials | LaborHour =>
      case FirmFixedPrice | FixedPriceIncentive =>
    }
  }

  /** What is billed before the limits: labor and materials at cost, labor alone, completed milestones, or
      cost and fee. */
  lemma UncappedIs(b: BillingInput)
    requires Complete(b)
    ensures b.contractType == TimeAndMaterials ==>
              Uncapped(b) ==
              LaborTotal(b.labor) + if b.materials.Some? && b.materials.value > 0 then b.materials.value else 0
    ensures b.contractType == LaborHour ==> Uncapped(b) == LaborTotal(b.labor)
    ensures b.contractType in {FirmFixedPrice, FixedPriceIncentive} ==> Uncapped(b) == MilestoneTotal(b.milestones)
    ensures b.contractType in {Cpff, Cpif, Cpaf} ==>
              var c, r := b.costs.value, b.rates.value;
              var fringe := AtRate(c.labor, r.fringe);
              var overhead := AtRate(c.labor + fringe, r.overhead);
              var direct := c.labor + OrZero(c.material) + OrZero(c.subcontract) + OrZero(c.travel) + OrZero(c.odc);
              var ga := AtRate(direct + fringe + overhead, r.ga);
              var cost := direct + fringe + overhead + ga + AtRate(OrZero(c.material), r.materialHandling);
              var fee := AtRate(cost, b.feeRate);
              Uncapped(b) == cost + if b.feeCeiling.Some? then Min(fee, Max(0, b.feeCeiling.value)) else fee
  {
    hide AtRate, LaborTotal, MilestoneTotal;
  }

  /** Labor is billed entry by entry, hours times rate, rounded to the cent. */
  lemma OneMoreLaborEntry(entries: seq<LaborEntry>, e: LaborEntry)
    ensures LaborTotal([]) == 0
    ensures LaborTotal(entries + [e]) == LaborTotal(entries) + RoundHalfUp(e.hours * e.rate * 100.0)
  {
    assert (entries + [e])[..|entries|] == entries;
    assert LaborAmount(e) == RoundHalfUp(e.hours * e.rate * 100.0);
  }

  /** A milestone is billed in full when it is complete and not at all before. */
  lemma OneMoreMilestone(ms: seq<MilestoneEntry>, m: MilestoneEntry)
    ensures MilestoneTotal([]) == 0
    ensures m.completion == 100.0 ==> MilestoneTotal(ms + [m]) == MilestoneTotal(ms) + m.amount
    ensures m.completion < 100.0 ==> MilestoneTotal(ms + [m]) == MilestoneTotal(ms)
  {
    assert (ms + [m])[..|ms|] == ms;
  }

  /** What every bill satisfies, whatever the contract type. */
  ghost predicate IsBill(b: BillingInput, r: BillingResult)
    requires Complete(b)
  {
    && r.gross == Gross(b)
    && r.direct + r.indirect + r.fee == Uncapped(b)
    && r.withheld + r.net == r.gross
    && (Earning(b) ==> r.gross >= 0)
    && (Earning(b) && 0.0 <= b.withholding <= 1.0 ==> 0 <= r.withheld <= r.gross && 0 <= r.net <= r.gross)
    && r.withheld == AtRate(r.gross, b.withholding)
    && (r.fundingLimited <==> b.funding.Some? && Uncapped(b) > Max(0, b.funding.value - b.cumulative))
    && (r.ceilingLimited <==>
          && HasCeiling(b.contractType) && b.ceiling.Some?
          && CapAt(Uncapped(b), b.cumulative, b.funding).0 > Max(0, b.ceiling.value - b.cumulative))
    && (!IsCostPlus(b.contractType) ==> r.indirect == r.fee == 0)
    && (!r.fundingLimited && !r.ceilingLimited ==> r.gross == Uncapped(b))
    && (r.fundingLimited || r.ceilingLimited ==> r.gross < Uncapped(b))
  }

  /** The sums of the lines so far, by what they stand for. */
  ghost predicate Sums(lines: seq<BillingLine>, direct: int, indirect: int, fee: int, withheld: int) {
    && KindSum(lines, DIRECT_LINES) == direct && KindSum(lines, INDIRECT_LINES) == indirect
    && KindSum(lines, {Fee}) == fee && KindSum(lines, {WithholdingLine}) == -withheld &&
       KindSum(lines, {MilestoneLine}) == 0
  }

  lemma SumsOfNothing()
    ensures Sums([], 0, 0, 0, 0)
  {
  }

  /** A line is added for a positive amount only. */
  lemma AddLine(lines: seq<BillingLine>, kind: LineType, amount: int, d: int, i: int, f: int, w: int)
    requires Sums(lines, d, i, f, w) && kind != MilestoneLine && kind != WithholdingLine
    ensures Sums(lines + Positive(kind, amount),
                 d + if kind in DIRECT_LINES then Max(0, amount) else 0,
                 i + if kind in INDIRECT_LINES then Max(0, amount) else 0,
                 f + if kind == Fee then Max(0, amount) else 0, w)
  {
    hide KindSum;
    OneMoreLine(lines, kind, amount, DIRECT_LINES);
    OneMoreLine(lines, kind, amount, INDIRECT_LINES);
    OneMoreLine(lines, kind, amount, {Fee});
    OneMoreLine(lines, kind, amount, {MilestoneLine});
    OneMoreLine(lines, kind, amount, {WithholdingLine});
    assert amount <= 0 ==> lines + Positive(kind, amount) == lines;
  }

  lemma AddWithholding(lines: seq<BillingLine>, withheld: int, d: int, i: int, f: int)
    requires Sums(lines, d, i, f, 0)
    ensures Sums(lines + [BillingLine(WithholdingLine, -withheld)], d, i, f, withheld)
  {
    hide KindSum;
    OneMoreLine(lines, WithholdingLine, -withheld, DIRECT_LINES);
    OneMoreLine(lines, WithholdingLine, -withheld, INDIRECT_LINES);
    OneMoreLine(lines, WithholdingLine, -withheld, {Fee});
    OneMoreLine(lines, WithholdingLine, -withheld, {MilestoneLine});
    OneMoreLine(lines, WithholdingLine, -withheld, {WithholdingLine});
  }

  method DirectLines(c: Costs) returns (lines: seq<BillingLine>)
    ensures Sums(lines, TotalDirect(c), 0, 0, 0)
  {
    hide Sums, Positive;
    SumsOfNothing();
    FirstLine(c.labor);
    lines := [BillingLine(DirectLabor, c.labor)];
    AddLine(lines, DirectMaterial, OrZero(c.material), c.labor, 0, 0, 0);
    lines := lines + Positive(DirectMaterial, OrZero(c.material));
    AddLine(lines, Subcontract, OrZero(c.subcontract), c.labor + OrZero(c.material), 0, 0, 0);
    lines := lines + Positive(Subcontract, OrZero(c.subcontract));
    AddLine(lines, Travel, OrZero(c.travel), c.labor + OrZero(c.material) + OrZero(c.subcontract), 0, 0, 0);
    lines := lines + Positive(Travel, OrZero(c.travel));
    AddLine(lines, Odc, OrZero(c.odc), c.labor + OrZero(c.material) + OrZero(c.subcontract) +
      OrZero(c.travel), 0, 0, 0);
    lines := lines + Positive(Odc, OrZero(c.odc));
  }

  /** The cost lines of a breakdown: all direct cost, and all indirect cost but material handling. */
  method CostLines(c: Costs, r: IndirectRates) returns (lines: seq<BillingLine>)
    ensures var i := IndirectCosts(c, r); Sums(lines, TotalDirect(c), i.fringe + i.overhead + i.ga, 0, 0)
  {
    hide Sums, Positive, AtRate, IndirectCosts, TotalDirect;
    var i, direct := IndirectCosts(c, r), TotalDirect(c);
    IndirectNonNegative(c, r);
    lines := DirectLines(c);
    AddLine(lines, Fringe, i.fringe, direct, 0, 0, 0);
    lines := lines + Positive(Fringe, i.fringe);
    AddLine(lines, Overhead, i.overhead, direct, i.fringe, 0, 0);
    lines := lines + Positive(Overhead, i.overhead);
    AddLine(lines, GeneralAdmin, i.ga, direct, i.fringe + i.overhead, 0, 0);
    lines := lines + Positive(GeneralAdmin, i.ga);
  }

  lemma FirstLine(amount: int)
    ensures Sums([BillingLine(DirectLabor, amount)], amount, 0, 0, 0)
  {
    assert [BillingLine(DirectLabor, amount)][..0] == [];
  }

  /** A cost-plus bill. Its lines carry the direct cost, the fee and the withholding in full, but
      material handling is charged in total_indirect_cost and never gets a line: so the indirect
      lines add up to the indirect cost, as documented, exactly when handling comes to nothing. */
  method CalculateCostPlus(b: BillingInput) returns (r: Outcome<BillingResult, BillingError>)
    requires IsCostPlus(b.contractType)
    ensures r.Ok? <==> Complete(b)
    ensures r.Ok? ==> IsBill(b, r.value)
    ensures r.Ok? ==> r.value.direct == TotalDirect(b.costs.value)
    ensures r.Ok? ==> r.value.direct + r.value.indirect == CostPlusCost(b.costs.value, b.rates.value)
    ensures r.Ok? ==> var handling := IndirectCosts(b.costs.value, b.rates.value).handling;
      && Sums(r.value.lines, r.value.direct, r.value.indirect - handling, Max(0, r.value.fee), Max(0, r.value.withheld))
      && LineSum(r.value.lines) ==
         r.value.direct + r.value.indirect - handling + Max(0, r.value.fee) - Max(0, r.value.withheld)
      && (KindSum(r.value.lines, INDIRECT_LINES) == r.value.indirect <==> handling == 0)
  {
    hide AtRate, LineSum, KindSum, Positive, IndirectCosts, CapAt, FeeOn, IsBill, Sums;
    if b.costs.None? {
      return Err(CostsRequired);
    }
    if b.rates.None? {
      return Err(RatesRequired);
    }
    var lines := CostLines(b.costs.value, b.rates.value);
    var i, direct := IndirectCosts(b.costs.value, b.rates.value), TotalDirect(b.costs.value);
    var indirect := i.fringe + i.overhead + i.ga + i.handling;
    var fee := FeeOn(direct + indirect, b.feeRate, b.feeCeiling);
    AddLine(lines, Fee, fee, direct, indirect - i.handling, 0, 0);
    lines := lines + Positive(Fee, fee);
    var (funded, fundingLimited) := CapAt(direct + indirect + fee, b.cumulative, b.funding);
    var (gross, ceilingLimited) := CapAt(funded, b.cumulative, b.ceiling);
    var withheld, net := Withhold(gross, b.withholding);
    AddWithholding(lines, withheld, direct, indirect - i.handling, Max(0, fee));
    if withheld > 0 {
      lines := lines + [BillingLine(WithholdingLine, -withheld)];
    }
    LinesPartition(lines);
    SumsAre(lines, direct, indirect - i.handling, Max(0, fee), Max(0, withheld));
    var bill := BillingResult(lines, direct, indirect, fee, gross, withheld, net, fundingLimited, ceilingLimited);
    CostPlusIsBill(b, bill);
    r := Ok(bill);
  }

  lemma CostPlusIsBill(b: BillingInput, r: BillingResult)
    requires IsCostPlus(b.contractType) && Complete(b)
    requires r.direct + r.indirect + r.fee == Uncapped(b) && r.withheld + r.net == r.gross
    requires r.withheld == AtRate(r.gross, b.withholding)
    requires r.gross >= 0 && 0.0 <= b.withholding <= 1.0 ==> 0 <= r.withheld <= r.gross && 0 <= r.net <= r.gross
    requires r.fundingLimited == CapAt(Uncapped(b), b.cumulative, b.funding).1
    requires var funded := CapAt(Uncapped(b), b.cumulative, b.funding).0;
             (r.gross, r.ceilingLimited) == CapAt(funded, b.cumulative, b.ceiling)
    ensures IsBill(b, r)
  {
    hide AtRate, Uncapped;
    CapsSignal(Uncapped(b), b.cumulative, b.funding, b.ceiling);
    if Earning(b) {
      GrossNonNegative(b);
    }
  }

  lemma CapFlag(amount: int, cumulative: int, limit: Option<int>)
    ensures CapAt(amount, cumulative, limit).1 <==> limit.Some? && amount > Max(0, limit.value - cumulative)
  {
  }

  /** The flags of the two caps say whether the amount was cut. */
  lemma CapsSignal(amount: int, cumulative: int, funding: Option<int>, ceiling: Option<int>)
    ensures var (funded, first) := CapAt(amount, cumulative, funding);
            var (gross, second) := CapAt(funded, cumulative, ceiling);
            if first || second then gross < amount else gross == amount
  {
  }

  /** One dollar of labor and one of material at 10% handling: 0.10 of indirect cost, and no line. */
  method BillWithHandling() returns (r: Outcome<BillingResult, BillingError>)
    ensures r.Ok? && r.value.indirect == 10 && KindSum(r.value.lines, INDIRECT_LINES) == 0
  {
    hide KindSum, LineSum, Sums;
    var c := Costs(100, Some(100), None, None, None);
    var rates: IndirectRates := Rates(0.0, 0.0, 0.0, 0.1);
    assert AtRate(100, 0.1) == 10 && AtRate(100, 0.0) == AtRate(200, 0.0) == AtRate(210, 0.0) == 0;
    var b := BillingInput(Cpff, Some(c), Some(rates), 0.0, None, [], None, [], 0.0, 0, None, None);
    r := CalculateCostPlus(b);
    SumsAre(r.value.lines, r.value.direct, r.value.indirect - 10, Max(0, r.value.fee), Max(0, r.value.withheld));
  }

  lemma SumsAre(lines: seq<BillingLine>, d: int, i: int, f: int, w: int)
    requires Sums(lines, d, i, f, w)
    ensures KindSum(lines, INDIRECT_LINES) == i && KindSum(lines, DIRECT_LINES) == d && KindSum(lines, {Fee}) == f
    ensures KindSum(lines, {WithholdingLine}) == -w && KindSum(lines, {MilestoneLine}) == 0
  {
  }

  method LaborLines(entries: seq<LaborEntry>) returns (lines: seq<BillingLine>, total: int)
    ensures total == LaborTotal(entries) == LineSum(lines)
    ensures |lines| == |entries|
    ensures forall i :: 0 <= i < |entries| ==>
      lines[i] == BillingLine(DirectLabor, LaborAmount(entries[i]))
  {
    hide LaborAmount;
    lines, total := [], 0;
    for i := 0 to |entries|
      invariant total == LaborTotal(entries[..i]) == LineSum(lines)
      invariant |lines| == i
      invariant forall j :: 0 <= j < i ==>
        lines[j] == BillingLine(DirectLabor, LaborAmount(entries[j]))
    {
      assert entries[..i + 1][..i] == entries[..i];
      var amount := LaborAmount(entries[i]);
      assert (lines + [BillingLine(DirectLabor, amount)])[..|lines|] == lines;
      lines, total := lines + [BillingLine(DirectLabor, amount)], total + amount;
    }
    assert entries[..|entries|] == entries;
  }

  /** T&M and labor-hour bills: burdened rates, no separate indirect cost or fee. */
  method CalculateHourly(b: BillingInput) returns (r: BillingResult)
    requires b.contractType in {TimeAndMaterials, LaborHour}
    ensures IsBill(b, r) && LineSum(r.lines) == Uncapped(b)
  {
    hide AtRate, LineSum, Positive, LaborTotal;
    var lines, total := LaborLines(b.labor);
    if b.contractType == TimeAndMaterials {
      AppendPositive(lines, DirectMaterial, Materials(b));
      lines, total := lines + Positive(DirectMaterial, Materials(b)), total + Materials(b);
    }
    var (funded, fundingLimited) := CapAt(total, b.cumulative, b.funding);
    var (gross, ceilingLimited) := CapAt(funded, b.cumulative, b.ceiling);
    var withheld, net := Withhold(gross, b.withholding);
    GrossNonNegative(b);
    r := BillingResult(lines, total, 0, 0, gross, withheld, net, fundingLimited, ceilingLimited);
  }

  /** Fixed-price bills: completed milestones, the funding limit, and no ceiling. */
  method CalculateFixedPrice(b: BillingInput) returns (r: BillingResult)
    requires b.contractType in {FirmFixedPrice, FixedPriceIncentive}
    ensures IsBill(b, r) && LineSum(r.lines) == Uncapped(b) && !r.ceilingLimited
  {
    hide AtRate;
    var lines, total: int := [], 0;
    for i := 0 to |b.milestones|
      invariant total == MilestoneTotal(b.milestones[..i]) == LineSum(lines)
    {
      assert b.milestones[..i + 1][..i] == b.milestones[..i];
      var m := b.milestones[i];
      if m.completion >= 100.0 {
        assert (lines + [BillingLine(MilestoneLine, m.amount)])[..|lines|] == lines;
        lines, total := lines + [BillingLine(MilestoneLine, m.amount)], total + m.amount;
      }
    }
    assert b.milestones[..|b.milestones|] == b.milestones;
    var (gross, fundingLimited) := CapAt(total, b.cumulative, b.funding);
    var withheld, net := Withhold(gross, b.withholding);
    GrossNonNegative(b);
    r := BillingResult(lines, total, 0, 0, gross, withheld, net, fundingLimited, false);
  }

  method CalculateBilling(b: BillingInput) returns (r: Outcome<BillingResult, BillingError>)
    ensures r.Ok? <==> Complete(b)
    ensures r.Ok? ==> IsBill(b, r.value)
  {
    match b.contractType
    case TimeAndMaterials | LaborHour =>
      var result := CalculateHourly(b);
      r := Ok(result);
    case FirmFixedPrice =>
      var result := CalculateFixedPrice(b);
      r := Ok(result);
    case FixedPriceIncentive =>
      var stripped := BillingInput(FixedPriceIncentive, None, None, 0.0, None, [], None, b.milestones,
                                   b.withholding, b.cumulative, b.funding, b.ceiling);
      var result := CalculateFixedPrice(stripped);
      r := Ok(result);
    case _ =>
      r := CalculateCostPlus(b);
  }

  // ---- A contract's life ----

  ghost predicate AllComplete(bills: seq<BillingInput>) { forall i :: 0 <= i < |bills| ==> Complete(bills[i]) }

  ghost function Billed(bills: seq<BillingInput>): int
    requires AllComplete(bills)
  {
    if bills == [] then 0
    else Billed(bills[..|bills| - 1]) + Gross(bills[|bills| - 1])
  }

  /** Successive periods of one contract: each is told exactly what the earlier ones billed. */
  ghost predicate Life(bills: seq<BillingInput>) {
    && AllComplete(bills)
    && forall i :: 0 <= i < |bills| ==> bills[i].cumulative == Billed(bills[..i])
  }

  ghost predicate AllEarning(bills: seq<BillingInput>) { forall i :: 0 <= i < |bills| ==> Earning(bills[i]) }

  lemma BilledNext(bills: seq<BillingInput>, i: nat)
    requires AllComplete(bills) && i < |bills|
    ensures Billed(bills[..i + 1]) == Billed(bills[..i]) + Gross(bills[i])
  {
    hide Gross;
    assert bills[..i + 1][..i] == bills[..i];
  }

  /** After a period under a limit, the total is within the limit if what it started from was; if it
      was not, the period bills nothing and the total stays above. */
  lemma CapKeeps(amount: int, cumulative: int, limit: int)
    ensures cumulative <= limit ==> cumulative + CapAt(amount, cumulative, Some(limit)).0 <= limit
    ensures cumulative > limit && amount >= 0 ==> CapAt(amount, cumulative, Some(limit)).0 == 0
  {
  }

  /** The limit leaves room for the period: it was not passed before, or the period itself brings the
      total back within it, which takes a negative bill. */
  predicate Room(b: BillingInput, limit: int)
    requires Complete(b)
  {
    b.cumulative <= limit || b.cumulative + Uncapped(b) <= limit
  }

  lemma RoomOfEarning(b: BillingInput, limit: int)
    requires Complete(b) && Earning(b)
    ensures Room(b, limit) <==> b.cumulative <= limit
  {
    hide Uncapped;
    GrossNonNegative(b);
  }

  lemma WithinFundingIff(b: BillingInput)
    requires Complete(b) && b.funding.Some?
    ensures b.cumulative + Gross(b) <= b.funding.value <==> Room(b, b.funding.value)
  {
    hide Uncapped;
  }

  lemma WithinCeilingIff(b: BillingInput)
    requires Complete(b) && b.ceiling.Some? && HasCeiling(b.contractType)
    ensures b.cumulative + Gross(b) <= b.ceiling.value <==> Room(b, b.ceiling.value)
  {
    hide Uncapped;
  }

  /** Fixed-price bills do not read the ceiling. They end within it exactly when the milestones do by
      themselves, or the funding limit and what was billed before are both within it. */
  predicate FixedPriceRoom(b: BillingInput, ceiling: int)
    requires Complete(b)
  {
    || b.cumulative + Uncapped(b) <= ceiling
    || (b.funding.Some? && Max(b.cumulative, b.funding.value) <= ceiling)
  }

  lemma FixedPriceWithinCeilingIff(b: BillingInput)
    requires Complete(b) && b.ceiling.Some? && !HasCeiling(b.contractType)
    ensures b.cumulative + Gross(b) <= b.ceiling.value <==> FixedPriceRoom(b, b.ceiling.value)
  {
    hide Uncapped;
  }

  /** What a period asks of its ceiling, whatever the contract type. */
  predicate CeilingFits(b: BillingInput)
    requires Complete(b) && b.ceiling.Some?
  {
    if HasCeiling(b.contractType) then Room(b, b.ceiling.value) else FixedPriceRoom(b, b.ceiling.value)
  }

  /** Funding, over a whole life of any contract types, with limits that come, go, rise or fall: after
      a period that has a limit the total is within it exactly when the limit left room on arrival.
      Without negative fees that is: when the limit was not below what had been billed. */
  lemma FundingNeverExceeded(bills: seq<BillingInput>)
    requires Life(bills)
    ensures forall i :: 0 <= i < |bills| && bills[i].funding.Some? ==>
              (Billed(bills[..i + 1]) <= bills[i].funding.value <==> Room(bills[i], bills[i].funding.value))
    ensures AllEarning(bills) ==> forall i :: 0 <= i < |bills| && bills[i].funding.Some? ==>
              (Room(bills[i], bills[i].funding.value) <==> Billed(bills[..i]) <= bills[i].funding.value)
  {
    hide Gross, Billed, Room;
    forall i | 0 <= i < |bills| && bills[i].funding.Some?
      ensures Billed(bills[..i + 1]) <= bills[i].funding.value <==> Room(bills[i], bills[i].funding.value)
      ensures AllEarning(bills) ==>
                (Room(bills[i], bills[i].funding.value) <==> Billed(bills[..i]) <= bills[i].funding.value) {
      BilledNext(bills, i);
      WithinFundingIff(bills[i]);
      if AllEarning(bills) {
        RoomOfEarning(bills[i], bills[i].funding.value);
      }
    }
  }

  /** Ceiling: the same for every period that carries one. Cost-plus, T&M and labor-hour periods need
      the room on arrival only; fixed-price periods must fit by themselves or through their funding. */
  lemma CeilingNeverExceeded(bills: seq<BillingInput>)
    requires Life(bills)
    ensures forall i :: 0 <= i < |bills| && bills[i].ceiling.Some? ==>
              (Billed(bills[..i + 1]) <= bills[i].ceiling.value <==> CeilingFits(bills[i]))
    ensures AllEarning(bills) ==> forall i :: 0 <= i < |bills| && Ceilinged(bills[i]) ==>
              (CeilingFits(bills[i]) <==> Billed(bills[..i]) <= bills[i].ceiling.value)
  {
    hide Gross, Billed, Room, FixedPriceRoom;
    forall i | 0 <= i < |bills| && bills[i].ceiling.Some?
      ensures Billed(bills[..i + 1]) <= bills[i].ceiling.value <==> CeilingFits(bills[i])
      ensures AllEarning(bills) && Ceilinged(bills[i]) ==>
                (CeilingFits(bills[i]) <==> Billed(bills[..i]) <= bills[i].ceiling.value) {
      BilledNext(bills, i);
      if HasCeiling(bills[i].contractType) {
        WithinCeilingIff(bills[i]);
        if AllEarning(bills) {
          RoomOfEarning(bills[i], bills[i].ceiling.value);
        }
      } else {
        FixedPriceWithinCeilingIff(bills[i]);
      }
    }
  }

  predicate Ceilinged(b: BillingInput) { HasCeiling(b.contractType) && b.ceiling.Some? }

  /** In particular limits that are present, start at zero or more and never fall are never passed,
      whatever the fee rate. */
  lemma {:induction false} FundingKeptWhileLimitsRise(bills: seq<BillingInput>)
    requires Life(bills) && bills != []
    requires forall i :: 0 <= i < |bills| ==> bills[i].funding.Some? && bills[i].funding.value >= 0
    requires forall i :: 0 < i < |bills| ==> bills[i - 1].funding.value <= bills[i].funding.value
    ensures Billed(bills) <= bills[|bills| - 1].funding.value
  {
    hide Uncapped;
    var n := |bills| - 1;
    var init, last := bills[..n], bills[n];
    LifeBefore(bills);
    if n > 0 {
      FundingKeptWhileLimitsRise(init);
    }
    CapKeeps(Uncapped(last), last.cumulative, last.funding.value);
  }

  function Milestones(amount: nat, cumulative: int, funding: int): BillingInput {
    var m: MilestoneEntry := Milestone(amount, 100.0);
    BillingInput(FirmFixedPrice, None, None, 0.0, None, [], None, [m], 0.0, cumulative, Some(funding), None)
  }

  lemma GrossOfMilestones(amount: nat, cumulative: int, funding: int)
    ensures Gross(Milestones(amount, cumulative, funding)) == Min(amount, Max(0, funding - cumulative))
  {
    var m: MilestoneEntry := Milestone(amount, 100.0);
    assert [m][..0] == [];
    assert MilestoneTotal([m]) == amount;
  }

  /** A limit lowered from 100 to 50 after 100 was billed: the total stays above it. */
  lemma LoweredLimitIsPassed()
    ensures var bills := [Milestones(100, 0, 100), Milestones(10, 100, 50)];
            Life(bills) && AllEarning(bills) && Billed(bills) == 100
  {
    hide Gross;
    var bills := [Milestones(100, 0, 100), Milestones(10, 100, 50)];
    GrossOfMilestones(100, 0, 100);
    GrossOfMilestones(10, 100, 50);
    assert bills[..0] == [] && bills[..1] == [bills[0]] && bills[..1][..0] == [];
    assert Billed(bills[..0]) == 0;
    assert Billed(bills[..1]) == 100;
  }

  lemma LifeBefore(bills: seq<BillingInput>)
    requires Life(bills) && bills != []
    ensures Life(bills[..|bills| - 1])
  {
    var init := bills[..|bills| - 1];
    assert forall i :: 0 <= i < |init| ==> init[..i] == bills[..i];
  }

  lemma {:induction false} CeilingKeptWhileLimitsRise(bills: seq<BillingInput>)
    requires Life(bills) && bills != []
    requires forall i :: 0 <= i < |bills| ==> HasCeiling(bills[i].contractType)
    requires forall i :: 0 <= i < |bills| ==> bills[i].ceiling.Some? && bills[i].ceiling.value >= 0
    requires forall i :: 0 < i < |bills| ==> bills[i - 1].ceiling.value <= bills[i].ceiling.value
    ensures Billed(bills) <= bills[|bills| - 1].ceiling.value
  {
    hide Uncapped;
    var n := |bills| - 1;
    var init, last := bills[..n], bills[n];
    LifeBefore(bills);
    if n > 0 {
      CeilingKeptWhileLimitsRise(init);
    }
    CapKeeps(CapAt(Uncapped(last), last.cumulative, last.funding).0, last.cumulative, last.ceiling.value);
  }

  // ---- The fee over a contract's life ----

  /** What a fee is taken of, in one period of a cost-plus contract. */
  datatype FeePeriod = FeePeriod(cost: int, rate: real)

  function RawFee(p: FeePeriod): int { AtRate(p.cost, p.rate) }

  /** The fees of successive periods as the bills compute them, under one ceiling. */
  function FeesEarned(periods: seq<FeePeriod>, ceiling: int): int {
    if periods == [] then 0
    else
      var last := periods[|periods| - 1];
      FeesEarned(periods[..|periods| - 1], ceiling) + FeeOn(last.cost, last.rate, Some(ceiling))
  }

  /** The fee fits what the ceiling has left, or nothing was earned before. */
  ghost predicate FeeFits(periods: seq<FeePeriod>, ceiling: int, n: nat)
    requires n < |periods|
  {
    var earned := FeesEarned(periods[..n], ceiling);
    earned == 0 || RawFee(periods[n]) <= ceiling - earned
  }

  lemma FeesGrow(periods: seq<FeePeriod>, ceiling: int, n: nat)
    requires n < |periods| && ceiling >= 0 && periods[n].cost >= 0 && periods[n].rate >= 0.0
    ensures var before, after := FeesEarned(periods[..n], ceiling), FeesEarned(periods[..n + 1], ceiling);
            && after == before + Min(RawFee(periods[n]), ceiling)
            && after >= before
            && (0 <= before <= ceiling ==> (after <= ceiling <==> FeeFits(periods, ceiling, n)))
  {
    hide AtRate;
    assert periods[..n + 1][..n] == periods[..n];
    AtRateNonNegative(periods[n].cost, periods[n].rate);
  }

  /** "Maximum total fee" holds over a contract's life exactly when every period's raw fee fits what
      the earlier ones left, or they earned nothing: the ceiling itself is applied to each period
      afresh, because the calculator is told that nothing was earned. */
  lemma {:induction false} TotalFeeWithinCeilingIff(periods: seq<FeePeriod>, ceiling: int, n: nat)
    requires ceiling >= 0 && n <= |periods| && forall i :: 0 <= i < |periods| ==>
      periods[i].cost >= 0 && periods[i].rate >= 0.0
    ensures FeesEarned(periods[..n], ceiling) >= 0
    ensures FeesEarned(periods[..n], ceiling) <= ceiling <==> forall i :: 0 <= i < n ==> FeeFits(periods, ceiling, i)
  {
    hide FeeFits, RawFee;
    if n == 0 {
      assert periods[..0] == [];
    } else {
      TotalFeeWithinCeilingIff(periods, ceiling, n - 1);
      FeesGrow(periods, ceiling, n - 1);
    }
  }

  /** Two periods that earn 60 each under a fee ceiling of 100. */
  lemma FeePassesItsCeiling()
    ensures FeesEarned([FeePeriod(1000, 0.06), FeePeriod(1000, 0.06)], 100) == 120
  {
    var p := FeePeriod(1000, 0.06);
    assert [p, p][..1] == [p] && [p][..0] == [];
    assert AtRate(1000, 0.06) == 60;
    assert FeesEarned([p], 100) == 60;
  }

  /** The fee of a cost-plus bill is one such period, taken of its cost. */
  lemma FeeOfBill(b: BillingInput)
    requires Complete(b) && IsCostPlus(b.contractType)
    ensures var cost := CostPlusCost(b.costs.value, b.rates.value);
            b.feeCeiling.Some? ==> Uncapped(b) == cost + FeesEarned([FeePeriod(cost, b.feeRate)], b.feeCeiling.value)
  {
    hide AtRate, CostPlusCost;
    var p := FeePeriod(CostPlusCost(b.costs.value, b.rates.value), b.feeRate);
    assert [p][..0] == [];
  }

  /** Told what was earned before, calculate_fee would keep the total within the ceiling. */
  lemma FeeWouldStayWithin(cost: int, rate: real, ceiling: int, earned: int)
    requires earned <= ceiling
    ensures earned + CalculateFee(cost, rate, Some(ceiling), earned).0 <= ceiling
  {
    hide AtRate;
    CapKeeps(AtRate(cost, rate), earned, ceiling);
  }

  /** Fixed-price bills do not depend on the ceiling at all, so it is not a cap for them. */
  lemma FixedPriceIgnoresCeiling(b: BillingInput, ceiling: Option<int>)
    requires !HasCeiling(b.contractType)
    ensures Gross(b) == Gross(b.(ceiling := ceiling))
  {
    assert b.(ceiling := ceiling).contractType == b.contractType;
  }

  lemma FixedPriceCanPassCeiling()
    ensures var m: MilestoneEntry := Milestone(200, 100.0);
            Gross(BillingInput(FirmFixedPrice, None, None, 0.0, None, [], None, [m], 0.0, 0, None, Some(100))) == 200
  {
    var m: MilestoneEntry := Milestone(200, 100.0);
    assert [m][..0] == [];
  }
}
