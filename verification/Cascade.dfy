/** finance_engines/allocation_cascade.py: indirect cost pools charged step by step. */
module Cascade {
  import opened Rounding

  datatype Base = PoolBalance | Cumulative

  datatype Step = Step(poolFrom: string, poolTo: string, rateType: string, base: Base)

  datatype StepResult = StepResult(step: Step, source: int, rate: real, amount: int, cumulative: int)

  type Pools = map<string, int>

  datatype Progress = Progress(results: seq<StepResult>, pools: Pools, cumulative: int)

  function Balance(pools: Pools, pool: string): int { if pool in pools then pools[pool] else 0 }

  function RateOf(rates: map<string, real>, rateType: string): real {
    if rateType in rates then rates[rateType] else 0.0
  }

  /** _apply_rate and the cascade's own rounding: both to the cent, half up. */
  function AtRate(base: int, rate: real): int { RoundHalfUp(base as real * rate) }

  /** A rate on a base, rounded to the cent, half up. */
  lemma AtRateIs(base: int, rate: real)
    ensures AtRate(base, rate) == RoundHalfUp(base as real * rate)
  {
  }

  function RunStep(p: Progress, step: Step, rates: map<string, real>): Progress {
    var source, rate := Balance(p.pools, step.poolFrom), RateOf(rates, step.rateType);
    var amount := AtRate(if step.base == PoolBalance then source else p.cumulative, rate);
    var cumulative := p.cumulative + source + amount;
    Progress(p.results + [StepResult(step, source, rate, amount, cumulative)],
             p.pools[step.poolTo := Balance(p.pools, step.poolTo) + amount],
             cumulative)
  }

  function Run(steps: seq<Step>, pools: Pools, rates: map<string, real>): (p: Progress)
    ensures |p.results| == |steps|
  {
    if steps == [] then Progress([], pools, 0)
    else RunStep(Run(steps[..|steps| - 1], pools, rates), steps[|steps| - 1], rates)
  }

  method ExecuteCascade(steps: seq<Step>, pools: Pools, rates: map<string, real>)
      returns (results: seq<StepResult>, balances: Pools)
    ensures results == Run(steps, pools, rates).results && balances == Run(steps, pools, rates).pools
  {
    hide AtRate, Balance, RateOf;
    results, balances := [], pools;
    var cumulative := 0;
    for i := 0 to |steps|
      invariant Progress(results, balances, cumulative) == Run(steps[..i], pools, rates)
    {
      assert steps[..i + 1][..i] == steps[..i];
      var step := steps[i];
      var source, rate := Balance(balances, step.poolFrom), RateOf(rates, step.rateType);
      var base := if step.base == PoolBalance then source else cumulative;
      var amount := AtRate(base, rate);
      balances := balances[step.poolTo := Balance(balances, step.poolTo) + amount];
      cumulative := cumulative + source + amount;
      results := results + [StepResult(step, source, rate, amount, cumulative)];
    }
    assert steps[..|steps|] == steps;
  }

  // ---- Growth of the pools ----

  ghost function Total(pools: Pools): int {
    if pools == map[] then 0
    else
      var k :| k in pools;
      pools[k] + Total(pools - {k})
  }

  lemma {:induction false} TotalWithout(pools: Pools, k: string)
    requires k in pools
    ensures Total(pools) == pools[k] + Total(pools - {k})
    decreases |pools|
  {
    var first :| first in pools && Total(pools) == pools[first] + Total(pools - {first});
    if first != k {
      TotalWithout(pools - {first}, k);
      TotalWithout(pools - {k}, first);
      assert pools - {first} - {k} == pools - {k} - {first};
    }
  }

  lemma TotalAfterUpdate(pools: Pools, k: string, v: int)
    ensures Total(pools[k := v]) == Total(pools) - Balance(pools, k) + v
  {
    var updated := pools[k := v];
    TotalWithout(updated, k);
    if k in pools {
      TotalWithout(pools, k);
      assert updated - {k} == pools - {k};
    } else {
      assert updated - {k} == pools;
    }
  }

  function Allocated(results: seq<StepResult>): int {
    if results == [] then 0 else Allocated(results[..|results| - 1]) + results[|results| - 1].amount
  }

  /** For any steps, the pools together grow by exactly the amounts allocated: the cascade charges
      target pools and takes nothing out of a source. */
  lemma {:induction false} GrowthIsAllocated(steps: seq<Step>, pools: Pools, rates: map<string, real>)
    ensures Total(Run(steps, pools, rates).pools) == Total(pools) + Allocated(Run(steps, pools, rates).results)
  {
    if steps != [] {
      hide AtRate;
      var before := Run(steps[..|steps| - 1], pools, rates);
      var step, after := steps[|steps| - 1], Run(steps, pools, rates);
      GrowthIsAllocated(steps[..|steps| - 1], pools, rates);
      assert after.results[..|before.results|] == before.results;
      TotalAfterUpdate(before.pools, step.poolTo, after.pools[step.poolTo]);
    }
  }

  /** A pool that no step charges keeps its balance, and none that was there disappears. */
  lemma {:induction false} UnchargedPoolsKeepBalance(
    steps: seq<Step>, pools: Pools, rates: map<string, real>, pool: string)
    requires forall s :: s in steps ==> s.poolTo != pool
    ensures Balance(Run(steps, pools, rates).pools, pool) == Balance(pools, pool)
  {
    if steps != [] {
      hide AtRate;
      assert steps[|steps| - 1] in steps;
      UnchargedPoolsKeepBalance(steps[..|steps| - 1], pools, rates, pool);
    }
  }

  function DcaaCascade(): seq<Step> {
    [Step("DIRECT_LABOR", "FRINGE", "fringe", PoolBalance),
     Step("DIRECT_COST", "OVERHEAD", "overhead", Cumulative),
     Step("TOTAL_DIRECT", "G&A", "g&a", Cumulative)]
  }

  /** What the standard cascade charges, for pools in which no step's target is also a source. */
  lemma DcaaCharges(pools: Pools, rates: map<string, real>)
    ensures var after := Run(DcaaCascade(), pools, rates).pools;
            var labor, cost := Balance(pools, "DIRECT_LABOR"), Balance(pools, "DIRECT_COST");
            var fringe := AtRate(labor, RateOf(rates, "fringe"));
            var overhead := AtRate(labor + fringe, RateOf(rates, "overhead"));
            var ga := AtRate(labor + fringe + cost + overhead, RateOf(rates, "g&a"));
            && Balance(after, "FRINGE") == Balance(pools, "FRINGE") + fringe
            && Balance(after, "OVERHEAD") == Balance(pools, "OVERHEAD") + overhead
            && Balance(after, "G&A") == Balance(pools, "G&A") + ga
  {
    hide AtRate, RateOf, Run;
    var steps := DcaaCascade();
    DistinctPools();
    RunThree(steps[0], steps[1], steps[2], pools, rates);
    assert steps == [steps[0], steps[1], steps[2]];
  }

  lemma RunThree(first: Step, second: Step, third: Step, pools: Pools, rates: map<string, real>)
    ensures Run([first, second, third], pools, rates) ==
            RunStep(RunStep(RunStep(Progress([], pools, 0), first, rates), second, rates), third, rates)
  {
    hide RunStep;
    var steps := [first, second, third];
    assert steps[..2] == [first, second] && [first, second][..1] == [first] && [first][..0] == [];
    assert Run([first], pools, rates) == RunStep(Progress([], pools, 0), first, rates);
    assert Run([first, second], pools, rates) == RunStep(Run([first], pools, rates), second, rates);
  }

  /** Documented is overhead on direct costs plus fringe. The charge is as documented exactly when rounding
      hides what the other direct costs would add. */
  lemma OverheadAsDocumentedIff(pools: Pools, rates: map<string, real>)
    ensures var labor, cost := Balance(pools, "DIRECT_LABOR"), Balance(pools, "DIRECT_COST");
            var fringe, rate := AtRate(labor, RateOf(rates, "fringe")), RateOf(rates, "overhead");
            var charged := Balance(Run(DcaaCascade(), pools, rates).pools, "OVERHEAD") - Balance(pools, "OVERHEAD");
            charged == AtRate(labor + cost + fringe, rate) <==>
            AtRate(labor + fringe, rate) == AtRate(labor + cost + fringe, rate)
  {
    hide AtRate, RateOf, Run, Balance;
    DcaaCharges(pools, rates);
  }

  /** A dollar of labor and one of other direct cost at 100% overhead: 1.00 is charged, and not 2.00. */
  lemma OverheadSkipsOtherDirect()
    ensures var pools: Pools := map["DIRECT_LABOR" := 100, "DIRECT_COST" := 100];
            Balance(Run(DcaaCascade(), pools, map["overhead" := 1.0]).pools, "OVERHEAD") == 100
  {
    hide Run;
    var pools: Pools := map["DIRECT_LABOR" := 100, "DIRECT_COST" := 100];
    assert |"fringe"| == 6 && |"overhead"| == 8 && |"OVERHEAD"| == 8 && |"DIRECT_LABOR"| == 12 && |"DIRECT_COST"| == 11;
    assert AtRate(100, 0.0) == 0 && AtRate(100, 1.0) == 100;
    DcaaCharges(pools, map["overhead" := 1.0]);
  }

  lemma DistinctPools()
    ensures "FRINGE" != "OVERHEAD" && "FRINGE" != "G&A" && "OVERHEAD" != "G&A"
    ensures "DIRECT_COST" != "FRINGE" && "TOTAL_DIRECT" != "FRINGE" && "TOTAL_DIRECT" != "OVERHEAD"
  {
    assert |"FRINGE"| == 6 && |"OVERHEAD"| == 8 && |"G&A"| == 3 && |"DIRECT_COST"| == 11 && |"TOTAL_DIRECT"| == 12;
  }
}
