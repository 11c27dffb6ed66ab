/** finance_engines/allocation.py: dividing an amount over targets by ratio, with one target taking
    the rounding remainder, or greedily in a sorted order. Amounts are whole minor units. */
module Allocation {
  import opened Common
  import opened Rounding
  import opened StableSort

  /** A negative weight is refused when the target is constructed. */
  datatype TargetRecord = Target(id: string, eligible: Option<int>, weight: real, priority: int, date: Option<Day>)
  type AllocationTarget = t: TargetRecord | t.weight >= 0.0 witness Target("", None, 0.0, 0, None)

  /** Proleptic ordinals, from date.min to date.max. */
  type Day = d: int | 1 <= d <= 3652059 witness 1

  datatype AllocationLine = AllocationLine(id: string, amount: int, remaining: int, isFull: bool)

  datatype AllocationResult = AllocationResult(
    source: int, lines: seq<AllocationLine>, total: int, unallocated: int, adjustment: int)

  datatype AllocationError = MissingEligible | ZeroWeight

  datatype AllocationMethod = ProRata | Fifo | Lifo | Specific | Weighted | Equal

  // ---- Allocation by ratio ----

  function Exact(amount: int, ratio: real): real { amount as real * ratio }

  function Rounded(amount: int, ratio: real): int { RoundHalfUp(Exact(amount, ratio)) }

  function RoundedSum(amount: int, ratios: seq<real>): int {
    if ratios == [] then 0
    else RoundedSum(amount, ratios[..|ratios| - 1]) + Rounded(amount, ratios[|ratios| - 1])
  }

  function RealSum(s: seq<real>): real {
    if s == [] then 0.0 else RealSum(s[..|s| - 1]) + s[|s| - 1]
  }

  /** The uncapped share of target i: rounded, or for the rounding target what the targets before it
      have left over. */
  function Share(amount: int, ratios: seq<real>, index: int, i: nat): int
    requires i < |ratios|
  {
    if i == index then amount - RoundedSum(amount, ratios[..i]) else Rounded(amount, ratios[i])
  }

  function Shares(amount: int, ratios: seq<real>, index: int, n: nat): (s: seq<int>)
    requires n <= |ratios|
    ensures |s| == n && forall i :: 0 <= i < n ==> s[i] == Share(amount, ratios, index, i)
  {
    if n == 0 then [] else Shares(amount, ratios, index, n - 1) + [Share(amount, ratios, index, n - 1)]
  }

  /** A share above what the target is eligible for is cut down to it. */
  function Capped(t: AllocationTarget, share: int): int {
    if t.eligible.Some? then Min(share, t.eligible.value) else share
  }

  function RatioLine(t: AllocationTarget, share: int): AllocationLine {
    if t.eligible.None? then AllocationLine(t.id, share, 0, true)
    else
      var left := t.eligible.value - Capped(t, share);
      AllocationLine(t.id, Capped(t, share), left, left == 0)
  }

  function RatioLines(targets: seq<AllocationTarget>, shares: seq<int>): (lines: seq<AllocationLine>)
    requires |targets| == |shares|
    ensures |lines| == |targets|
  {
    seq(|targets|, i requires 0 <= i < |targets| => RatioLine(targets[i], shares[i]))
  }

  function LineTotal(lines: seq<AllocationLine>): int {
    if lines == [] then 0 else LineTotal(lines[..|lines| - 1]) + lines[|lines| - 1].amount
  }

  function ByRatio(amount: int, targets: seq<AllocationTarget>, ratios: seq<real>, index: int): AllocationResult
    requires |targets| == |ratios|
  {
    var lines := RatioLines(targets, Shares(amount, ratios, index, |ratios|));
    AllocationResult(amount, lines, LineTotal(lines), amount - LineTotal(lines), amount - RoundedSum(amount, ratios))
  }

  method AllocateByRatio(amount: int, targets: seq<AllocationTarget>, ratios: seq<real>, index: Option<int>)
      returns (r: AllocationResult)
    requires |targets| == |ratios| > 0
    ensures r == ByRatio(amount, targets, ratios, if index.Some? then index.value else |targets| - 1)
  {
    hide Rounded, RatioLine, Share, Shares, RoundHalfUp;
    var at := if index.Some? then index.value else |targets| - 1;
    var lines: seq<AllocationLine> := [];
    var soFar, total, naive := 0, 0, 0;
    ghost var shares := Shares(amount, ratios, at, |ratios|);
    for i := 0 to |targets|
      invariant |lines| == i && forall j :: 0 <= j < i ==> lines[j] == RatioLine(targets[j], shares[j])
      invariant i <= at || at < 0 ==> soFar == RoundedSum(amount, ratios[..i])
      invariant total == LineTotal(lines) && naive == RoundedSum(amount, ratios[..i])
    {
      ShareIs(amount, ratios, at, i);
      assert ratios[..i + 1][..i] == ratios[..i];
      var rounded := Rounded(amount, ratios[i]);
      var share := if i == at then amount - soFar else rounded;
      if i != at {
        soFar := soFar + rounded;
      }
      var line := RatioLine(targets[i], share);
      lines, total, naive := lines + [line], total + line.amount, naive + rounded;
    }
    assert ratios[..|ratios|] == ratios && lines == RatioLines(targets, shares);
    r := AllocationResult(amount, lines, total, amount - total, amount - naive);
  }

  lemma ShareIs(amount: int, ratios: seq<real>, index: int, i: nat)
    requires i < |ratios|
    ensures Share(amount, ratios, index, i) ==
            if i == index then amount - RoundedSum(amount, ratios[..i]) else Rounded(amount, ratios[i])
  {
  }

  lemma SharesStep(amount: int, ratios: seq<real>, index: int, n: nat)
    requires 0 < n <= |ratios|
    ensures Sum(Shares(amount, ratios, index, n)) ==
            Sum(Shares(amount, ratios, index, n - 1)) + Share(amount, ratios, index, n - 1)
  {
    hide Share;
    assert Shares(amount, ratios, index, n)[..n - 1] == Shares(amount, ratios, index, n - 1);
  }

  lemma RoundedSumStep(amount: int, ratios: seq<real>, lo: nat, n: nat)
    requires lo < n <= |ratios|
    ensures RoundedSum(amount, ratios[lo..n]) == RoundedSum(amount, ratios[lo..n - 1]) + Rounded(amount, ratios[n - 1])
  {
    hide Rounded;
    assert ratios[lo..n][..n - 1 - lo] == ratios[lo..n - 1];
  }

  lemma {:induction false} SharesBefore(amount: int, ratios: seq<real>, index: int, n: nat)
    requires n <= |ratios| && !(0 <= index < n)
    ensures Sum(Shares(amount, ratios, index, n)) == RoundedSum(amount, ratios[..n])
  {
    if n > 0 {
      hide Rounded, RoundedSum, Sum, Shares;
      SharesBefore(amount, ratios, index, n - 1);
      SharesStep(amount, ratios, index, n);
      RoundedSumStep(amount, ratios, 0, n);
    }
  }

  /** The shares add up to the amount plus whatever the targets after the rounding target received. */
  lemma {:induction false} SharesAfter(amount: int, ratios: seq<real>, index: nat, n: nat)
    requires index < n <= |ratios|
    ensures Sum(Shares(amount, ratios, index, n)) == amount + RoundedSum(amount, ratios[index + 1..n])
  {
    hide Rounded, Sum, Shares;
    SharesStep(amount, ratios, index, n);
    if n == index + 1 {
      SharesBefore(amount, ratios, index, index);
      assert ratios[index + 1..n] == [];
    } else {
      SharesAfter(amount, ratios, index, n - 1);
      RoundedSumStep(amount, ratios, index + 1, n);
    }
  }

  /** The promised postcondition, that the uncapped shares sum to the amount, holds exactly when the
      targets after the rounding target round to nothing in total; so always for the default, the
      last target. With an index outside the list it holds only if plain rounding happens to. */
  lemma SharesConserveIff(amount: int, ratios: seq<real>, index: int)
    ensures Sum(Shares(amount, ratios, index, |ratios|)) == amount <==>
            if 0 <= index < |ratios| then RoundedSum(amount, ratios[index + 1..]) == 0
            else RoundedSum(amount, ratios) == amount
    ensures index == |ratios| - 1 && ratios != [] ==> Sum(Shares(amount, ratios, index, |ratios|)) == amount
  {
    if 0 <= index < |ratios| {
      SharesAfter(amount, ratios, index, |ratios|);
      assert ratios[index + 1..|ratios|] == ratios[index + 1..];
    } else {
      SharesBefore(amount, ratios, index, |ratios|);
      assert ratios[..|ratios|] == ratios;
    }
  }

  /** Two halves of one minor unit with the first target rounding: two units are handed out. */
  lemma EarlyRoundingTargetOverallocates()
    ensures Sum(Shares(1, [0.5, 0.5], 0, 2)) == 2
  {
    SharesAfter(1, [0.5, 0.5], 0, 2);
    assert [0.5, 0.5][1..2] == [0.5] && [0.5][..0] == [];
    assert Rounded(1, 0.5) == 1;
  }

  /** Five units over ten equal targets: nine round up to one and the last is left owing four. */
  lemma LastShareCanBeNegative()
    ensures Share(5, seq(10, i => 0.1), 9, 9) == -4
  {
    var ratios := seq(10, i => 0.1);
    RoundedSumOfEqual(5, 0.1, ratios[..9]);
    assert Rounded(5, 0.1) == 1;
  }

  lemma {:induction false} RoundedSumOfEqual(amount: int, ratio: real, ratios: seq<real>)
    requires forall i :: 0 <= i < |ratios| ==> ratios[i] == ratio
    ensures RoundedSum(amount, ratios) == |ratios| * Rounded(amount, ratio)
  {
    if ratios != [] {
      hide Rounded;
      RoundedSumOfEqual(amount, ratio, ratios[..|ratios| - 1]);
      assert |ratios| * Rounded(amount, ratio) == (|ratios| - 1) * Rounded(amount, ratio) + Rounded(amount, ratio);
    }
  }

  // ---- Caps ----

  /** What capping took away from each share. */
  function Excess(targets: seq<AllocationTarget>, shares: seq<int>): int
    requires |targets| == |shares|
  {
    if targets == [] then 0
    else
      var n := |targets| - 1;
      Excess(targets[..n], shares[..n]) + shares[n] - Capped(targets[n], shares[n])
  }

  lemma {:induction false} CapsAccountForDifference(targets: seq<AllocationTarget>, shares: seq<int>)
    requires |targets| == |shares|
    ensures LineTotal(RatioLines(targets, shares)) == Sum(shares) - Excess(targets, shares)
    ensures Excess(targets, shares) >= 0
  {
    if targets != [] {
      var n := |targets| - 1;
      CapsAccountForDifference(targets[..n], shares[..n]);
      assert RatioLines(targets, shares)[..n] == RatioLines(targets[..n], shares[..n]);
    }
  }

  /** With the default rounding target, unallocated is exactly what the caps cut off. */
  lemma UnallocatedIsExcess(amount: int, targets: seq<AllocationTarget>, ratios: seq<real>)
    requires |targets| == |ratios| > 0
    ensures var r := ByRatio(amount, targets, ratios, |ratios| - 1);
            var shares := Shares(amount, ratios, |ratios| - 1, |ratios|);
            && Sum(shares) == amount
            && r.unallocated == Excess(targets, shares) >= 0
            && r.total + r.unallocated == amount
  {
    hide Shares, RatioLines, LineTotal, Excess, Sum;
    SharesConserveIff(amount, ratios, |ratios| - 1);
    CapsAccountForDifference(targets, Shares(amount, ratios, |ratios| - 1, |ratios|));
  }

  // ---- How far the remainder can be from its exact share ----

  lemma {:induction false} RoundedSumError(amount: int, ratios: seq<real>)
    ensures var error := RoundedSum(amount, ratios) as real - Exact(amount, RealSum(ratios));
            -(|ratios| as real) / 2.0 <= error <= |ratios| as real / 2.0
  {
    hide Rounded, Exact;
    if ratios == [] {
      ExactZero(amount);
    } else {
      var init, last := ratios[..|ratios| - 1], ratios[|ratios| - 1];
      RoundedSumError(amount, init);
      RoundedError(amount, last);
      ExactAdd(amount, RealSum(init), last, RealSum(ratios));
    }
  }

  lemma RoundedError(amount: int, ratio: real)
    ensures -0.5 <= Rounded(amount, ratio) as real - Exact(amount, ratio) <= 0.5
  {
  }

  lemma ExactAdd(amount: int, a: real, b: real, c: real)
    requires a + b == c
    ensures Exact(amount, c) == Exact(amount, a) + Exact(amount, b)
  {
  }

  lemma ExactZero(amount: int)
    ensures Exact(amount, 0.0) == 0.0 && Exact(amount, 1.0) == amount as real
  {
  }

  /** When the ratios sum to one, the remainder share is within (n-1)/2 minor units of its exact share. */
  lemma RemainderBound(amount: int, ratios: seq<real>)
    requires ratios != [] && RealSum(ratios) == 1.0
    ensures var last := |ratios| - 1;
            var drift := Share(amount, ratios, last, last) as real - Exact(amount, ratios[last]);
            -(last as real) / 2.0 <= drift <= last as real / 2.0
  {
    hide Rounded, Exact, RoundedSum;
    var last := |ratios| - 1;
    RoundedSumError(amount, ratios[..last]);
    ExactAdd(amount, RealSum(ratios[..last]), ratios[last], 1.0);
    ExactZero(amount);
  }

  // ---- The ratios of the three methods sum to one ----

  function Proportions(parts: seq<real>, total: real): (r: seq<real>)
    requires total != 0.0
    ensures |r| == |parts|
  {
    seq(|parts|, i requires 0 <= i < |parts| => parts[i] / total)
  }

  lemma {:induction false} ProportionsSum(parts: seq<real>, total: real)
    requires total != 0.0
    ensures RealSum(Proportions(parts, total)) == RealSum(parts) / total
  {
    if parts != [] {
      var init, last := parts[..|parts| - 1], parts[|parts| - 1];
      ProportionsSum(init, total);
      assert Proportions(parts, total)[..|init|] == Proportions(init, total);
      assert (RealSum(init) + last) / total == RealSum(init) / total + last / total;
    }
  }

  lemma SelfQuotient(x: real)
    requires x != 0.0
    ensures x / x == 1.0
  {
  }

  /** Pro-rata, weighted and equal ratios are all proportions of their own total. */
  lemma ProportionsSumToOne(parts: seq<real>)
    requires RealSum(parts) != 0.0
    ensures RealSum(Proportions(parts, RealSum(parts))) == 1.0
  {
    hide RealSum, Proportions;
    SelfQuotient(RealSum(parts));
    ProportionsSum(parts, RealSum(parts));
  }

  // ---- Pro-rata ----

  function TotalEligible(targets: seq<AllocationTarget>): int {
    if targets == [] then 0
    else
      var e := targets[|targets| - 1].eligible;
      TotalEligible(targets[..|targets| - 1]) + if e.Some? then e.value else 0
  }

  function EligibleParts(targets: seq<AllocationTarget>): (r: seq<real>)
    ensures |r| == |targets|
  {
    seq(|targets|, i requires 0 <= i < |targets| =>
      if targets[i].eligible.Some? then targets[i].eligible.value as real else 0.0)
  }

  lemma {:induction false} EligiblePartsSum(targets: seq<AllocationTarget>)
    ensures RealSum(EligibleParts(targets)) == TotalEligible(targets) as real
  {
    if targets != [] {
      var n := |targets| - 1;
      EligiblePartsSum(targets[..n]);
      assert EligibleParts(targets)[..n] == EligibleParts(targets[..n]);
    }
  }

  predicate AllEligible(targets: seq<AllocationTarget>) {
    forall t :: t in targets ==> t.eligible.Some?
  }

  function ProRataRatios(targets: seq<AllocationTarget>): (r: seq<real>)
    requires TotalEligible(targets) != 0
    ensures |r| == |targets|
  {
    Proportions(EligibleParts(targets), TotalEligible(targets) as real)
  }

  function NothingEligible(amount: int, targets: seq<AllocationTarget>): AllocationResult {
    var lines := seq(|targets|, i requires 0 <= i < |targets| =>
      AllocationLine(targets[i].id, 0, if targets[i].eligible.Some? then targets[i].eligible.value else 0, true));
    AllocationResult(amount, lines, 0, amount, 0)
  }

  method AllocateProRata(amount: int, targets: seq<AllocationTarget>, index: Option<int>)
      returns (r: Outcome<AllocationResult, AllocationError>)
    requires targets != []
    ensures r.Err? <==> !AllEligible(targets)
    ensures r.Ok? && TotalEligible(targets) == 0 ==> r.value == NothingEligible(amount, targets)
    ensures r.Ok? && TotalEligible(targets) != 0 ==>
              r.value == ByRatio(amount, targets, ProRataRatios(targets),
                if index.Some? then index.value else |targets| - 1)
  {
    hide ByRatio, ProRataRatios, NothingEligible;
    var total := 0;
    for i := 0 to |targets|
      invariant forall j :: 0 <= j < i ==> targets[j].eligible.Some?
      invariant total == TotalEligible(targets[..i])
    {
      if targets[i].eligible.None? {
        assert targets[i] in targets;
        return Err(MissingEligible);
      }
      assert targets[..i + 1][..i] == targets[..i];
      total := total + targets[i].eligible.value;
    }
    assert targets[..|targets|] == targets;
    if total == 0 {
      return Ok(NothingEligible(amount, targets));
    }
    var result := AllocateByRatio(amount, targets, ProRataRatios(targets), index);
    r := Ok(result);
  }

  /** A part e of a total, taken of an amount no larger than the total, is between 0 and e. */
  lemma PartOfAmount(amount: int, e: int, total: int)
    requires 0 <= amount <= total && 0 <= e && total > 0
    ensures 0.0 <= Exact(amount, e as real / total as real) <= e as real
    ensures amount == total ==> Exact(amount, e as real / total as real) == e as real
  {
    var q := e as real / total as real;
    assert q * total as real == e as real && q >= 0.0;
    assert amount as real * q <= total as real * q;
  }

  lemma RoundedPart(amount: int, e: int, total: int)
    requires 0 <= amount <= total && 0 <= e && total > 0
    ensures 0 <= Rounded(amount, e as real / total as real) <= e
    ensures amount == total ==> Rounded(amount, e as real / total as real) == e
  {
    hide Exact;
    PartOfAmount(amount, e, total);
    RoundBetween(0, Exact(amount, e as real / total as real), e);
    if amount == total {
      RoundsTo(Exact(amount, e as real / total as real), e);
    }
  }

  ghost predicate NonNegativeEligible(targets: seq<AllocationTarget>) {
    forall t :: t in targets ==> t.eligible.Some? && t.eligible.value >= 0
  }

  lemma ProRataShare(amount: int, targets: seq<AllocationTarget>, i: nat)
    requires NonNegativeEligible(targets) && 0 <= amount <= TotalEligible(targets) && TotalEligible(targets) > 0
    requires i < |targets| - 1
    ensures var share := Share(amount, ProRataRatios(targets), |targets| - 1, i);
            && 0 <= share <= targets[i].eligible.value
            && (amount == TotalEligible(targets) ==> share == targets[i].eligible.value)
  {
    hide Rounded, TotalEligible;
    assert targets[i] in targets;
    RoundedPart(amount, targets[i].eligible.value, TotalEligible(targets));
  }

  /** No capped share, and so no excess, before the last target. */
  lemma {:induction false} NoExcess(targets: seq<AllocationTarget>, shares: seq<int>)
    requires |targets| == |shares|
    requires forall i :: 0 <= i < |targets| ==> targets[i].eligible.Some? && shares[i] <= targets[i].eligible.value
    ensures Excess(targets, shares) == 0
  {
    if targets != [] {
      var n := |targets| - 1;
      NoExcess(targets[..n], shares[..n]);
    }
  }

  /** Pro-rata bound: for an amount within the total eligible, no target but the last is capped, and
      what stays unallocated is the last target's excess, at most (n-1)/2 minor units. */
  lemma ProRataBound(amount: int, targets: seq<AllocationTarget>)
    requires targets != [] && NonNegativeEligible(targets)
    requires 0 <= amount <= TotalEligible(targets) && TotalEligible(targets) > 0
    ensures var n := |targets|;
            var r := ByRatio(amount, targets, ProRataRatios(targets), n - 1);
            && (forall i :: 0 <= i < n ==> r.lines[i].amount <= targets[i].eligible.value)
            && (forall i :: 0 <= i < n - 1 ==> Uncut(amount, targets, r, i))
            && 0.0 <= r.unallocated as real <= (n - 1) as real / 2.0
            && r.total + r.unallocated == amount
  {
    hide TotalEligible, ProRataRatios, ByRatio, NonNegativeEligible, Uncut;
    OnlyLastIsCapped(amount, targets);
    UnallocatedIsSmall(amount, targets);
  }

  /** Line i carries its full share, which is not negative. */
  ghost predicate Uncut(amount: int, targets: seq<AllocationTarget>, r: AllocationResult, i: nat)
    requires TotalEligible(targets) != 0
  {
    i < |r.lines| && i < |targets| && r.lines[i].amount == Share(amount, ProRataRatios(targets), |targets| - 1, i) >= 0
  }

  lemma OnlyLastIsCapped(amount: int, targets: seq<AllocationTarget>)
    requires targets != [] && NonNegativeEligible(targets)
    requires 0 <= amount <= TotalEligible(targets) && TotalEligible(targets) > 0
    ensures var n := |targets|;
            var r := ByRatio(amount, targets, ProRataRatios(targets), n - 1);
            && |r.lines| == n
            && (forall i :: 0 <= i < n ==> targets[i].eligible.Some? && r.lines[i].amount <= targets[i].eligible.value)
            && (forall i :: 0 <= i < n - 1 ==> Uncut(amount, targets, r, i))
  {
    hide TotalEligible, ProRataRatios, Share, Shares, RatioLines, LineTotal, RoundedSum, RatioLine;
    ProRataShares(amount, targets);
    var n := |targets|;
    var shares := Shares(amount, ProRataRatios(targets), n - 1, n);
    forall i | 0 <= i < n ensures RatioLines(targets, shares)[i].amount == Capped(targets[i], shares[i]) {
      LineAmount(targets, shares, i);
    }
  }

  lemma UnallocatedIsSmall(amount: int, targets: seq<AllocationTarget>)
    requires targets != [] && NonNegativeEligible(targets)
    requires 0 <= amount <= TotalEligible(targets) && TotalEligible(targets) > 0
    ensures var r := ByRatio(amount, targets, ProRataRatios(targets), |targets| - 1);
            && 0.0 <= r.unallocated as real <= (|targets| - 1) as real / 2.0
            && r.total + r.unallocated == amount
  {
    hide TotalEligible, ProRataRatios, Share, Shares, ByRatio, Excess;
    ProRataShares(amount, targets);
    UnallocatedIsExcess(amount, targets, ProRataRatios(targets));
    LastExcess(targets, Shares(amount, ProRataRatios(targets), |targets| - 1, |targets|));
    LastShareBound(amount, targets);
  }

  lemma LineAmount(targets: seq<AllocationTarget>, shares: seq<int>, i: nat)
    requires |targets| == |shares| && i < |targets|
    ensures RatioLines(targets, shares)[i] == RatioLine(targets[i], shares[i])
    ensures RatioLine(targets[i], shares[i]).amount == Capped(targets[i], shares[i])
  {
  }

  lemma ProRataShares(amount: int, targets: seq<AllocationTarget>)
    requires targets != [] && NonNegativeEligible(targets)
    requires 0 <= amount <= TotalEligible(targets) && TotalEligible(targets) > 0
    ensures forall i :: 0 <= i < |targets| ==> targets[i].eligible.Some? && targets[i].eligible.value >= 0
    ensures var shares := Shares(amount, ProRataRatios(targets), |targets| - 1, |targets|);
            forall i :: 0 <= i < |targets| - 1 ==> 0 <= shares[i] <= targets[i].eligible.value
  {
    hide Share, Shares, TotalEligible, ProRataRatios;
    var shares := Shares(amount, ProRataRatios(targets), |targets| - 1, |targets|);
    forall i | 0 <= i < |targets| ensures targets[i].eligible.Some? && targets[i].eligible.value >= 0 {
      assert targets[i] in targets;
    }
    forall i | 0 <= i < |targets| - 1 ensures 0 <= shares[i] <= targets[i].eligible.value {
      ProRataShare(amount, targets, i);
    }
  }

  lemma LastExcess(targets: seq<AllocationTarget>, shares: seq<int>)
    requires targets != [] && |targets| == |shares|
    requires forall i :: 0 <= i < |targets| ==> targets[i].eligible.Some?
    requires forall i :: 0 <= i < |targets| - 1 ==> shares[i] <= targets[i].eligible.value
    ensures var n := |targets| - 1; Excess(targets, shares) == Max(0, shares[n] - targets[n].eligible.value)
  {
    var n := |targets| - 1;
    NoExcess(targets[..n], shares[..n]);
  }

  lemma LastShareBound(amount: int, targets: seq<AllocationTarget>)
    requires targets != [] && NonNegativeEligible(targets)
    requires 0 <= amount <= TotalEligible(targets) && TotalEligible(targets) > 0
    ensures var n := |targets| - 1;
            Share(amount, ProRataRatios(targets), n, n) as real <= targets[n].eligible.value as real + n as real / 2.0
  {
    hide Rounded, Exact, RealSum, RoundedSum;
    var n := |targets| - 1;
    assert targets[n] in targets;
    EligiblePartsSum(targets);
    ProportionsSumToOne(EligibleParts(targets));
    RemainderBound(amount, ProRataRatios(targets));
    PartOfAmount(amount, targets[n].eligible.value, TotalEligible(targets));
  }

  lemma {:induction false} RoundedSumExact(targets: seq<AllocationTarget>, n: nat)
    requires NonNegativeEligible(targets) && TotalEligible(targets) > 0 && n <= |targets|
    ensures RoundedSum(TotalEligible(targets), ProRataRatios(targets)[..n]) == TotalEligible(targets[..n])
  {
    if n > 0 {
      hide Rounded;
      RoundedSumExact(targets, n - 1);
      var ratios := ProRataRatios(targets);
      assert ratios[..n][..n - 1] == ratios[..n - 1] && targets[..n][..n - 1] == targets[..n - 1];
      assert targets[n - 1] in targets;
      RoundedPart(TotalEligible(targets), targets[n - 1].eligible.value, TotalEligible(targets));
    } else {
      assert ProRataRatios(targets)[..0] == [] && targets[..0] == [];
    }
  }

  /** An amount equal to the total eligible settles every target exactly. */
  lemma ProRataSettlesInFull(targets: seq<AllocationTarget>)
    requires targets != [] && NonNegativeEligible(targets) && TotalEligible(targets) > 0
    ensures var r := ByRatio(TotalEligible(targets), targets, ProRataRatios(targets), |targets| - 1);
            && (forall i :: 0 <= i < |targets| ==> r.lines[i].amount == targets[i].eligible.value && r.lines[i].isFull)
            && r.unallocated == 0
  {
    hide Share, Shares, RatioLines, LineTotal, ProRataRatios, Excess, TotalEligible, RoundedSum;
    var n, amount, ratios := |targets|, TotalEligible(targets), ProRataRatios(targets);
    var shares := Shares(amount, ratios, n - 1, n);
    FullShares(targets);
    forall i | 0 <= i < n ensures RatioLines(targets, shares)[i] == RatioLine(targets[i], shares[i]) {
      LineAmount(targets, shares, i);
    }
    UnallocatedIsExcess(amount, targets, ratios);
    NoExcess(targets, shares);
  }

  lemma FullShares(targets: seq<AllocationTarget>)
    requires targets != [] && NonNegativeEligible(targets) && TotalEligible(targets) > 0
    ensures forall i :: 0 <= i < |targets| ==>
              && targets[i].eligible.Some?
              && Share(TotalEligible(targets), ProRataRatios(targets), |targets| - 1, i) == targets[i].eligible.value
  {
    var n, amount, ratios := |targets| - 1, TotalEligible(targets), ProRataRatios(targets);
    forall i | 0 <= i <= n ensures targets[i].eligible.Some? &&
      Share(amount, ratios, n, i) == targets[i].eligible.value {
      assert targets[i] in targets;
      if i < n {
        ProRataShare(amount, targets, i);
      } else {
        RoundedSumExact(targets, n);
      }
    }
  }

  // ---- Weighted and equal ----

  function Weights(targets: seq<AllocationTarget>): (r: seq<real>)
    ensures |r| == |targets|
  {
    seq(|targets|, i requires 0 <= i < |targets| => targets[i].weight)
  }

  method AllocateWeighted(amount: int, targets: seq<AllocationTarget>, index: Option<int>)
      returns (r: Outcome<AllocationResult, AllocationError>)
    requires targets != []
    ensures r.Err? <==> RealSum(Weights(targets)) == 0.0
    ensures r.Ok? ==> r.value == ByRatio(amount, targets, Proportions(Weights(targets), RealSum(Weights(targets))),
                                         if index.Some? then index.value else |targets| - 1)
  {
    hide ByRatio, RealSum;
    var total := RealSum(Weights(targets));
    if total == 0.0 {
      return Err(ZeroWeight);
    }
    var result := AllocateByRatio(amount, targets, Proportions(Weights(targets), total), index);
    r := Ok(result);
  }

  function EqualParts(n: nat): (r: seq<real>)
    ensures |r| == n
  {
    seq(n, i => 1.0)
  }

  lemma {:induction false} EqualPartsSum(n: nat)
    ensures RealSum(EqualParts(n)) == n as real
  {
    if n > 0 {
      EqualPartsSum(n - 1);
      assert EqualParts(n)[..n - 1] == EqualParts(n - 1);
    }
  }

  method AllocateEqual(amount: int, targets: seq<AllocationTarget>, index: Option<int>) returns (r: AllocationResult)
    requires targets != []
    ensures r == ByRatio(amount, targets, Proportions(EqualParts(|targets|), |targets| as real),
                         if index.Some? then index.value else |targets| - 1)
  {
    r := AllocateByRatio(amount, targets, Proportions(EqualParts(|targets|), |targets| as real), index);
  }

  // ---- Sequential allocation ----

  /** What one target takes of what is left. */
  function Take(left: int, t: AllocationTarget): int {
    if left <= 0 then 0 else if t.eligible.Some? then Min(left, t.eligible.value) else left
  }

  function LeftAfter(amount: int, targets: seq<AllocationTarget>): int {
    if targets == [] then amount
    else
      var left := LeftAfter(amount, targets[..|targets| - 1]);
      left - Take(left, targets[|targets| - 1])
  }

  function SequentialLine(left: int, t: AllocationTarget): AllocationLine {
    if left <= 0 then AllocationLine(t.id, 0, if t.eligible.Some? then t.eligible.value else 0, false)
    else
      var rest := (if t.eligible.Some? then t.eligible.value else left) - Take(left, t);
      AllocationLine(t.id, Take(left, t), rest, rest == 0)
  }

  function SequentialLines(amount: int, targets: seq<AllocationTarget>): (lines: seq<AllocationLine>)
    ensures |lines| == |targets|
  {
    seq(|targets|, i requires 0 <= i < |targets| => SequentialLine(LeftAfter(amount, targets[..i]), targets[i]))
  }

  method AllocateSequential(amount: int, sorted: seq<AllocationTarget>) returns (r: AllocationResult)
    ensures r.lines == SequentialLines(amount, sorted)
    ensures r.source == amount && r.unallocated == LeftAfter(amount, sorted) && r.adjustment == 0
    ensures r.total + r.unallocated == amount && r.total == LineTotal(r.lines)
  {
    var left := amount;
    var lines: seq<AllocationLine> := [];
    for i := 0 to |sorted|
      invariant left == LeftAfter(amount, sorted[..i])
      invariant lines == SequentialLines(amount, sorted)[..i]
      invariant LineTotal(lines) == amount - left
    {
      assert sorted[..i + 1][..i] == sorted[..i];
      lines := lines + [SequentialLine(left, sorted[i])];
      left := left - Take(left, sorted[i]);
    }
    assert sorted[..|sorted|] == sorted &&
      SequentialLines(amount, sorted)[..|sorted|] == SequentialLines(amount, sorted);
    r := AllocationResult(amount, lines, amount - left, left, 0);
  }

  /** Greedy allocation in closed form: what is left is the amount less everything eligible so far,
      never below zero. */
  lemma {:induction false} LeftInClosedForm(amount: int, targets: seq<AllocationTarget>)
    requires amount >= 0 && NonNegativeEligible(targets)
    ensures LeftAfter(amount, targets) == Max(0, amount - TotalEligible(targets))
    ensures TotalEligible(targets) >= 0
  {
    if targets != [] {
      var init, last := targets[..|targets| - 1], targets[|targets| - 1];
      assert last in targets;
      assert NonNegativeEligible(init);
      LeftInClosedForm(amount, init);
    }
  }

  /** So target i receives its eligible amount clipped to what the earlier targets leave, and the
      whole allocation is the smaller of the amount and the total eligible. */
  lemma SequentialInClosedForm(amount: int, targets: seq<AllocationTarget>)
    requires amount >= 0 && NonNegativeEligible(targets)
    ensures forall i :: 0 <= i < |targets| ==>
              SequentialLines(amount, targets)[i].amount ==
              Min(targets[i].eligible.value, Max(0, amount - TotalEligible(targets[..i])))
    ensures amount - LeftAfter(amount, targets) == Min(amount, TotalEligible(targets))
  {
    hide LeftAfter, TotalEligible;
    LeftInClosedForm(amount, targets);
    forall i | 0 <= i < |targets|
      ensures SequentialLines(amount, targets)[i].amount ==
              Min(targets[i].eligible.value, Max(0, amount - TotalEligible(targets[..i])))
    {
      assert targets[i] in targets;
      LeftInClosedForm(amount, targets[..i]);
    }
  }

  const DATE_MIN := 1
  const DATE_MAX := 3652059

  function DateOr(t: AllocationTarget, default: int): int { if t.date.Some? then t.date.value else default }

  predicate OldestFirst(a: AllocationTarget, b: AllocationTarget) {
    || DateOr(a, DATE_MIN) < DateOr(b, DATE_MIN)
    || (DateOr(a, DATE_MIN) == DateOr(b, DATE_MIN) && a.priority <= b.priority)
  }

  predicate NewestFirst(a: AllocationTarget, b: AllocationTarget) {
    || DateOr(a, DATE_MAX) > DateOr(b, DATE_MAX)
    || (DateOr(a, DATE_MAX) == DateOr(b, DATE_MAX) && -a.priority >= -b.priority)
  }

  predicate ByPriority(a: AllocationTarget, b: AllocationTarget) { a.priority <= b.priority }

  /** The order in which a sequential method serves its targets. */
  function Served(how: AllocationMethod, targets: seq<AllocationTarget>): seq<AllocationTarget>
    requires how in {Fifo, Lifo, Specific}
  {
    match how
    case Fifo => Sort(targets, OldestFirst)
    case Lifo => Sort(targets, NewestFirst)
    case Specific => Sort(targets, ByPriority)
  }

  /** Targets that agree on date and priority are served in the order given. */
  lemma ServedInOrder(how: AllocationMethod, targets: seq<AllocationTarget>)
    requires how in {Fifo, Lifo, Specific}
    requires forall i, j :: 0 <= i < j < |targets| ==>
               targets[i].date == targets[j].date && targets[i].priority == targets[j].priority
    ensures Served(how, targets) == targets
  {
    SortIdentity(targets, OldestFirst);
    SortIdentity(targets, NewestFirst);
    SortIdentity(targets, ByPriority);
  }

  /** The method divides by ratio and its total is not zero. */
  predicate HasRatios(how: AllocationMethod, targets: seq<AllocationTarget>) {
    || (how == ProRata && TotalEligible(targets) != 0)
    || (how == Weighted && RealSum(Weights(targets)) != 0.0)
    || (how == Equal && targets != [])
  }

  function Ratios(how: AllocationMethod, targets: seq<AllocationTarget>): (r: seq<real>)
    requires HasRatios(how, targets)
    ensures |r| == |targets|
  {
    match how
    case ProRata => ProRataRatios(targets)
    case Weighted => Proportions(Weights(targets), RealSum(Weights(targets)))
    case Equal => Proportions(EqualParts(|targets|), |targets| as real)
  }

  /** Whatever the method, the ratios it divides by sum to exactly one. */
  lemma RatiosSumToOne(how: AllocationMethod, targets: seq<AllocationTarget>)
    requires HasRatios(how, targets)
    ensures RealSum(Ratios(how, targets)) == 1.0
  {
    hide RealSum, Proportions, TotalEligible;
    match how {
      case ProRata =>
        EligiblePartsSum(targets);
        ProportionsSumToOne(EligibleParts(targets));
      case Weighted =>
        ProportionsSumToOne(Weights(targets));
      case Equal =>
        EqualPartsSum(|targets|);
        ProportionsSumToOne(EqualParts(|targets|));
    }
  }

  /** The sequential methods serve every target once: FIFO by date from the oldest, LIFO from the
      newest, SPECIFIC by priority; equal dates are served by ascending priority in both. */
  lemma ServedOrder(how: AllocationMethod, targets: seq<AllocationTarget>)
    requires how in {Fifo, Lifo, Specific}
    ensures multiset(Served(how, targets)) == multiset(targets)
    ensures forall i, j :: 0 <= i < j < |Served(how, targets)| ==>
      Precedes(how, Served(how, targets)[i], Served(how, targets)[j])
  {
    hide Sort;
    match how {
      case Fifo =>
        SortKeeps(targets, OldestFirst);
        SortSorts(targets, OldestFirst);
      case Lifo =>
        SortKeeps(targets, NewestFirst);
        SortSorts(targets, NewestFirst);
      case Specific =>
        SortKeeps(targets, ByPriority);
        SortSorts(targets, ByPriority);
    }
  }

  /** Undated targets come first in both: FIFO takes them for the oldest, LIFO for the newest. */
  ghost predicate Precedes(how: AllocationMethod, a: AllocationTarget, b: AllocationTarget) {
    var extreme := if how == Fifo then 1 else 3652059;
    if how == Specific then a.priority <= b.priority
    else if a.date.Some? && b.date.Some? then
      || (if how == Fifo then a.date.value < b.date.value else a.date.value > b.date.value)
      || (a.date == b.date && a.priority <= b.priority)
    else if a.date.None? && b.date.Some? then b.date.value != extreme || a.priority <= b.priority
    else (a.date.Some? ==> a.date.value == extreme) && a.priority <= b.priority
  }

  /** What a line of allocation by ratio says: the share of its ratio, rounded, or for the rounding target
      what the targets before it left; cut down to the eligible amount; and what then remains eligible. */
  lemma ByRatioLine(amount: int, targets: seq<AllocationTarget>, ratios: seq<real>, index: int, i: nat)
    requires |targets| == |ratios| && i < |targets|
    ensures var line, t := ByRatio(amount, targets, ratios, index).lines[i], targets[i];
            var share := if i == index then amount - RoundedSum(amount, ratios[..i])
                         else RoundHalfUp(amount as real * ratios[i]);
            && line.id == t.id
            && (t.eligible.None? ==> line.amount == share && line.remaining == 0 && line.isFull)
            && (t.eligible.Some? ==>
                  && line.amount == (if share > t.eligible.value then t.eligible.value else share)
                  && line.amount + line.remaining == t.eligible.value
                  && (line.isFull <==> line.amount == t.eligible.value))
  {
    hide RoundedSum, Rounded, Share, Shares, RatioLines, RatioLine, LineTotal;
    var shares := Shares(amount, ratios, index, |ratios|);
    LineAmount(targets, shares, i);
    ShareIs(amount, ratios, index, i);
    RoundedIs(amount, ratios[i]);
    RatioLineIs(targets[i], shares[i]);
  }

  lemma RoundedIs(amount: int, ratio: real)
    ensures Rounded(amount, ratio) == RoundHalfUp(amount as real * ratio)
  {
  }

  lemma RatioLineIs(t: AllocationTarget, share: int)
    ensures var line := RatioLine(t, share);
            && line.id == t.id
            && (t.eligible.None? ==> line.amount == share && line.remaining == 0 && line.isFull)
            && (t.eligible.Some? ==>
                  && line.amount == (if share > t.eligible.value then t.eligible.value else share)
                  && line.amount + line.remaining == t.eligible.value
                  && (line.isFull <==> line.amount == t.eligible.value))
  {
  }

  /** Rounding target or not, the sum of rounded shares is the sum of the shares rounded one by one. */
  lemma RoundedSumIs(amount: int, ratios: seq<real>, ratio: real)
    ensures RoundedSum(amount, []) == 0
    ensures RoundedSum(amount, ratios + [ratio]) == RoundedSum(amount, ratios) + RoundHalfUp(amount as real * ratio)
  {
    hide Rounded, RoundHalfUp;
    RoundedIs(amount, ratio);
    assert (ratios + [ratio])[..|ratios|] == ratios;
  }

  /** The reported adjustment is what the last target, as the rounding target, received beyond its own
      rounded share. */
  lemma AdjustmentIs(amount: int, targets: seq<AllocationTarget>, ratios: seq<real>)
    requires |targets| == |ratios| > 0
    ensures var last := |ratios| - 1;
            ByRatio(amount, targets, ratios, last).adjustment ==
            Share(amount, ratios, last, last) - Rounded(amount, ratios[last])
  {
    hide RatioLines, LineTotal, Shares, Rounded;
  }

  /** The ratio of a target is its part of the total that the method divides by. */
  lemma RatioOf(how: AllocationMethod, targets: seq<AllocationTarget>, i: nat)
    requires HasRatios(how, targets) && i < |targets|
    ensures var ratio, t := Ratios(how, targets)[i], targets[i];
            && (how == ProRata ==> IsPart(ratio, OrZero(t.eligible) as real, TotalEligible(targets) as real))
            && (how == Weighted ==> IsPart(ratio, t.weight, RealSum(Weights(targets))))
            && (how == Equal ==> IsPart(ratio, 1.0, |targets| as real))
  {
    hide TotalEligible, RealSum, Proportions, IsPart;
    match how {
      case ProRata => ProportionTimesTotal(EligibleParts(targets), TotalEligible(targets) as real, i);
      case Weighted => ProportionTimesTotal(Weights(targets), RealSum(Weights(targets)), i);
      case Equal => ProportionTimesTotal(EqualParts(|targets|), |targets| as real, i);
    }
  }

  lemma ProportionTimesTotal(parts: seq<real>, total: real, i: nat)
    requires total != 0.0 && i < |parts|
    ensures IsPart(Proportions(parts, total)[i], parts[i], total)
  {
    var q := parts[i] / total;
    assert q * total == parts[i];
  }

  ghost predicate IsPart(ratio: real, part: real, total: real) { ratio * total == part }

  /** When nothing is eligible, nothing is allocated and every line keeps its eligible amount. */
  lemma NothingEligibleLine(amount: int, targets: seq<AllocationTarget>, i: nat)
    requires i < |targets|
    ensures var r := NothingEligible(amount, targets);
            && |r.lines| == |targets| && r.total == 0 && r.unallocated == amount
            && r.lines[i] == AllocationLine(targets[i].id, 0, OrZero(targets[i].eligible), true)
  {
  }

  /** What a line of sequential allocation says: up to its eligible amount of what is left, nothing when
      nothing is left; an untouched target is not full, even if it was eligible for nothing. */
  lemma SequentialLineIs(amount: int, targets: seq<AllocationTarget>, i: nat)
    requires i < |targets|
    ensures var line, t, left := SequentialLines(amount, targets)[i], targets[i], LeftAfter(amount, targets[..i]);
            && line.id == t.id
            && (left <= 0 ==> line.amount == 0 && line.remaining == OrZero(t.eligible) && !line.isFull)
            && (left > 0 && t.eligible.None? ==> line.amount == left && line.remaining == 0 && line.isFull)
            && (left > 0 && t.eligible.Some? ==>
                  && line.amount == (if t.eligible.value < left then t.eligible.value else left)
                  && line.amount + line.remaining == t.eligible.value
                  && (line.isFull <==> line.amount == t.eligible.value))
            && LeftAfter(amount, targets[..i + 1]) == left - line.amount
    ensures LeftAfter(amount, targets[..0]) == amount
  {
    assert targets[..i + 1][..i] == targets[..i];
  }

  method Allocate(amount: int, targets: seq<AllocationTarget>, how: AllocationMethod, index: Option<int>)
      returns (r: Outcome<AllocationResult, AllocationError>)
    ensures targets == [] ==> r == Ok(AllocationResult(amount, [], 0, amount, 0))
    ensures r.Err? <==>
            && targets != []
            && ((how == ProRata && !AllEligible(targets)) || (how == Weighted && RealSum(Weights(targets)) == 0.0))
    ensures r.Ok? ==> r.value.source == amount && r.value.total + r.value.unallocated == amount
    ensures r.Ok? && targets != [] && how == ProRata && TotalEligible(targets) == 0 ==>
      r.value == NothingEligible(amount, targets)
    ensures r.Ok? && targets != [] && HasRatios(how, targets) ==>
      r.value == ByRatio(amount, targets, Ratios(how, targets), if index.Some? then index.value else |targets| - 1)
    ensures r.Ok? && how in {Fifo, Lifo, Specific} ==>
      && r.value.lines == SequentialLines(amount, Served(how, targets))
      && r.value.unallocated == LeftAfter(amount, Served(how, targets))
  {
    hide TotalEligible, LeftAfter, Served, RatioLines, Shares, LineTotal, RealSum, RoundedSum, AllEligible,
      ProRataRatios, SequentialLines;
    if targets == [] {
      r := Ok(AllocationResult(amount, [], 0, amount, 0));
      NothingServed(amount, how);
      return;
    }
    match how
    case ProRata =>
      r := AllocateProRata(amount, targets, index);
    case Weighted =>
      r := AllocateWeighted(amount, targets, index);
    case Equal =>
      var result := AllocateEqual(amount, targets, index);
      r := Ok(result);
    case _ =>
      var result := AllocateSequential(amount, Served(how, targets));
      r := Ok(result);
  }

  lemma NothingServed(amount: int, how: AllocationMethod)
    ensures how in {Fifo, Lifo, Specific} ==>
      SequentialLines(amount, Served(how, [])) == [] && LeftAfter(amount, Served(how, [])) == amount
  {
  }
}
