/** finance_engines/tax.py: tax added on top of a net amount, tax extracted from a gross amount,
    and the proof that the second undoes the first. Amounts are whole minor units. */
module Tax {
  import opened Common
  import opened Rounding
  import opened StableSort

  datatype TaxType = Sales | Vat | Gst | Hst | Withholding | Excise | Customs | Use

  datatype RateRecord = Rate(
    code: string, rate: real, taxType: TaxType, isCompound: bool, priority: int,
    effectiveFrom: Option<int>, effectiveTo: Option<int>)

  /** A negative rate is refused when the record is constructed. */
  type TaxRate = r: RateRecord | r.rate >= 0.0
    witness Rate("", 0.0, Sales, false, 0, None, None)

  datatype TaxLine = TaxLine(
    code: string, taxable: int, tax: int, rate: real, isCompound: bool, isIncluded: bool)

  datatype TaxResult = TaxResult(net: int, lines: seq<TaxLine>, gross: int, inclusive: bool)

  datatype TaxError =
    | CodeNotFound(code: string)
    | NotEffective(code: string)
    | DateMissing(code: string)    // comparing None with a date raises TypeError
    | DivisionUndefined            // 0/0 among several zero-rated simple taxes
    | NotWithholding

  predicate IsSimple(r: TaxRate) { !r.isCompound }
  predicate IsCompound(r: TaxRate) { r.isCompound }
  predicate Ascending(a: TaxRate, b: TaxRate) { a.priority <= b.priority }
  predicate Descending(a: TaxRate, b: TaxRate) { a.priority >= b.priority }

  function TaxOn(base: int, r: TaxRate): int { RoundHalfUp(base as real * r.rate) }

  function TaxWithin(gross: int, r: TaxRate): int { RoundHalfUp(TaxPart(gross as real, r.rate)) }

  function NetWithin(gross: int, combined: real): int
    requires combined >= 0.0
  {
    RoundHalfUp(NetPart(gross as real, combined))
  }

  function TaxPart(gross: real, rate: real): real
    requires rate >= 0.0
  {
    gross * rate / (1.0 + rate)
  }

  function NetPart(gross: real, rate: real): real
    requires rate >= 0.0
  {
    gross / (1.0 + rate)
  }

  function Proportion(total: int, r: TaxRate, combined: real): int
    requires combined > 0.0
  {
    RoundHalfUp(total as real * (r.rate / combined))
  }

  function Line(r: TaxRate, taxable: int, tax: int, included: bool): TaxLine {
    TaxLine(r.code, taxable, tax, r.rate, r.isCompound, included)
  }

  function SumTax(lines: seq<TaxLine>): int {
    if lines == [] then 0 else SumTax(lines[..|lines| - 1]) + lines[|lines| - 1].tax
  }

  function CombinedRate(rs: seq<TaxRate>): (r: real)
    ensures r >= 0.0
  {
    if rs == [] then 0.0 else CombinedRate(rs[..|rs| - 1]) + rs[|rs| - 1].rate
  }

  // ---- Specification: exclusive calculation ----

  function SimpleLines(net: int, rs: seq<TaxRate>): (lines: seq<TaxLine>)
    ensures |lines| == |rs|
  {
    if rs == [] then []
    else
      var r := rs[|rs| - 1];
      SimpleLines(net, rs[..|rs| - 1]) + [Line(r, net, TaxOn(net, r), false)]
  }

  /** Each compound tax is taken on the base plus every tax before it. */
  function CompoundLines(base: int, rs: seq<TaxRate>): (lines: seq<TaxLine>)
    ensures |lines| == |rs|
  {
    if rs == [] then []
    else
      var before := CompoundLines(base, rs[..|rs| - 1]);
      var r, taxable := rs[|rs| - 1], base + SumTax(before);
      before + [Line(r, taxable, TaxOn(taxable, r), false)]
  }

  /** Tax added to net by simple and compound rates that are already in application order. */
  function Applied(net: int, simple: seq<TaxRate>, compound: seq<TaxRate>): TaxResult {
    var first := SimpleLines(net, simple);
    var base := net + SumTax(first);
    var second := CompoundLines(base, compound);
    TaxResult(net, first + second, base + SumTax(second), false)
  }

  function Exclusive(net: int, rates: seq<TaxRate>): TaxResult {
    var sorted := Sort(rates, Ascending);
    Applied(net, Filter(sorted, IsSimple), Filter(sorted, IsCompound))
  }

  // ---- Specification: inclusive extraction ----

  function ExtractedLines(gross: int, rs: seq<TaxRate>): (lines: seq<TaxLine>)
    ensures |lines| == |rs|
    decreases |rs|
  {
    if rs == [] then []
    else
      var tax := TaxWithin(gross, rs[0]);
      [Line(rs[0], gross - tax, tax, true)] + ExtractedLines(gross - tax, rs[1..])
  }

  /** Lines of the first n simple rates: proportional shares, the last rate taking what is left. */
  function ShareLines(net: int, total: int, rs: seq<TaxRate>, n: nat): (lines: seq<TaxLine>)
    requires n <= |rs| && (|rs| <= 1 || CombinedRate(rs) > 0.0)
    ensures |lines| == n
  {
    if n == 0 then []
    else
      var before := ShareLines(net, total, rs, n - 1);
      var tax := if n == |rs| then total - SumTax(before) else Proportion(total, rs[n - 1], CombinedRate(rs));
      before + [Line(rs[n - 1], net, tax, true)]
  }

  /** Tax taken out of gross by rates that are already in extraction order. */
  function Extracted(gross: int, simple: seq<TaxRate>, compound: seq<TaxRate>): Outcome<TaxResult, TaxError> {
    var first := ExtractedLines(gross, compound);
    var rest := gross - SumTax(first);
    if |simple| >= 2 && CombinedRate(simple) == 0.0 then Err(DivisionUndefined)
    else if simple == [] then Ok(TaxResult(rest, Reverse(first), gross, true))
    else
      var net := NetWithin(rest, CombinedRate(simple));
      var second := ShareLines(net, rest - net, simple, |simple|);
      Ok(TaxResult(net, Reverse(first + second), gross, true))
  }

  function Inclusive(gross: int, rates: seq<TaxRate>): Outcome<TaxResult, TaxError> {
    var sorted := Sort(rates, Descending);
    Extracted(gross, Filter(sorted, IsSimple), Filter(sorted, IsCompound))
  }

  // ---- The engine's loops ----

  method AddSimpleTaxes(net: int, simple: seq<TaxRate>) returns (lines: seq<TaxLine>, runningTotal: int)
    ensures lines == SimpleLines(net, simple) && runningTotal == net + SumTax(lines)
  {
    lines, runningTotal := [], net;
    for i := 0 to |simple|
      invariant lines == SimpleLines(net, simple[..i])
      invariant runningTotal == net + SumTax(lines)
    {
      var tax := TaxOn(net, simple[i]);
      runningTotal := runningTotal + tax;
      lines := lines + [Line(simple[i], net, tax, false)];
      assert simple[..i + 1][..i] == simple[..i];
    }
    assert simple[..|simple|] == simple;
  }

  method AddCompoundTaxes(base: int, compound: seq<TaxRate>) returns (lines: seq<TaxLine>, runningTotal: int)
    ensures lines == CompoundLines(base, compound) && runningTotal == base + SumTax(lines)
  {
    lines, runningTotal := [], base;
    for i := 0 to |compound|
      invariant lines == CompoundLines(base, compound[..i])
      invariant runningTotal == base + SumTax(lines)
    {
      var taxable, tax := runningTotal, TaxOn(runningTotal, compound[i]);
      runningTotal := runningTotal + tax;
      lines := lines + [Line(compound[i], taxable, tax, false)];
      assert compound[..i + 1][..i] == compound[..i];
    }
    assert compound[..|compound|] == compound;
  }

  method CalculateExclusive(net: int, rates: seq<TaxRate>) returns (result: TaxResult)
    ensures result == Exclusive(net, rates)
  {
    hide SimpleLines, CompoundLines, SumTax, Sort, Filter;
    var sorted := Sort(rates, Ascending);
    var simpleLines, base := AddSimpleTaxes(net, Filter(sorted, IsSimple));
    var compoundLines, gross := AddCompoundTaxes(base, Filter(sorted, IsCompound));
    result := TaxResult(net, simpleLines + compoundLines, gross, false);
  }

  method ExtractCompoundTaxes(gross: int, compound: seq<TaxRate>) returns (lines: seq<TaxLine>, runningGross: int)
    ensures lines == ExtractedLines(gross, compound) && runningGross == gross - SumTax(lines)
  {
    hide TaxWithin;
    lines, runningGross := [], gross;
    for i := 0 to |compound|
      invariant lines + ExtractedLines(runningGross, compound[i..]) == ExtractedLines(gross, compound)
      invariant runningGross == gross - SumTax(lines)
    {
      var tax := TaxWithin(runningGross, compound[i]);
      assert compound[i..][1..] == compound[i + 1..];
      assert ExtractedLines(runningGross, compound[i..]) ==
             [Line(compound[i], runningGross - tax, tax, true)] + ExtractedLines(runningGross - tax, compound[i + 1..]);
      runningGross := runningGross - tax;
      lines := lines + [Line(compound[i], runningGross, tax, true)];
    }
  }

  method ShareSimpleTaxes(net: int, total: int, simple: seq<TaxRate>) returns (lines: seq<TaxLine>)
    requires |simple| <= 1 || CombinedRate(simple) > 0.0
    ensures lines == ShareLines(net, total, simple, |simple|)
  {
    lines := [];
    var soFar, combined := 0, CombinedRate(simple);
    for i := 0 to |simple|
      invariant lines == ShareLines(net, total, simple, i)
      invariant i < |simple| ==> soFar == SumTax(lines)
    {
      var tax := total - soFar;
      if i != |simple| - 1 {
        tax := Proportion(total, simple[i], combined);
        soFar := soFar + tax;
      }
      lines := lines + [Line(simple[i], net, tax, true)];
    }
  }

  method CalculateInclusive(gross: int, rates: seq<TaxRate>) returns (result: Outcome<TaxResult, TaxError>)
    ensures result == Inclusive(gross, rates)
  {
    var sorted := Sort(rates, Descending);
    var simple := Filter(sorted, IsSimple);
    var lines, rest := ExtractCompoundTaxes(gross, Filter(sorted, IsCompound));
    var combined := CombinedRate(simple);
    if |simple| >= 2 && combined == 0.0 {
      return Err(DivisionUndefined);   // raised by the first proportional share
    }
    if simple == [] {
      return Ok(TaxResult(rest, Reverse(lines), gross, true));
    }
    var net := NetWithin(rest, combined);
    var shares := ShareSimpleTaxes(net, rest - net, simple);
    result := Ok(TaxResult(net, Reverse(lines + shares), gross, true));
  }

  function EffectiveOn(r: TaxRate, date: Option<int>): Outcome<bool, TaxError> {
    if r.effectiveFrom.Some? && date.None? then Err(DateMissing(r.code))
    else if r.effectiveFrom.Some? && date.value < r.effectiveFrom.value then Ok(false)
    else if r.effectiveTo.Some? && date.None? then Err(DateMissing(r.code))
    else if r.effectiveTo.Some? && date.value > r.effectiveTo.value then Ok(false)
    else Ok(true)
  }

  predicate Usable(code: string, rates: map<string, TaxRate>, date: Option<int>) {
    code in rates && EffectiveOn(rates[code], date) == Ok(true)
  }

  /** Effective dates include both ends, and a dated rate needs a date to be compared with. */
  lemma UsableIff(code: string, rates: map<string, TaxRate>, date: Option<int>)
    ensures Usable(code, rates, date) <==>
            && code in rates
            && (rates[code].effectiveFrom.Some? ==> date.Some? && rates[code].effectiveFrom.value <= date.value)
            && (rates[code].effectiveTo.Some? ==> date.Some? && date.value <= rates[code].effectiveTo.value)
    ensures !Usable(code, rates, date) ==>
            CodeError(code, rates, date) ==
            if code !in rates then CodeNotFound(code)
            else if date.None? then DateMissing(rates[code].code)
            else NotEffective(code)
  {
  }

  predicate AllUsable(codes: seq<string>, rates: map<string, TaxRate>, date: Option<int>) {
    forall c :: c in codes ==> Usable(c, rates, date)
  }

  /** The rates the codes name, in their order. */
  function Named(codes: seq<string>, rates: map<string, TaxRate>): seq<TaxRate>
    requires forall c :: c in codes ==> c in rates
  {
    seq(|codes|, i requires 0 <= i < |codes| => rates[codes[i]])
  }

  /** Why a code that cannot be used is refused. */
  function CodeError(code: string, rates: map<string, TaxRate>, date: Option<int>): TaxError {
    if code !in rates then CodeNotFound(code)
    else if EffectiveOn(rates[code], date).Err? then EffectiveOn(rates[code], date).error
    else NotEffective(code)
  }

  /** The error is that of the first code that cannot be used. */
  ghost predicate FailsFirst(codes: seq<string>, rates: map<string, TaxRate>, date: Option<int>, e: TaxError) {
    exists i :: 0 <= i < |codes| && AllUsable(codes[..i], rates, date) && !Usable(codes[i], rates, date) &&
      e == CodeError(codes[i], rates, date)
  }

  /** The rates named by the codes; raises at the first of them that cannot be used. */
  method CollectRates(codes: seq<string>, rates: map<string, TaxRate>, date: Option<int>)
      returns (result: Outcome<seq<TaxRate>, TaxError>)
    ensures result.Ok? <==> AllUsable(codes, rates, date)
    ensures result.Ok? ==> result.value == Named(codes, rates)
    ensures result.Err? ==> FailsFirst(codes, rates, date, result.error)
  {
    hide EffectiveOn;
    var applicable: seq<TaxRate> := [];
    for i := 0 to |codes|
      invariant |applicable| == i
      invariant forall j :: 0 <= j < i ==> Usable(codes[j], rates, date)
      invariant forall j :: 0 <= j < i ==> applicable[j] == rates[codes[j]]
    {
      assert codes[i] in codes;
      assert AllUsable(codes[..i], rates, date);
      if codes[i] !in rates {
        return Err(CodeNotFound(codes[i]));
      }
      match EffectiveOn(rates[codes[i]], date)
      case Err(e) => return Err(e);
      case Ok(false) => return Err(NotEffective(codes[i]));
      case Ok(true) => applicable := applicable + [rates[codes[i]]];
    }
    result := Ok(applicable);
  }

  method Calculate(amount: int, codes: seq<string>, rates: map<string, TaxRate>, inclusive: bool, date: Option<int>)
      returns (result: Outcome<TaxResult, TaxError>)
    ensures codes == [] ==> result == Ok(TaxResult(amount, [], amount, false))
    ensures result.Ok? ==> amount == if inclusive then result.value.gross else result.value.net
    ensures result.Ok? ==> result.value.net + SumTax(result.value.lines) == result.value.gross
    ensures codes != [] && AllUsable(codes, rates, date) ==>
      result == if inclusive then Inclusive(amount, Named(codes, rates)) else Ok(Exclusive(amount, Named(codes, rates)))
    ensures !AllUsable(codes, rates, date) ==> result.Err? && FailsFirst(codes, rates, date, result.error)
    // Line by line.
    ensures codes != [] && !inclusive && result.Ok? ==>
      && AllUsable(codes, rates, date)
      && AddedInOrder(amount, ApplicationOrder(Named(codes, rates)), result.value.lines)
    ensures codes != [] && inclusive && result.Ok? ==>
      && AllUsable(codes, rates, date)
      && TakenOut(amount, ExtractionOrder(Named(codes, rates)), result.value.net, Reverse(result.value.lines))
      && ProportionalShares(amount, ExtractionOrder(Named(codes, rates)), result.value.net, Reverse(result.value.lines))
  {
    hide Inclusive, Exclusive, SumTax, AllUsable, FailsFirst, AddedInOrder, TakenOut, ApplicationOrder, ExtractionOrder,
      ProportionalShares, Reverse;
    NoCodes(rates, date);
    if codes == [] {
      return Ok(TaxResult(amount, [], amount, false));
    }
    var collected := CollectRates(codes, rates, date);
    match collected
    case Err(e) =>
      result := Err(e);
    case Ok(applicable) =>
      if inclusive {
        result := CalculateInclusive(amount, applicable);
        InclusiveConserves(amount, applicable);
        if result.Ok? {
          InclusiveLineByLine(amount, applicable);
          InclusiveSharesProportional(amount, applicable);
        }
      } else {
        var r := CalculateExclusive(amount, applicable);
        result := Ok(r);
        ExclusiveConserves(amount, applicable);
        ExclusiveLineByLine(amount, applicable);
      }
  }

  lemma NoCodes(rates: map<string, TaxRate>, date: Option<int>)
    ensures AllUsable([], rates, date) && SumTax([]) == 0
  {
  }

  method CalculateWithholding(gross: int, r: TaxRate) returns (result: Outcome<TaxResult, TaxError>)
    ensures result.Err? <==> r.taxType != Withholding
    ensures result.Ok? ==> var res := result.value;
      && res.gross == gross && res.net + SumTax(res.lines) == gross
      && (r.rate <= 1.0 && gross >= 0 ==> 0 <= res.net <= gross)
      && -0.5 <= res.net as real - (gross as real - gross as real * r.rate) <= 0.5
      && |res.lines| == 1 && !res.inclusive
      && IsLine(res.lines[0], r.(isCompound := false), gross, RoundHalfUp(gross as real * r.rate), false)
  {
    if r.taxType != Withholding {
      return Err(NotWithholding);
    }
    var line := Line(r, gross, TaxOn(gross, r), false).(isCompound := false);
    if r.rate <= 1.0 && gross >= 0 {
      PartOfGross(gross, r);
    }
    result := Ok(TaxResult(gross - line.tax, [line], gross, false));
    assert SumTax([line]) == line.tax;
  }

  lemma PartOfGross(gross: int, r: TaxRate)
    requires gross >= 0 && r.rate <= 1.0
    ensures 0 <= TaxOn(gross, r) <= gross
  {
    var x := gross as real * r.rate;
    assert 0.0 <= x <= gross as real;
    RoundBetween(0, x, gross);
  }

  // ---- Conservation ----

  lemma {:induction false} SumTaxAppend(a: seq<TaxLine>, b: seq<TaxLine>)
    ensures SumTax(a + b) == SumTax(a) + SumTax(b)
  {
    if b == [] {
      assert a + b == a;
    } else {
      SumTaxAppend(a, b[..|b| - 1]);
      assert (a + b)[..|a + b| - 1] == a + b[..|b| - 1];
    }
  }

  lemma {:induction false} SumTaxReverse(lines: seq<TaxLine>)
    ensures SumTax(Reverse(lines)) == SumTax(lines)
  {
    if lines != [] {
      SumTaxReverse(lines[1..]);
      SumTaxAppend(Reverse(lines[1..]), [lines[0]]);
      SumTaxAppend([lines[0]], lines[1..]);
      assert lines == [lines[0]] + lines[1..];
      assert Reverse(lines) == Reverse(lines[1..]) + [lines[0]];
    }
  }

  lemma ExclusiveConserves(net: int, rates: seq<TaxRate>)
    ensures var r := Exclusive(net, rates); r.net == net && net + SumTax(r.lines) == r.gross
  {
    var sorted := Sort(rates, Ascending);
    AppliedConserves(net, Filter(sorted, IsSimple), Filter(sorted, IsCompound));
  }

  lemma AppliedConserves(net: int, simple: seq<TaxRate>, compound: seq<TaxRate>)
    ensures var r := Applied(net, simple, compound); net + SumTax(r.lines) == r.gross
  {
    var first := SimpleLines(net, simple);
    SumTaxAppend(first, CompoundLines(net + SumTax(first), compound));
  }

  /** The line is that of rate r, with this base and this tax. */
  ghost predicate IsLine(line: TaxLine, r: TaxRate, taxable: int, tax: int, included: bool) {
    && line.code == r.code && line.rate == r.rate && line.isCompound == r.isCompound
    && line.taxable == taxable && line.tax == tax && line.isIncluded == included
  }

  /** Simple taxes first, on the net, then compound taxes, each on the net plus every tax before it; the
      tax is that base times the rate, rounded half up. */
  ghost predicate AddedInOrder(net: int, order: seq<TaxRate>, lines: seq<TaxLine>) {
    && |lines| == |order|
    && forall i :: 0 <= i < |lines| ==>
         AddedLine(lines[i], order[i], if order[i].isCompound then net + SumTax(lines[..i]) else net)
  }

  ghost predicate AddedLine(line: TaxLine, r: TaxRate, base: int) {
    IsLine(line, r, base, RoundHalfUp(base as real * r.rate), false)
  }

  function ApplicationOrder(rates: seq<TaxRate>): seq<TaxRate> {
    Filter(Sort(rates, Ascending), IsSimple) + Filter(Sort(rates, Ascending), IsCompound)
  }

  /** Rates are applied once each, simple before compound, lower priority first, and otherwise in the
      order given. */
  lemma AppliedByPriority(rates: seq<TaxRate>)
    ensures var order := ApplicationOrder(rates);
            && multiset(order) == multiset(rates)
            && (forall i, j :: 0 <= i < j < |order| ==>
                  if order[i].isCompound == order[j].isCompound then order[i].priority <= order[j].priority
                  else order[j].isCompound)
    ensures forall p :: ClassAt(ApplicationOrder(rates), IsSimple, p) == ClassAt(rates, IsSimple, p)
    ensures forall p :: ClassAt(ApplicationOrder(rates), IsCompound, p) == ClassAt(rates, IsCompound, p)
  {
    hide Filter, Sort;
    var up := Sort(rates, Ascending);
    SortKeeps(rates, Ascending);
    SortSorts(rates, Ascending);
    SplitByKind(up);
    FilterKeepsSorted(up, IsSimple, Ascending);
    FilterKeepsSorted(up, IsCompound, Ascending);
    OrderByKind(Filter(up, IsSimple), Filter(up, IsCompound), Ascending);
    KindsInOrder(Filter(up, IsSimple), Filter(up, IsCompound));
    forall p ensures ClassAt(ApplicationOrder(rates), IsSimple, p) == ClassAt(rates, IsSimple, p) {
      FilterSort(rates, Ascending, IsSimple);
      SortedAtPriority(rates, IsSimple, p);
    }
    forall p ensures ClassAt(ApplicationOrder(rates), IsCompound, p) == ClassAt(rates, IsCompound, p) {
      FilterSort(rates, Ascending, IsCompound);
      SortedAtPriority(rates, IsCompound, p);
    }
  }

  lemma {:induction false} SplitByKind(s: seq<TaxRate>)
    ensures multiset(Filter(s, IsSimple) + Filter(s, IsCompound)) == multiset(s)
  {
    hide Filter;
    if s == [] {
      FilterNone<TaxRate>([], IsSimple);
      FilterNone<TaxRate>([], IsCompound);
    } else {
      SplitByKind(s[1..]);
      FilterFront(s[0], s[1..], IsSimple);
      FilterFront(s[0], s[1..], IsCompound);
      assert s == [s[0]] + s[1..];
    }
  }

  lemma {:induction false} FilterKeepsSorted(s: seq<TaxRate>, keep: TaxRate -> bool, leq: (TaxRate, TaxRate) -> bool)
    requires Sorted(s, leq)
    ensures Sorted(Filter(s, keep), leq)
  {
    if s != [] {
      FilterKeepsSorted(s[1..], keep, leq);
      forall x | x in Filter(s[1..], keep) ensures leq(s[0], x) {
        assert x in s[1..];
      }
    }
  }

  /** Sorted simple rates followed by sorted compound ones. */
  lemma OrderByKind(simple: seq<TaxRate>, compound: seq<TaxRate>, leq: (TaxRate, TaxRate) -> bool)
    requires Sorted(simple, leq) && Sorted(compound, leq)
    requires (forall r :: r in simple ==> !r.isCompound) && (forall r :: r in compound ==> r.isCompound)
    ensures var order := simple + compound;
            forall i, j :: 0 <= i < j < |order| ==>
              if order[i].isCompound == order[j].isCompound then leq(order[i], order[j]) else order[j].isCompound
  {
    var order := simple + compound;
    forall i, j | 0 <= i < j < |order|
      ensures if order[i].isCompound == order[j].isCompound then leq(order[i], order[j]) else order[j].isCompound {
      assert if i < |simple| then order[i] in simple else order[i] in compound;
      assert if j < |simple| then order[j] in simple else order[j] in compound;
    }
  }

  lemma KindsInOrder(simple: seq<TaxRate>, compound: seq<TaxRate>)
    requires (forall r :: r in simple ==> !r.isCompound) && (forall r :: r in compound ==> r.isCompound)
    ensures Filter(simple + compound, IsSimple) == simple && Filter(simple + compound, IsCompound) == compound
  {
    hide Filter;
    FilterPlus(simple, compound, IsSimple);
    FilterPlus(simple, compound, IsCompound);
    FilterAll(simple, IsSimple);
    FilterAll(compound, IsCompound);
    FilterNone(simple, IsCompound);
    FilterNone(compound, IsSimple);
  }

  /** What each line of the exclusive calculation is. */
  lemma ExclusiveLineByLine(net: int, rates: seq<TaxRate>)
    ensures AddedInOrder(net, ApplicationOrder(rates), Exclusive(net, rates).lines)
  {
    hide Sort, TaxOn, SumTax, Filter, Applied, Line, AddedLine;
    var sorted := Sort(rates, Ascending);
    var simple, compound := Filter(sorted, IsSimple), Filter(sorted, IsCompound);
    AppliedLineByLine(net, simple, compound);
    var order, lines := simple + compound, Applied(net, simple, compound).lines;
    forall i | 0 <= i < |lines|
      ensures AddedLine(lines[i], order[i], if order[i].isCompound then net + SumTax(lines[..i]) else net) {
      AddedLineIs(order[i], lines[i].taxable);
    }
  }

  lemma AddedLineIs(r: TaxRate, base: int)
    ensures AddedLine(Line(r, base, TaxOn(base, r), false), r, base)
  {
  }

  lemma LineIs(r: TaxRate, taxable: int, tax: int, included: bool)
    ensures IsLine(Line(r, taxable, tax, included), r, taxable, tax, included)
  {
  }

  lemma AppliedLineByLine(net: int, simple: seq<TaxRate>, compound: seq<TaxRate>)
    requires (forall r :: r in simple ==> !r.isCompound) && (forall r :: r in compound ==> r.isCompound)
    ensures var order, lines := simple + compound, Applied(net, simple, compound).lines;
            && |lines| == |order|
            && forall i :: 0 <= i < |lines| ==>
                 && lines[i].taxable == (if order[i].isCompound then net + SumTax(lines[..i]) else net)
                 && lines[i] == Line(order[i], lines[i].taxable, TaxOn(lines[i].taxable, order[i]), false)
  {
    hide TaxOn, Line, SumTax, SimpleLines, CompoundLines;
    var order, lines := simple + compound, Applied(net, simple, compound).lines;
    SimpleByLine(net, simple);
    forall i | 0 <= i < |lines|
      ensures lines[i].taxable == (if order[i].isCompound then net + SumTax(lines[..i]) else net)
      ensures lines[i] == Line(order[i], lines[i].taxable, TaxOn(lines[i].taxable, order[i]), false) {
      if i < |simple| {
        assert order[i] in simple;
      } else {
        assert order[i] in compound;
        CompoundLineAt(net, simple, compound, i);
      }
    }
  }

  lemma CompoundLineAt(net: int, simple: seq<TaxRate>, compound: seq<TaxRate>, i: nat)
    requires |simple| <= i < |simple| + |compound|
    ensures var lines, r := Applied(net, simple, compound).lines, compound[i - |simple|];
            && |lines| == |simple| + |compound|
            && lines[i].taxable == net + SumTax(lines[..i])
            && lines[i] == Line(r, lines[i].taxable, TaxOn(lines[i].taxable, r), false)
  {
    hide TaxOn, Line, SumTax, SimpleLines, CompoundLines;
    var first, k := SimpleLines(net, simple), i - |simple|;
    var base := net + SumTax(first);
    var second := CompoundLines(base, compound);
    CompoundByLine(base, compound);
    SumTaxAppend(first, second[..k]);
    assert (first + second)[..i] == first + second[..k];
  }

  lemma {:induction false} SimpleByLine(net: int, rs: seq<TaxRate>)
    ensures forall i :: 0 <= i < |rs| ==> SimpleLines(net, rs)[i] == Line(rs[i], net, TaxOn(net, rs[i]), false)
    ensures forall i :: 0 <= i < |rs| ==> SimpleLines(net, rs)[i].taxable == net
  {
    hide TaxOn;
    if rs != [] {
      SimpleByLine(net, rs[..|rs| - 1]);
    }
  }

  lemma LineTaxable(r: TaxRate, taxable: int, tax: int)
    ensures Line(r, taxable, tax, false).taxable == taxable
  {
  }

  lemma {:induction false} CompoundByLine(base: int, rs: seq<TaxRate>)
    ensures forall i :: 0 <= i < |rs| ==>
      var taxable := base + SumTax(CompoundLines(base, rs)[..i]);
      CompoundLines(base, rs)[i] == Line(rs[i], taxable, TaxOn(taxable, rs[i]), false) &&
      CompoundLines(base, rs)[i].taxable == taxable
  {
    hide TaxOn, SumTax, CompoundLines, Line;
    if rs != [] {
      var init, last := rs[..|rs| - 1], rs[|rs| - 1];
      CompoundByLine(base, init);
      CompoundLast(base, init, last);
      assert rs == init + [last];
      var lines, before := CompoundLines(base, rs), CompoundLines(base, init);
      LineTaxable(last, base + SumTax(before), TaxOn(base + SumTax(before), last));
      forall i | 0 <= i < |rs|
        ensures var taxable := base + SumTax(lines[..i]);
                lines[i] == Line(rs[i], taxable, TaxOn(taxable, rs[i]), false) && lines[i].taxable == taxable {
        assert lines[..i] == before[..i];
        assert before[..|init|] == before;
      }
    }
  }

  lemma InclusiveConserves(gross: int, rates: seq<TaxRate>)
    ensures var r := Inclusive(gross, rates);
            r.Ok? ==> r.value.gross == gross && r.value.net + SumTax(r.value.lines) == gross
  {
    var sorted := Sort(rates, Descending);
    ExtractedConserves(gross, Filter(sorted, IsSimple), Filter(sorted, IsCompound));
  }

  lemma ExtractedConserves(gross: int, simple: seq<TaxRate>, compound: seq<TaxRate>)
    ensures var r := Extracted(gross, simple, compound);
            r.Ok? ==> r.value.gross == gross && r.value.net + SumTax(r.value.lines) == gross
  {
    hide ExtractedLines, SumTax, CombinedRate, NetWithin, ShareLines, Reverse;
    var first := ExtractedLines(gross, compound);
    var rest := gross - SumTax(first);
    if simple == [] {
      SumTaxReverse(first);
    } else if |simple| == 1 || CombinedRate(simple) > 0.0 {
      var net := NetWithin(rest, CombinedRate(simple));
      SharesConserve(net, rest - net, simple);
      SumTaxAppend(first, ShareLines(net, rest - net, simple, |simple|));
      SumTaxReverse(first + ShareLines(net, rest - net, simple, |simple|));
    }
  }

  lemma SharesConserve(net: int, total: int, rs: seq<TaxRate>)
    requires rs != [] && (|rs| <= 1 || CombinedRate(rs) > 0.0)
    ensures SumTax(ShareLines(net, total, rs, |rs|)) == total
  {
    var lines := ShareLines(net, total, rs, |rs|);
    assert lines[..|lines| - 1] == ShareLines(net, total, rs, |rs| - 1);
  }

  // ---- Extraction line by line ----

  /** The compound rates of an extraction order. */
  function CompoundPart(order: seq<TaxRate>): seq<TaxRate> { Filter(order, IsCompound) }

  function SimplePart(order: seq<TaxRate>): seq<TaxRate> { Filter(order, IsSimple) }

  function ExtractionOrder(rates: seq<TaxRate>): seq<TaxRate> {
    Filter(Sort(rates, Descending), IsCompound) + Filter(Sort(rates, Descending), IsSimple)
  }

  /** Rates are extracted once each, compound before simple, higher priority first. */
  lemma ExtractedByPriority(rates: seq<TaxRate>)
    ensures var order := ExtractionOrder(rates);
            && multiset(order) == multiset(rates)
            && (forall i, j :: 0 <= i < j < |order| ==>
                  if order[i].isCompound == order[j].isCompound then order[i].priority >= order[j].priority
                  else order[i].isCompound)
  {
    hide Filter, Sort;
    var down := Sort(rates, Descending);
    SortKeeps(rates, Descending);
    SortSorts(rates, Descending);
    SplitByKind(down);
    FilterKeepsSorted(down, IsSimple, Descending);
    FilterKeepsSorted(down, IsCompound, Descending);
    CompoundFirst(Filter(down, IsCompound), Filter(down, IsSimple));
  }

  lemma CompoundFirst(compound: seq<TaxRate>, simple: seq<TaxRate>)
    requires Sorted(simple, Descending) && Sorted(compound, Descending)
    requires (forall r :: r in simple ==> !r.isCompound) && (forall r :: r in compound ==> r.isCompound)
    ensures var order := compound + simple;
            forall i, j :: 0 <= i < j < |order| ==>
              if order[i].isCompound == order[j].isCompound then order[i].priority >= order[j].priority
              else order[i].isCompound
    ensures multiset(compound + simple) == multiset(simple + compound)
  {
    var order := compound + simple;
    forall i, j | 0 <= i < j < |order|
      ensures if order[i].isCompound == order[j].isCompound then order[i].priority >= order[j].priority
              else order[i].isCompound {
      assert if i < |compound| then order[i] in compound else order[i] in simple;
      assert if j < |compound| then order[j] in compound else order[j] in simple;
    }
  }

  /** The lines in the order in which their taxes are taken out of gross. A compound tax is the part
      rate/(1 + rate) of what is left, rounded; the net is the part 1/(1 + R) of what the compound taxes
      leave, R the sum of the simple rates; and every simple tax but the last is its share rate/R of the
      difference, rounded, the last taking the rest. */
  ghost predicate TakenOut(gross: int, order: seq<TaxRate>, net: int, lines: seq<TaxLine>) {
    var n, total := |CompoundPart(order)|, CombinedRate(SimplePart(order));
    && |lines| == |order| && n <= |order|
    && (forall j :: 0 <= j < n ==> TakenLine(lines[j], order[j], gross - SumTax(lines[..j])))
    && (var rest := gross - SumTax(lines[..n]);
        && net == (if n == |order| then rest else RoundHalfUp(rest as real / (1.0 + total)))
        && (forall j :: n <= j < |order| ==> IsLine(lines[j], order[j], net, lines[j].tax, true))
        && (forall j :: n <= j < |order| - 1 ==> IsShare(lines[j].tax, rest - net, order[j], total))
        && SumTax(lines[n..]) == rest - net)
  }

  ghost predicate TakenLine(line: TaxLine, r: TaxRate, rest: int) {
    var tax := RoundHalfUp(IncludedTax(rest, r.rate));
    IsLine(line, r, rest - tax, tax, true)
  }

  /** The tax at a rate that is contained in an amount. */
  function IncludedTax(rest: int, rate: real): real
    requires rate >= 0.0
  {
    rest as real * rate / (1.0 + rate)
  }

  ghost predicate IsShare(tax: int, difference: int, r: TaxRate, total: real) {
    total > 0.0 && tax == RoundHalfUp(difference as real * (r.rate / total))
  }

  lemma TaxPartIs(rest: int, rate: real)
    requires rate >= 0.0
    ensures TaxPart(rest as real, rate) == IncludedTax(rest, rate)
  {
  }

  lemma TakenLineIs(r: TaxRate, rest: int)
    ensures var tax := TaxWithin(rest, r); TakenLine(Line(r, rest - tax, tax, true), r, rest)
  {
    hide RoundHalfUp, IsLine, Line, TaxPart, IncludedTax;
    TaxPartIs(rest, r.rate);
    LineIs(r, rest - TaxWithin(rest, r), TaxWithin(rest, r), true);
  }

  lemma {:induction false} ExtractedByLine(gross: int, rs: seq<TaxRate>, j: nat)
    requires j < |rs|
    ensures var lines := ExtractedLines(gross, rs);
            TakenLine(lines[j], rs[j], gross - SumTax(lines[..j]))
    decreases |rs|
  {
    hide SumTax, TaxWithin, TakenLine, Line;
    TakenLineIs(rs[0], gross);
    ExtractHead(gross, rs);
    var lines, tax := ExtractedLines(gross, rs), TaxWithin(gross, rs[0]);
    var tail := ExtractedLines(gross - tax, rs[1..]);
    assert lines == [lines[0]] + tail;
    if j == 0 {
      assert lines[..0] == [];
      NoTax();
    } else {
      ExtractedByLine(gross - tax, rs[1..], j - 1);
      assert lines[..j] == [lines[0]] + tail[..j - 1];
      SumTaxAppend([lines[0]], tail[..j - 1]);
      OneTax(lines[0]);
    }
  }

  lemma ExtractHead(gross: int, rs: seq<TaxRate>)
    requires rs != []
    ensures var tax := TaxWithin(gross, rs[0]);
            && ExtractedLines(gross, rs) == [Line(rs[0], gross - tax, tax, true)] + ExtractedLines(gross - tax, rs[1..])
            && Line(rs[0], gross - tax, tax, true).tax == tax
  {
    hide TaxWithin;
  }

  lemma NoTax()
    ensures SumTax([]) == 0
  {
  }

  lemma OneTax(line: TaxLine)
    ensures SumTax([line]) == line.tax
  {
    assert [line][..0] == [];
  }

  lemma OrderParts(compound: seq<TaxRate>, simple: seq<TaxRate>)
    requires (forall r :: r in simple ==> !r.isCompound) && (forall r :: r in compound ==> r.isCompound)
    ensures CompoundPart(compound + simple) == compound && SimplePart(compound + simple) == simple
  {
    hide Filter;
    FilterPlus(compound, simple, IsSimple);
    FilterPlus(compound, simple, IsCompound);
    FilterAll(simple, IsSimple);
    FilterAll(compound, IsCompound);
    FilterNone(simple, IsCompound);
    FilterNone(compound, IsSimple);
  }

  /** What each line of the inclusive extraction is, read backwards from the last line. */
  lemma InclusiveLineByLine(gross: int, rates: seq<TaxRate>)
    requires Inclusive(gross, rates).Ok?
    ensures var back := Inclusive(gross, rates).value;
            TakenOut(gross, ExtractionOrder(rates), back.net, Reverse(back.lines))
  {
    hide Sort, Filter, Extracted, TakenOut;
    var sorted := Sort(rates, Descending);
    ExtractedTakesOut(gross, Filter(sorted, IsSimple), Filter(sorted, IsCompound));
  }

  lemma ExtractedTakesOut(gross: int, simple: seq<TaxRate>, compound: seq<TaxRate>)
    requires Extracted(gross, simple, compound).Ok?
    requires (forall r :: r in simple ==> !r.isCompound) && (forall r :: r in compound ==> r.isCompound)
    ensures var back := Extracted(gross, simple, compound).value;
            TakenOut(gross, compound + simple, back.net, Reverse(back.lines))
  {
    hide ExtractedLines, SumTax, ShareLines, CombinedRate, NetWithin, Reverse, Extracted, TakenOut;
    DefinedWhenOk(gross, simple, compound);
    ExtractedValue(gross, simple, compound);
    var first := ExtractedLines(gross, compound);
    var rest := gross - SumTax(first);
    if simple == [] {
      CompoundTakesOut(gross, compound);
      assert compound + simple == compound && first + [] == first;
      ReverseTwice(first);
    } else {
      var net := NetWithin(rest, CombinedRate(simple));
      ReverseTwice(first + ShareLines(net, rest - net, simple, |simple|));
      BothTakeOut(gross, simple, compound);
    }
  }

  lemma CompoundTakesOut(gross: int, compound: seq<TaxRate>)
    requires forall r :: r in compound ==> r.isCompound
    ensures var lines := ExtractedLines(gross, compound); TakenOut(gross, compound, gross - SumTax(lines), lines)
  {
    hide ExtractedLines, SumTax, CombinedRate, CompoundPart, SimplePart, TakenLine;
    OrderParts(compound, []);
    assert compound + [] == compound;
    var lines, n := ExtractedLines(gross, compound), |compound|;
    assert lines[..n] == lines && lines[n..] == [];
    NoTax();
    forall j | 0 <= j < n ensures TakenLine(lines[j], compound[j], gross - SumTax(lines[..j])) {
      ExtractedByLine(gross, compound, j);
    }
  }

  lemma BothTakeOut(gross: int, simple: seq<TaxRate>, compound: seq<TaxRate>)
    requires simple != [] && (|simple| <= 1 || CombinedRate(simple) > 0.0)
    requires (forall r :: r in simple ==> !r.isCompound) && (forall r :: r in compound ==> r.isCompound)
    ensures var first := ExtractedLines(gross, compound);
            var rest := gross - SumTax(first);
            var net := NetWithin(rest, CombinedRate(simple));
            TakenOut(gross, compound + simple, net, first + ShareLines(net, rest - net, simple, |simple|))
  {
    hide ExtractedLines, SumTax, ShareLines, CombinedRate, NetWithin, CompoundPart, SimplePart, IsLine, TakenLine,
      IsShare;
    OrderParts(compound, simple);
    var first := ExtractedLines(gross, compound);
    var rest := gross - SumTax(first);
    var net := NetWithin(rest, CombinedRate(simple));
    var second := ShareLines(net, rest - net, simple, |simple|);
    var lines, order, n := first + second, compound + simple, |compound|;
    assert lines[..n] == first && lines[n..] == second;
    SharesConserve(net, rest - net, simple);
    NetWithinIs(rest, CombinedRate(simple));
    forall j | 0 <= j < n ensures TakenLine(lines[j], order[j], gross - SumTax(lines[..j])) {
      ExtractedByLine(gross, compound, j);
      assert lines[..j] == first[..j];
    }
    forall j | n <= j < |order|
      ensures IsLine(lines[j], order[j], net, lines[j].tax, true)
      ensures j < |order| - 1 ==> IsShare(lines[j].tax, rest - net, order[j], CombinedRate(simple)) {
      ShareAt(net, rest - net, simple, |simple|, j - n);
      LineIs(simple[j - n], net, lines[j].tax, true);
      if j < |order| - 1 {
        ProportionIs(rest - net, simple[j - n], CombinedRate(simple));
      }
    }
  }

  lemma ExtractedValue(gross: int, simple: seq<TaxRate>, compound: seq<TaxRate>)
    requires |simple| <= 1 || CombinedRate(simple) > 0.0
    ensures var first := ExtractedLines(gross, compound);
            var rest := gross - SumTax(first);
            var net := if simple == [] then rest else NetWithin(rest, CombinedRate(simple));
            var second := if simple == [] then [] else ShareLines(net, rest - net, simple, |simple|);
            Extracted(gross, simple, compound) == Ok(TaxResult(net, Reverse(first + second), gross, true))
  {
    hide ExtractedLines, SumTax, ShareLines, CombinedRate, NetWithin, Reverse;
    assert ExtractedLines(gross, compound) + [] == ExtractedLines(gross, compound);
  }

  lemma NetWithinIs(gross: int, combined: real)
    requires combined >= 0.0
    ensures NetWithin(gross, combined) == RoundHalfUp(gross as real / (1.0 + combined))
  {
  }

  lemma ProportionIs(total: int, r: TaxRate, combined: real)
    requires combined > 0.0
    ensures IsShare(Proportion(total, r, combined), total, r, combined)
  {
  }

  /** A share of a total: the exact part that a rate is of all the rates. */
  function ExactPart(total: int, r: TaxRate, combined: real): real
    requires combined > 0.0
  {
    total as real * (r.rate / combined)
  }

  /** A tax is within so many half units of the exact part. */
  ghost predicate NearPart(tax: int, total: int, r: TaxRate, combined: real, halves: int)
    requires combined > 0.0
  {
    -(halves as real) <= 2.0 * (tax as real - ExactPart(total, r, combined)) <= halves as real
  }

  /** Every simple tax but the last is within half a unit of its exact part; the last, which takes what
      rounding left, is within (k-1)/2 of its own, k the number of simple taxes. */
  ghost predicate NearParts(lines: seq<TaxLine>, total: int, rs: seq<TaxRate>, combined: real)
    requires combined > 0.0 && |lines| == |rs| && rs != []
  {
    var k := |rs|;
    && (forall j :: 0 <= j < k - 1 ==> NearPart(lines[j].tax, total, rs[j], combined, 1))
    && NearPart(lines[k - 1].tax, total, rs[k - 1], combined, k - 1)
  }

  lemma SharesAreProportional(net: int, total: int, rs: seq<TaxRate>)
    requires rs != [] && CombinedRate(rs) > 0.0
    ensures NearParts(ShareLines(net, total, rs, |rs|), total, rs, CombinedRate(rs))
  {
    hide CombinedRate, SumTax, ShareLines, ExactPart;
    var lines, k := ShareLines(net, total, rs, |rs|), |rs|;
    forall j | 0 <= j < k - 1
      ensures NearPart(lines[j].tax, total, rs[j], CombinedRate(rs), 1) {
      ShareAt(net, total, rs, k, j);
      ShareError(total, rs[j], CombinedRate(rs));
    }
    SharesConserve(net, total, rs);
    SharePrefix(net, total, rs, k - 1);
    PartsOfAll(total, rs, k, CombinedRate(rs));
    assert rs[..k] == rs;
    PartsOfWhole(total, CombinedRate(rs));
  }

  /** The same of the lines of an extraction, in the order in which the taxes are taken out. */
  ghost predicate ProportionalShares(gross: int, order: seq<TaxRate>, net: int, lines: seq<TaxLine>) {
    var n, total := |CompoundPart(order)|, CombinedRate(SimplePart(order));
    && |lines| == |order| && n <= |order|
    && (n < |order| && total > 0.0 ==> NearParts(lines[n..], gross - SumTax(lines[..n]) - net, order[n..], total))
  }

  lemma InclusiveSharesProportional(gross: int, rates: seq<TaxRate>)
    requires Inclusive(gross, rates).Ok?
    ensures var back := Inclusive(gross, rates).value;
            ProportionalShares(gross, ExtractionOrder(rates), back.net, Reverse(back.lines))
  {
    hide Sort, Filter, Extracted, ProportionalShares;
    var sorted := Sort(rates, Descending);
    ExtractedProportional(gross, Filter(sorted, IsSimple), Filter(sorted, IsCompound));
  }

  lemma ExtractedProportional(gross: int, simple: seq<TaxRate>, compound: seq<TaxRate>)
    requires Extracted(gross, simple, compound).Ok?
    requires (forall r :: r in simple ==> !r.isCompound) && (forall r :: r in compound ==> r.isCompound)
    ensures var back := Extracted(gross, simple, compound).value;
            ProportionalShares(gross, compound + simple, back.net, Reverse(back.lines))
  {
    hide ExtractedLines, SumTax, ShareLines, CombinedRate, NetWithin, Reverse, Extracted, ProportionalShares;
    DefinedWhenOk(gross, simple, compound);
    ExtractedValue(gross, simple, compound);
    var first := ExtractedLines(gross, compound);
    var rest := gross - SumTax(first);
    var net := if simple == [] then rest else NetWithin(rest, CombinedRate(simple));
    var second := if simple == [] then [] else ShareLines(net, rest - net, simple, |simple|);
    ReverseTwice(first + second);
    PartsProportional(gross, simple, compound, first, second, net);
  }

  lemma PartsProportional(
    gross: int, simple: seq<TaxRate>, compound: seq<TaxRate>, first: seq<TaxLine>, second: seq<TaxLine>, net: int)
    requires (forall r :: r in simple ==> !r.isCompound) && (forall r :: r in compound ==> r.isCompound)
    requires |simple| <= 1 || CombinedRate(simple) > 0.0
    requires |first| == |compound| && |second| == |simple|
    requires simple != [] ==> second == ShareLines(net, gross - SumTax(first) - net, simple, |simple|)
    ensures ProportionalShares(gross, compound + simple, net, first + second)
  {
    hide SumTax, ShareLines, CombinedRate, CompoundPart, SimplePart, NearParts;
    OrderParts(compound, simple);
    assert (first + second)[..|first|] == first && (first + second)[|first|..] == second;
    assert (compound + simple)[|compound|..] == simple;
    if simple != [] && CombinedRate(simple) > 0.0 {
      SharesAreProportional(net, gross - SumTax(first) - net, simple);
    }
  }

  lemma ShareError(total: int, r: TaxRate, combined: real)
    requires combined > 0.0
    ensures -0.5 <= Proportion(total, r, combined) as real - ExactPart(total, r, combined) <= 0.5
  {
  }

  /** The taxes of the first n shares differ from their exact parts by at most half a unit each. */
  lemma {:induction false} SharePrefix(net: int, total: int, rs: seq<TaxRate>, n: nat)
    requires n < |rs| && CombinedRate(rs) > 0.0
    ensures var error := SumTax(ShareLines(net, total, rs, n)) as real - Parts(total, rs[..n], CombinedRate(rs));
            -(n as real) <= 2.0 * error <= n as real
    ensures SumTax(ShareLines(net, total, rs, n + 1)) ==
            SumTax(ShareLines(net, total, rs, n)) + ShareLines(net, total, rs, n + 1)[n].tax
    ensures n + 1 == |rs| ==> ShareLines(net, total, rs, n + 1)[n] == ShareLines(net, total, rs, |rs|)[n]
  {
    hide CombinedRate, ExactPart, Proportion;
    assert ShareLines(net, total, rs, n + 1)[..n] == ShareLines(net, total, rs, n);
    if n > 0 {
      SharePrefix(net, total, rs, n - 1);
      assert rs[..n][..n - 1] == rs[..n - 1];
      ShareError(total, rs[n - 1], CombinedRate(rs));
    } else {
      assert rs[..0] == [];
    }
  }

  function Parts(total: int, rs: seq<TaxRate>, combined: real): real
    requires combined > 0.0
  {
    if rs == [] then 0.0 else Parts(total, rs[..|rs| - 1], combined) + ExactPart(total, rs[|rs| - 1], combined)
  }

  lemma {:induction false} PartsOfAll(total: int, rs: seq<TaxRate>, n: nat, combined: real)
    requires n <= |rs| && combined > 0.0
    ensures Parts(total, rs[..n], combined) == total as real * (CombinedRate(rs[..n]) / combined)
    ensures n > 0 ==>
      Parts(total, rs[..n], combined) == Parts(total, rs[..n - 1], combined) + ExactPart(total, rs[n - 1], combined)
  {
    if n == 0 {
      assert rs[..0] == [];
      assert 0.0 / combined == 0.0;
    } else {
      PartsOfAll(total, rs, n - 1, combined);
      assert rs[..n][..n - 1] == rs[..n - 1];
      AddParts(total as real, CombinedRate(rs[..n - 1]), rs[n - 1].rate, combined);
    }
  }

  lemma AddParts(total: real, a: real, b: real, c: real)
    requires c > 0.0
    ensures total * ((a + b) / c) == total * (a / c) + total * (b / c)
  {
    assert (a + b) / c == a / c + b / c;
  }

  lemma PartsOfWhole(total: int, combined: real)
    requires combined > 0.0
    ensures total as real * (combined / combined) == total as real
  {
    assert combined / combined == 1.0;
  }

  // ---- Round trip ----

  function Included(lines: seq<TaxLine>): (r: seq<TaxLine>)
    ensures |r| == |lines|
  {
    seq(|lines|, i requires 0 <= i < |lines| => lines[i].(isIncluded := true))
  }

  lemma DivisionUndoes(q: real, d: real, n: real)
    requires d > 0.0 && q * d == n
    ensures n / d == q
  {
  }

  /** Applying a rate with rounding error e and dividing by 1 + r leaves only e / (1 + r). */
  lemma ErrorShrinks(g: real, b: real, t: real, r: real, e: real)
    requires r >= 0.0 && e == t - b * r && g == b + t
    ensures NetPart(g, r) == b + e / (1.0 + r)
    ensures TaxPart(g, r) == t - e / (1.0 + r)
  {
    var d := 1.0 + r;
    var q := e / d;
    assert q * d == e;
    assert (b + q) * d == b * d + q * d == b + b * r + e == g;
    DivisionUndoes(b + q, d, g);
    assert (t - q) * d == t * d - e == t + t * r - t + b * r == (b + t) * r == g * r;
    DivisionUndoes(t - q, d, g * r);
  }

  lemma ShrunkErrorIsSmall(e: real, r: real)
    requires r >= 0.0 && -0.5 <= e <= 0.5 && (r == 0.0 ==> e == 0.0)
    ensures -0.5 < e / (1.0 + r) < 0.5
  {
    var q := e / (1.0 + r);
    assert q * (1.0 + r) == e == q + q * r;
    assert q >= 0.0 ==> q * r >= 0.0;
    assert q <= 0.0 ==> q * r <= 0.0;
    assert r > 0.0 && q >= 0.5 ==> q * r > 0.0;
    assert r > 0.0 && q <= -0.5 ==> q * r < 0.0;
  }

  lemma TaxOnError(base: int, r: TaxRate) returns (e: real)
    ensures e == TaxOn(base, r) as real - base as real * r.rate
    ensures -0.5 <= e <= 0.5
    ensures -0.5 < e / (1.0 + r.rate) < 0.5
  {
    e := TaxOn(base, r) as real - base as real * r.rate;
    if r.rate == 0.0 {
      assert base as real * r.rate == 0.0;
    }
    ShrunkErrorIsSmall(e, r.rate);
  }

  lemma TaxWithinError(base: int, t: int, r: TaxRate, e: real)
    requires e == t as real - base as real * r.rate && -0.5 < e / (1.0 + r.rate) < 0.5
    ensures TaxWithin(base + t, r) == t
    ensures NetWithin(base + t, r.rate) == base
  {
    ErrorShrinks((base + t) as real, base as real, t as real, r.rate, e);
    RoundsTo(TaxPart((base + t) as real, r.rate), t);
    RoundsTo(NetPart((base + t) as real, r.rate), base);
  }

  /** Extraction finds the tax that was added, because the rounding error shrinks by 1 + rate. */
  lemma ExtractionUndoesOneTax(base: int, r: TaxRate)
    ensures TaxWithin(base + TaxOn(base, r), r) == TaxOn(base, r)
    ensures NetWithin(base + TaxOn(base, r), r.rate) == base
  {
    hide TaxOn, TaxWithin, NetWithin;
    var e := TaxOnError(base, r);
    TaxWithinError(base, TaxOn(base, r), r, e);
  }

  lemma ExtractFirst(gross: int, last: TaxRate, rest: seq<TaxRate>)
    ensures ExtractedLines(gross, [last] + rest) ==
            var tax := TaxWithin(gross, last);
            [Line(last, gross - tax, tax, true)] + ExtractedLines(gross - tax, rest)
  {
    assert ([last] + rest)[1..] == rest;
  }

  lemma CompoundLast(base: int, init: seq<TaxRate>, last: TaxRate)
    ensures var before := CompoundLines(base, init);
            var taxable := base + SumTax(before);
            var line := Line(last, taxable, TaxOn(taxable, last), false);
            && CompoundLines(base, init + [last]) == before + [line]
            && SumTax(CompoundLines(base, init + [last])) == SumTax(before) + TaxOn(taxable, last)
  {
    var before := CompoundLines(base, init);
    var taxable := base + SumTax(before);
    var line := Line(last, taxable, TaxOn(taxable, last), false);
    assert (init + [last])[..|init + [last]| - 1] == init;
    assert (before + [line])[..|before + [line]| - 1] == before;
  }

  /** Extracting in the reverse order of application gives back every compound line. */
  lemma {:induction false} ExtractionUndoesCompound(base: int, rs: seq<TaxRate>)
    ensures var added := CompoundLines(base, rs);
      ExtractedLines(base + SumTax(added), Reverse(rs)) == Reverse(Included(added))
  {
    hide CompoundLines, ExtractedLines, SumTax;
    if rs != [] {
      var init, last := rs[..|rs| - 1], rs[|rs| - 1];
      var before := CompoundLines(base, init);
      var taxable := base + SumTax(before);
      var line := Line(last, taxable, TaxOn(taxable, last), true);
      assert rs == init + [last];
      CompoundLast(base, init, last);
      ExtractionUndoesCompound(base, init);
      ExtractionUndoesOneTax(taxable, last);
      assert Reverse(rs) == [last] + Reverse(init);
      ExtractFirst(taxable + line.tax, last, Reverse(init));
      assert Included(CompoundLines(base, rs)) == Included(before) + [line];
      assert Reverse(Included(before) + [line]) == [line] + Reverse(Included(before));
    }
  }

  lemma {:induction false} IncludedKeepsTax(lines: seq<TaxLine>)
    ensures SumTax(Included(lines)) == SumTax(lines)
  {
    if lines != [] {
      IncludedKeepsTax(lines[..|lines| - 1]);
      assert Included(lines)[..|lines| - 1] == Included(lines[..|lines| - 1]);
    }
  }

  /** Once the compound taxes are out, what is left is what the simple taxes produced. */
  lemma CompoundRoundTrip(net: int, simple: seq<TaxRate>, compound: seq<TaxRate>)
    ensures var base := net + SumTax(SimpleLines(net, simple));
            var out := ExtractedLines(Applied(net, simple, compound).gross, Reverse(compound));
            && out == Reverse(Included(CompoundLines(base, compound)))
            && Applied(net, simple, compound).gross - SumTax(out) == base
  {
    hide CompoundLines, ExtractedLines, SimpleLines, SumTax, Included, Reverse;
    var base := net + SumTax(SimpleLines(net, simple));
    var added := CompoundLines(base, compound);
    ExtractionUndoesCompound(base, compound);
    SumTaxReverse(Included(added));
    IncludedKeepsTax(added);
  }

  /** What extraction must return to have undone the exclusive calculation. */
  ghost predicate RoundTrips(net: int, rates: seq<TaxRate>) {
    var applied := Exclusive(net, rates);
    Inclusive(applied.gross, rates) == Ok(TaxResult(net, Included(applied.lines), applied.gross, true))
  }

  lemma OrderedRoundTrip(net: int, simple: seq<TaxRate>, compound: seq<TaxRate>)
    requires |simple| <= 1
    ensures var applied := Applied(net, simple, compound);
            Extracted(applied.gross, simple, Reverse(compound)) ==
            Ok(TaxResult(net, Included(applied.lines), applied.gross, true))
  {
    hide CompoundLines, ExtractedLines, SimpleLines, SumTax, ShareLines, CombinedRate, NetWithin;
    NoSimpleError(net);
    var first := SimpleLines(net, simple);
    var second := CompoundLines(net + SumTax(first), compound);
    CompoundRoundTrip(net, simple, compound);
    ReverseTwice(Included(second));
    if simple == [] {
      assert first + second == second;
    } else {
      var line := SingleSimple(net, simple);
      IncludedLines(line, second);
    }
  }

  lemma IncludedLines(line: TaxLine, rest: seq<TaxLine>)
    requires line.isIncluded
    ensures Included([line.(isIncluded := false)] + rest) == [line] + Included(rest)
    ensures Reverse(Reverse(Included(rest)) + [line]) == [line] + Included(rest)
  {
  }

  lemma SimpleLast(net: int, init: seq<TaxRate>, r: TaxRate)
    ensures var before := SimpleLines(net, init);
            && SimpleLines(net, init + [r]) == before + [Line(r, net, TaxOn(net, r), false)]
            && SumTax(SimpleLines(net, init + [r])) == SumTax(before) + TaxOn(net, r)
            && CombinedRate(init + [r]) == CombinedRate(init) + r.rate
  {
    var before, line := SimpleLines(net, init), Line(r, net, TaxOn(net, r), false);
    assert (init + [r])[..|init + [r]| - 1] == init;
    assert (before + [line])[..|before + [line]| - 1] == before;
  }

  lemma SingleSimple(net: int, simple: seq<TaxRate>) returns (line: TaxLine)
    requires |simple| == 1
    ensures SimpleLines(net, simple) == [line.(isIncluded := false)] && line.isIncluded
    ensures var base := net + SumTax(SimpleLines(net, simple));
            && NetWithin(base, CombinedRate(simple)) == net
            && ShareLines(net, base - net, simple, 1) == [line]
  {
    var r := simple[0];
    assert simple == [] + [r];
    SimpleLast(net, [], r);
    line := Line(r, net, TaxOn(net, r), true);
    hide TaxOn, NetWithin, SimpleLines, CombinedRate;
    assert SimpleLines(net, simple) == [line.(isIncluded := false)];
    assert CombinedRate(simple) == r.rate;
    ExtractionUndoesOneTax(net, r);
  }

  /** The chosen rates are extracted in exactly the reverse of the order they were applied in. */
  ghost predicate OrdersReverse(rates: seq<TaxRate>, keep: TaxRate -> bool) {
    Filter(Sort(rates, Descending), keep) == Reverse(Filter(Sort(rates, Ascending), keep))
  }

  /** Chosen rates of equal priority are the same rate. */
  ghost predicate DistinctPriorities(rates: seq<TaxRate>, keep: TaxRate -> bool) {
    forall a, b :: a in rates && b in rates && keep(a) && keep(b) && a.priority == b.priority ==> a == b
  }

  ghost predicate DistinctCompoundPriorities(rates: seq<TaxRate>) { DistinctPriorities(rates, IsCompound) }

  lemma DistinctPrioritiesReverse(rates: seq<TaxRate>, keep: TaxRate -> bool)
    requires DistinctPriorities(rates, keep)
    ensures OrdersReverse(rates, keep)
  {
    hide Filter, Sort, Reverse;
    var chosen := Filter(rates, keep);
    var up, down := Sort(chosen, Ascending), Sort(chosen, Descending);
    FilterSort(rates, Ascending, keep);
    FilterSort(rates, Descending, keep);
    SortSorts(chosen, Ascending);
    SortSorts(chosen, Descending);
    SortKeeps(chosen, Ascending);
    SortKeeps(chosen, Descending);
    ReverseKeeps(down);
    ReverseSorts(down);
    SortedUnique(up, Reverse(down), Ascending);
    ReverseTwice(down);
  }

  lemma ReverseSorts(down: seq<TaxRate>)
    requires Sorted(down, Descending)
    ensures Sorted(Reverse(down), Ascending)
  {
  }

  lemma SortedSimple(rates: seq<TaxRate>)
    requires |Filter(rates, IsSimple)| <= 1
    ensures Filter(Sort(rates, Ascending), IsSimple) == Filter(rates, IsSimple)
    ensures Filter(Sort(rates, Descending), IsSimple) == Filter(rates, IsSimple)
  {
    FilterSort(rates, Ascending, IsSimple);
    FilterSort(rates, Descending, IsSimple);
    SortIdentity(Filter(rates, IsSimple), Ascending);
    SortIdentity(Filter(rates, IsSimple), Descending);
  }

  /** Round trip: with at most one simple rate and compound priorities that identify their rates,
      extraction returns the same net, the same lines in the same order, and the same gross. */
  lemma RoundTrip(net: int, rates: seq<TaxRate>)
    requires |Filter(rates, IsSimple)| <= 1
    requires DistinctCompoundPriorities(rates)
    ensures RoundTrips(net, rates)
  {
    DistinctPrioritiesReverse(rates, IsCompound);
    SortedSimple(rates);
    OrderedRoundTrip(net, Filter(rates, IsSimple), Filter(Sort(rates, Ascending), IsCompound));
  }

  lemma {:induction false} CompoundCodes(base: int, rs: seq<TaxRate>)
    ensures forall i :: 0 <= i < |rs| ==> CompoundLines(base, rs)[i].code == rs[i].code
  {
    if rs != [] {
      CompoundCodes(base, rs[..|rs| - 1]);
    }
  }

  lemma {:induction false} ExtractedCodes(gross: int, rs: seq<TaxRate>)
    ensures forall i :: 0 <= i < |rs| ==> ExtractedLines(gross, rs)[i].code == rs[i].code
    decreases |rs|
  {
    if rs != [] {
      ExtractedCodes(gross - TaxWithin(gross, rs[0]), rs[1..]);
    }
  }

  function AtPriority(p: int): TaxRate -> bool { (r: TaxRate) => r.priority == p }

  /** The chosen rates of one priority, in the order the caller named them. */
  function ClassAt(rates: seq<TaxRate>, keep: TaxRate -> bool, p: int): seq<TaxRate> {
    Filter(Filter(rates, keep), AtPriority(p))
  }

  /** Within every priority the chosen rates read the same backwards; without repeated codes this
      says that no two of them share a priority. */
  ghost predicate Palindromic(rates: seq<TaxRate>, keep: TaxRate -> bool) {
    forall p :: ClassAt(rates, keep, p) == Reverse(ClassAt(rates, keep, p))
  }

  ghost predicate PalindromicPriorities(rates: seq<TaxRate>) { Palindromic(rates, IsCompound) }

  lemma {:induction false} FilterReverse(s: seq<TaxRate>, keep: TaxRate -> bool)
    ensures Filter(Reverse(s), keep) == Reverse(Filter(s, keep))
  {
    hide Reverse;
    if s == [] {
      ReverseNothing();
    } else {
      FilterReverse(s[1..], keep);
      assert s == [s[0]] + s[1..];
      ReverseFront(s[0], s[1..]);
      FilterAppend(Reverse(s[1..]), s[0], keep);
      ReverseFront(s[0], Filter(s[1..], keep));
    }
  }

  lemma ReverseNothing()
    ensures Reverse<TaxRate>([]) == []
  {
  }

  lemma ReverseFront(r: TaxRate, s: seq<TaxRate>)
    ensures Reverse([r] + s) == Reverse(s) + [r]
  {
  }

  /** A stable sort keeps the order within a priority, whichever way it sorts. */
  lemma SortedAtPriority(rates: seq<TaxRate>, keep: TaxRate -> bool, p: int)
    ensures Filter(Sort(Filter(rates, keep), Ascending), AtPriority(p)) == ClassAt(rates, keep, p)
    ensures Filter(Sort(Filter(rates, keep), Descending), AtPriority(p)) == ClassAt(rates, keep, p)
  {
    hide Sort;
    var chosen := Filter(rates, keep);
    FilterSort(chosen, Ascending, AtPriority(p));
    FilterSort(chosen, Descending, AtPriority(p));
    OnePriority(ClassAt(rates, keep, p), p);
  }

  lemma OnePriority(s: seq<TaxRate>, p: int)
    requires forall r :: r in s ==> r.priority == p
    ensures Sort(s, Ascending) == s && Sort(s, Descending) == s
  {
    hide Sort;
    assert forall i :: 0 <= i < |s| ==> s[i] in s;
    SortIdentity(s, Ascending);
    SortIdentity(s, Descending);
  }

  /** An ascending sequence is determined by its elements at each priority. */
  lemma {:induction false} EqualPriorityByPriority(s: seq<TaxRate>, t: seq<TaxRate>)
    requires Sorted(s, Ascending) && Sorted(t, Ascending)
    requires forall p :: Filter(s, AtPriority(p)) == Filter(t, AtPriority(p))
    ensures s == t
    decreases |s|
  {
    hide Filter;
    if s == [] {
      NothingAtAnyPriority(t);
    } else {
      NothingAtAnyPriority(t);
      assert s[0] in Filter(s, AtPriority(s[0].priority));
      assert t[0] in Filter(t, AtPriority(t[0].priority));
      assert t[0] in s && s[0] in t;
      assert s[0].priority == t[0].priority;
      TailFilter(s, s[0].priority);
      TailFilter(t, s[0].priority);
      forall p ensures Filter(s[1..], AtPriority(p)) == Filter(t[1..], AtPriority(p)) {
        assert Filter(s, AtPriority(p)) == Filter(t, AtPriority(p));
        TailFilter(s, p);
        TailFilter(t, p);
      }
      EqualPriorityByPriority(s[1..], t[1..]);
      assert s == [s[0]] + s[1..] && t == [t[0]] + t[1..];
    }
  }

  lemma NothingAtAnyPriority(t: seq<TaxRate>)
    ensures forall p :: Filter<TaxRate>([], AtPriority(p)) == []
    ensures t == [] || exists p :: Filter(t, AtPriority(p)) != []
  {
    if t != [] {
      assert t[0] in Filter(t, AtPriority(t[0].priority));
    }
  }

  lemma TailFilter(s: seq<TaxRate>, p: int)
    requires s != []
    ensures var all := Filter(s, AtPriority(p));
            if s[0].priority == p then all != [] && all[0] == s[0] && Filter(s[1..], AtPriority(p)) == all[1..]
            else Filter(s[1..], AtPriority(p)) == all
  {
  }

  /** The caller can tell from the rates alone whether extraction will reverse application. */
  lemma ReversesIff(rates: seq<TaxRate>, keep: TaxRate -> bool)
    ensures OrdersReverse(rates, keep) <==> Palindromic(rates, keep)
  {
    hide Sort, Filter, Reverse;
    var chosen := Filter(rates, keep);
    var up, down := Sort(chosen, Ascending), Sort(chosen, Descending);
    FilterSort(rates, Ascending, keep);
    FilterSort(rates, Descending, keep);
    forall p ensures Filter(down, AtPriority(p)) == ClassAt(rates, keep, p) &&
                     Filter(Reverse(up), AtPriority(p)) == Reverse(ClassAt(rates, keep, p)) &&
                     Filter(Reverse(down), AtPriority(p)) == Reverse(ClassAt(rates, keep, p)) &&
                     Filter(up, AtPriority(p)) == ClassAt(rates, keep, p) {
      SortedAtPriority(rates, keep, p);
      FilterReverse(up, AtPriority(p));
      FilterReverse(down, AtPriority(p));
    }
    if Palindromic(rates, keep) {
      SortSorts(chosen, Ascending);
      SortSorts(chosen, Descending);
      ReverseSorts(down);
      EqualPriorityByPriority(up, Reverse(down));
      ReverseTwice(down);
    }
  }

  /** When the codes are distinct, palindromic just means distinct. */
  lemma PalindromicIsDistinct(rates: seq<TaxRate>, keep: TaxRate -> bool)
    requires NoRepeats(rates)
    ensures Palindromic(rates, keep) <==> DistinctPriorities(rates, keep)
  {
    hide Filter, Reverse, OrdersReverse;
    if DistinctPriorities(rates, keep) {
      DistinctPrioritiesReverse(rates, keep);
      ReversesIff(rates, keep);
    } else {
      var a, b :| a in rates && b in rates && keep(a) && keep(b) && a.priority == b.priority && a != b;
      var c := ClassAt(rates, keep, a.priority);
      assert a in c && b in c;
      assert |c| >= 2;
      if c == Reverse(c) {
        PalindromeEnds(c);
        TwiceInCountsTwo(c, 0, |c| - 1);
        FilterCounts(Filter(rates, keep), AtPriority(a.priority), c[0]);
        FilterCounts(rates, keep, c[0]);
      }
    }
  }

  lemma PalindromeEnds(c: seq<TaxRate>)
    requires c != [] && c == Reverse(c)
    ensures c[0] == c[|c| - 1]
  {
  }

  /** The exact condition: with at most one simple rate, and codes that name their rates, the round
      trip succeeds precisely when the compound rates of each priority read the same backwards. */
  lemma RoundTripIff(net: int, rates: seq<TaxRate>)
    requires |Filter(rates, IsSimple)| <= 1
    requires forall a, b :: a in rates && b in rates && a.code == b.code ==> a == b
    ensures RoundTrips(net, rates) <==> PalindromicPriorities(rates)
  {
    hide Palindromic;
    ReversesIff(rates, IsCompound);
    SortedSimple(rates);
    if OrdersReverse(rates, IsCompound) {
      OrderedRoundTrip(net, Filter(rates, IsSimple), Filter(Sort(rates, Ascending), IsCompound));
    }
    AnyRoundTripIff(net, rates);
  }

  /** Equal priorities do break it: both sorts keep the two rates in the order given. */
  lemma EqualPrioritiesBreakRoundTrip(net: int, a: TaxRate, b: TaxRate)
    requires a.isCompound && b.isCompound && a.code != b.code && a.priority == b.priority
    ensures !RoundTrips(net, [a, b])
  {
    hide Filter, RoundTrips, Palindromic, NoRepeats, DistinctPriorities;
    TwoCompoundRates(a, b);
    PalindromicIsDistinct([a, b], IsCompound);
    RoundTripIff(net, [a, b]);
  }

  lemma TwoCompoundRates(a: TaxRate, b: TaxRate)
    requires a.isCompound && b.isCompound && a.code != b.code && a.priority == b.priority
    ensures Filter([a, b], IsSimple) == [] && NoRepeats([a, b]) && !DistinctCompoundPriorities([a, b])
    ensures forall x, y :: x in [a, b] && y in [a, b] && x.code == y.code ==> x == y
  {
    assert [a, b][1..] == [b];
    assert multiset([a, b]) == multiset{a, b};
    assert a in [a, b] && b in [a, b];
  }

  lemma RoundTripFailsOnEqualPriorities()
    ensures var a: TaxRate := Rate("A", 0.5, Sales, true, 1, None, None);
            var b: TaxRate := Rate("B", 0.25, Sales, true, 1, None, None);
            !RoundTrips(100, [a, b])
  {
    hide RoundTrips;
    var a: TaxRate := Rate("A", 0.5, Sales, true, 1, None, None);
    var b: TaxRate := Rate("B", 0.25, Sales, true, 1, None, None);
    assert a.code[0] != b.code[0];
    EqualPrioritiesBreakRoundTrip(100, a, b);
  }

  // ---- Several simple rates: drift and the exact recovery condition ----

  /** The sum of the rounding errors the simple taxes make when they are applied. */
  function SimpleError(net: int, rs: seq<TaxRate>): real {
    SumTax(SimpleLines(net, rs)) as real - net as real * CombinedRate(rs)
  }

  lemma {:induction false} SimpleErrorBound(net: int, rs: seq<TaxRate>)
    ensures -(|rs| as real) / 2.0 <= SimpleError(net, rs) <= |rs| as real / 2.0
  {
    if rs != [] {
      hide SimpleError, TaxOn;
      var init, r := rs[..|rs| - 1], rs[|rs| - 1];
      SimpleErrorBound(net, init);
      var _ := TaxOnError(net, r);
      SimpleErrorStep(net, init, r);
      assert rs == init + [r];
    }
  }

  lemma SimpleErrorStep(net: int, init: seq<TaxRate>, r: TaxRate)
    ensures SimpleError(net, init + [r]) ==
            SimpleError(net, init) + (TaxOn(net, r) as real - net as real * r.rate)
  {
    SimpleLast(net, init, r);
    hide SimpleLines, SumTax, CombinedRate, TaxOn;
    DistributeRate(net as real, CombinedRate(init), r.rate);
  }

  lemma DistributeRate(n: real, a: real, b: real)
    ensures n * (a + b) == n * a + n * b
  {
  }

  lemma {:induction false} CombinedRateAppend(a: seq<TaxRate>, b: seq<TaxRate>)
    ensures CombinedRate(a + b) == CombinedRate(a) + CombinedRate(b)
  {
    if b == [] {
      assert a + b == a;
    } else {
      CombinedRateAppend(a, b[..|b| - 1]);
      assert (a + b)[..|a + b| - 1] == a + b[..|b| - 1];
    }
  }

  lemma {:induction false} InsertCombinedRate(r: TaxRate, s: seq<TaxRate>, leq: (TaxRate, TaxRate) -> bool)
    ensures CombinedRate(Insert(r, s, leq)) == r.rate + CombinedRate(s)
  {
    CombinedRateAppend([r], s);
    assert [r][..0] == [];
    if s != [] && !leq(r, s[0]) {
      InsertCombinedRate(r, s[1..], leq);
      CombinedRateAppend([s[0]], Insert(r, s[1..], leq));
      CombinedRateAppend([s[0]], s[1..]);
      assert s == [s[0]] + s[1..];
    }
  }

  lemma {:induction false} SortCombinedRate(s: seq<TaxRate>, leq: (TaxRate, TaxRate) -> bool)
    ensures CombinedRate(Sort(s, leq)) == CombinedRate(s)
  {
    if s != [] {
      SortCombinedRate(s[1..], leq);
      InsertCombinedRate(s[0], Sort(s[1..], leq), leq);
      CombinedRateAppend([s[0]], s[1..]);
      assert s == [s[0]] + s[1..] && [s[0]][..0] == [];
    }
  }

  /** The simple rates in application order. */
  function AppliedSimple(rates: seq<TaxRate>): seq<TaxRate> {
    Filter(Sort(rates, Ascending), IsSimple)
  }

  /** No proportional share divides by zero. */
  predicate SharesDefined(rates: seq<TaxRate>) {
    |AppliedSimple(rates)| <= 1 || CombinedRate(AppliedSimple(rates)) > 0.0
  }

  /** The net that extraction arrives at when applying rates of sum total made rounding error e. */
  function WithError(net: int, e: real, total: real): int
    requires total >= 0.0
  {
    RoundHalfUp(net as real + e / (1.0 + total))
  }

  lemma NetWithinError(net: int, taxes: int, total: real, e: real)
    requires total >= 0.0 && e == taxes as real - net as real * total
    ensures NetWithin(net + taxes, total) == WithError(net, e, total)
  {
    ErrorShrinks((net + taxes) as real, net as real, taxes as real, total, e);
  }

  lemma NetWithinSimple(net: int, simple: seq<TaxRate>)
    ensures NetWithin(net + SumTax(SimpleLines(net, simple)), CombinedRate(simple)) ==
            WithError(net, SimpleError(net, simple), CombinedRate(simple))
  {
    hide SumTax, SimpleLines, CombinedRate, WithError, NetWithin;
    NetWithinError(net, SumTax(SimpleLines(net, simple)), CombinedRate(simple), SimpleError(net, simple));
  }

  lemma OrderedNet(net: int, simple: seq<TaxRate>, down: seq<TaxRate>, compound: seq<TaxRate>)
    requires |down| == |simple| && CombinedRate(down) == CombinedRate(simple)
    requires |simple| <= 1 || CombinedRate(simple) > 0.0
    ensures var back := Extracted(Applied(net, simple, compound).gross, down, Reverse(compound));
            && back.Ok?
            && back.value.net == WithError(net, SimpleError(net, simple), CombinedRate(simple))
  {
    hide CompoundLines, ExtractedLines, SimpleLines, SumTax, CombinedRate, NetWithin, WithError, SimpleError,
      Extracted, Applied, Reverse;
    NoSimpleError(net);
    NetWithinSimple(net, simple);
    CompoundRoundTrip(net, simple, compound);
    ExtractedNet(Applied(net, simple, compound).gross, down, Reverse(compound));
  }

  lemma ExtractedNet(gross: int, simple: seq<TaxRate>, compound: seq<TaxRate>)
    requires |simple| <= 1 || CombinedRate(simple) > 0.0
    ensures var back, rest := Extracted(gross, simple, compound), gross - SumTax(ExtractedLines(gross, compound));
            && back.Ok?
            && back.value.net == if simple == [] then rest else NetWithin(rest, CombinedRate(simple))
  {
    hide ExtractedLines, SumTax, ShareLines, CombinedRate, NetWithin, Reverse;
  }

  lemma NoSimpleError(net: int)
    ensures SumTax(SimpleLines(net, [])) == 0
    ensures WithError(net, SimpleError(net, []), CombinedRate([])) == net
  {
    assert CombinedRate([]) == 0.0 && SimpleError(net, []) == 0.0;
    RoundsTo(net as real, net);
  }

  lemma RecoveredNet(net: int, rates: seq<TaxRate>)
    requires PalindromicPriorities(rates) && SharesDefined(rates)
    ensures var back := Inclusive(Exclusive(net, rates).gross, rates);
            var simple := AppliedSimple(rates);
            && back.Ok?
            && back.value.net == WithError(net, SimpleError(net, simple), CombinedRate(simple))
  {
    hide Palindromic, Sort, Filter, Extracted, Applied;
    var simple := Filter(rates, IsSimple);
    ReversesIff(rates, IsCompound);
    FilterSort(rates, Ascending, IsSimple);
    FilterSort(rates, Descending, IsSimple);
    SortKeeps(simple, Ascending);
    SortKeeps(simple, Descending);
    SortCombinedRate(simple, Ascending);
    SortCombinedRate(simple, Descending);
    OrderedNet(net, Sort(simple, Ascending), Sort(simple, Descending), Filter(Sort(rates, Ascending), IsCompound));
  }

  /** With k simple rates of sum R the recovered net drifts by at most k/(2(1+R)) + 1/2 minor units. */
  lemma NetDrift(net: int, rates: seq<TaxRate>)
    requires PalindromicPriorities(rates) && SharesDefined(rates)
    ensures var simple := AppliedSimple(rates);
            var bound := (|simple| as real / 2.0) / (1.0 + CombinedRate(simple)) + 0.5;
            var back := Inclusive(Exclusive(net, rates).gross, rates);
            back.Ok? && -bound <= back.value.net as real - net as real <= bound
  {
    hide Inclusive, Exclusive, SimpleError, CombinedRate, AppliedSimple, WithError, Palindromic;
    var simple := AppliedSimple(rates);
    RecoveredNet(net, rates);
    SimpleErrorBound(net, simple);
    WithErrorBound(net, SimpleError(net, simple), CombinedRate(simple), |simple| as real / 2.0);
  }

  lemma WithErrorBound(net: int, e: real, total: real, bound: real)
    requires total >= 0.0 && -bound <= e <= bound
    ensures var limit := bound / (1.0 + total) + 0.5; -limit <= WithError(net, e, total) as real - net as real <= limit
  {
    hide RoundHalfUp;
    DivideBounds(e, bound, 1.0 + total);
  }

  lemma DivideBounds(e: real, bound: real, d: real)
    requires d > 0.0
    ensures e <= bound <==> e / d <= bound / d
    ensures e >= bound <==> e / d >= bound / d
    ensures e >= -bound <==> e / d >= -(bound / d)
    ensures e <= -bound <==> e / d <= -(bound / d)
  {
    var p, q := e / d, bound / d;
    assert p * d == e && q * d == bound;
    MultiplyOrder(p, q, d);
    MultiplyOrder(p, -q, d);
    assert -q * d == -(q * d);
  }

  /** The exact condition for the net to survive: the accumulated rounding error of the simple taxes,
      which a caller can compute beforehand, is under (1+R)/2, a tie counting when it points to zero. */
  lemma NetRecoveredIff(net: int, rates: seq<TaxRate>)
    requires PalindromicPriorities(rates) && SharesDefined(rates)
    ensures var e := SimpleError(net, AppliedSimple(rates));
            var half := (1.0 + CombinedRate(AppliedSimple(rates))) / 2.0;
            var back := Inclusive(Exclusive(net, rates).gross, rates);
            && back.Ok?
            && (back.value.net == net <==>
                -half < e < half || (e == half && net < 0) || (e == -half && net > 0))
  {
    hide Inclusive, Exclusive, SimpleError, CombinedRate, AppliedSimple, WithError, Palindromic;
    RecoveredNet(net, rates);
    WithErrorIff(net, SimpleError(net, AppliedSimple(rates)), CombinedRate(AppliedSimple(rates)));
  }

  lemma WithErrorIff(net: int, e: real, total: real)
    requires total >= 0.0
    ensures var half := (1.0 + total) / 2.0;
            WithError(net, e, total) == net <==>
            -half < e < half || (e == half && net < 0) || (e == -half && net > 0)
  {
    var d := 1.0 + total;
    RoundingCharacterised(net as real + e / d, net);
    DivideBounds(e, d / 2.0, d);
    DivisionUndoes(0.5, d, d / 2.0);
  }

  /** Two half-unit taxes on one minor unit: both round up and the net comes back doubled. */
  lemma NetLostWithTwoSimpleRates()
    ensures var a: TaxRate := Rate("A", 0.5, Sales, false, 1, None, None);
            var b: TaxRate := Rate("B", 0.5, Sales, false, 2, None, None);
            var back := Inclusive(Exclusive(1, [a, b]).gross, [a, b]);
            back.Ok? && back.value.net == 2
  {
    var a: TaxRate := Rate("A", 0.5, Sales, false, 1, None, None);
    var b: TaxRate := Rate("B", 0.5, Sales, false, 2, None, None);
    hide SimpleError, Inclusive, Exclusive, CombinedRate, AppliedSimple, Palindromic;
    TwoSimpleRates(a, b);
    TwoHalfTaxes(a, b);
    NoCompoundRates([a, b]);
    RecoveredNet(1, [a, b]);
  }

  lemma NoCompoundRates(rates: seq<TaxRate>)
    requires forall r :: r in rates ==> !r.isCompound
    ensures PalindromicPriorities(rates)
  {
    hide Palindromic, OrdersReverse;
    DistinctPrioritiesReverse(rates, IsCompound);
    ReversesIff(rates, IsCompound);
  }

  lemma TwoSimpleRates(a: TaxRate, b: TaxRate)
    requires !a.isCompound && !b.isCompound && a.priority <= b.priority
    ensures AppliedSimple([a, b]) == [a, b] && CombinedRate([a, b]) == a.rate + b.rate
  {
    var rates := [a, b];
    SortIdentity(rates, Ascending);
    assert rates[1..] == [b] && Filter([b], IsSimple) == [b] && Filter(rates, IsSimple) == [a] + [b];
    CombinedRateAppend([a], [b]);
  }

  lemma TwoHalfTaxes(a: TaxRate, b: TaxRate)
    requires a.rate == b.rate == 0.5
    ensures SimpleError(1, [a, b]) == 1.0
  {
    assert SimpleError(1, []) == 0.0 && TaxOn(1, a) == TaxOn(1, b) == 1;
    hide SimpleError, TaxOn;
    SimpleErrorStep(1, [], a);
    SimpleErrorStep(1, [a], b);
    assert [] + [a] == [a] && [a] + [b] == [a, b];
  }

  // ---- The round trip with any number of simple rates ----

  /** Every simple tax but the first, which takes the remainder, is its proportional share of them all. */
  ghost predicate SharesMatch(net: int, simple: seq<TaxRate>)
    requires |simple| <= 1 || CombinedRate(simple) > 0.0
  {
    forall i :: 1 <= i < |simple| ==>
      Proportion(SumTax(SimpleLines(net, simple)), simple[i], CombinedRate(simple)) == TaxOn(net, simple[i])
  }

  lemma {:induction false} CombinedRateReverse(rs: seq<TaxRate>)
    ensures CombinedRate(Reverse(rs)) == CombinedRate(rs)
  {
    if rs != [] {
      CombinedRateReverse(rs[1..]);
      assert rs == [rs[0]] + rs[1..];
      ReverseFront(rs[0], rs[1..]);
      CombinedRateAppend(Reverse(rs[1..]), [rs[0]]);
      CombinedRateAppend([rs[0]], rs[1..]);
    }
  }

  lemma {:induction false} ShareAt(net: int, total: int, rs: seq<TaxRate>, n: nat, j: nat)
    requires j < n <= |rs| && (|rs| <= 1 || CombinedRate(rs) > 0.0)
    ensures var line := ShareLines(net, total, rs, n)[j];
            && line == Line(rs[j], net, line.tax, true)
            && (j < |rs| - 1 ==> line.tax == Proportion(total, rs[j], CombinedRate(rs)))
  {
    hide Proportion, CombinedRate, SumTax;
    if j < n - 1 {
      ShareAt(net, total, rs, n - 1, j);
    }
  }

  lemma ReversePlus(a: seq<TaxLine>, b: seq<TaxLine>)
    ensures Reverse(Reverse(a) + b) == Reverse(b) + a
  {
  }

  lemma IncludedPlus(a: seq<TaxLine>, b: seq<TaxLine>)
    ensures Included(a + b) == Included(a) + Included(b)
  {
  }

  /** Two lists of lines that agree after the first one and carry the same tax agree on its tax. */
  lemma RemainderAgrees(a: seq<TaxLine>, b: seq<TaxLine>)
    requires a != [] && b != [] && a[1..] == b[1..] && SumTax(a) == SumTax(b)
    ensures a[0].tax == b[0].tax
  {
    assert a == [a[0]] + a[1..] && b == [b[0]] + b[1..];
    SumTaxAppend([a[0]], a[1..]);
    SumTaxAppend([b[0]], b[1..]);
    assert SumTax([a[0]]) == a[0].tax && SumTax([b[0]]) == b[0].tax;
  }

  /** The share lines of extraction in the reverse order, read backwards. */
  function BackwardShares(net: int, total: int, up: seq<TaxRate>): (lines: seq<TaxLine>)
    requires |up| <= 1 || CombinedRate(Reverse(up)) > 0.0
    ensures |lines| == |up|
  {
    Reverse(ShareLines(net, total, Reverse(up), |up|))
  }

  /** Extraction from what application produced, in the reverse order. */
  function Undone(net: int, up: seq<TaxRate>, compound: seq<TaxRate>): Outcome<TaxResult, TaxError> {
    Extracted(Applied(net, up, compound).gross, Reverse(up), Reverse(compound))
  }

  /** When the net is recovered, the shares read backwards are the taxes applied exactly when they match. */
  lemma SharesReturnIff(net: int, up: seq<TaxRate>)
    requires up != [] && (|up| <= 1 || CombinedRate(up) > 0.0) && CombinedRate(Reverse(up)) == CombinedRate(up)
    ensures var applied := SimpleLines(net, up);
            BackwardShares(net, SumTax(applied), up) == Included(applied) <==> SharesMatch(net, up)
  {
    hide Proportion, CombinedRate, SumTax, SimpleLines, ShareLines, TaxOn, Line;
    var applied, down, k := SimpleLines(net, up), Reverse(up), |up|;
    var total := SumTax(applied);
    var back, wanted := Reverse(ShareLines(net, total, down, k)), Included(applied);
    SimpleByLine(net, up);
    SharesConserve(net, total, down);
    SumTaxReverse(ShareLines(net, total, down, k));
    IncludedKeepsTax(applied);
    forall i | 0 <= i < k
      ensures back[i] == Line(up[i], net, back[i].tax, true)
      ensures wanted[i] == Line(up[i], net, TaxOn(net, up[i]), true) && wanted[i].tax == TaxOn(net, up[i])
      ensures i >= 1 ==> back[i].tax == Proportion(total, up[i], CombinedRate(up)) {
      ShareAt(net, total, down, k, k - 1 - i);
      MarkIncluded(up[i], net, TaxOn(net, up[i]));
    }
    if SharesMatch(net, up) {
      assert forall i :: 1 <= i < k ==> back[i] == wanted[i];
      assert back[1..] == wanted[1..];
      RemainderAgrees(back, wanted);
      assert back[0] == wanted[0];
    }
  }

  lemma MarkIncluded(r: TaxRate, taxable: int, tax: int)
    ensures Line(r, taxable, tax, false).(isIncluded := true) == Line(r, taxable, tax, true)
    ensures Line(r, taxable, tax, true).tax == tax
  {
  }

  /** For rates in order: the round trip succeeds exactly when the net comes back and the shares match. */
  lemma OrderedRoundTripIff(net: int, up: seq<TaxRate>, compound: seq<TaxRate>)
    requires up != [] && (|up| <= 1 || CombinedRate(up) > 0.0)
    ensures var applied := Applied(net, up, compound);
            Undone(net, up, compound) == Ok(TaxResult(net, Included(applied.lines), applied.gross, true)) <==>
            && WithError(net, SimpleError(net, up), CombinedRate(up)) == net
            && SharesMatch(net, up)
  {
    hide CompoundLines, SimpleLines, SumTax, CombinedRate, Included, Reverse, WithError, SimpleError, SharesMatch,
      Applied, Undone, BackwardShares;
    CombinedRateReverse(up);
    ExtractedAfter(net, up, compound);
    var first, base := SimpleLines(net, up), net + SumTax(SimpleLines(net, up));
    var second, gross := Included(CompoundLines(base, compound)), Applied(net, up, compound).gross;
    IncludedApplied(net, up, compound);
    var recovered := WithError(net, SimpleError(net, up), CombinedRate(up));
    var shares := BackwardShares(recovered, base - recovered, up);
    if recovered == net {
      assert base - recovered == SumTax(first);
      SharesReturnIff(net, up);
    }
    ResultsAgreeIff(recovered, net, shares, Included(first), second, gross, SharesMatch(net, up));
  }

  lemma IncludedApplied(net: int, simple: seq<TaxRate>, compound: seq<TaxRate>)
    ensures var first := SimpleLines(net, simple);
            Included(Applied(net, simple, compound).lines) ==
            Included(first) + Included(CompoundLines(net + SumTax(first), compound))
  {
    hide SimpleLines, CompoundLines, SumTax, Included;
    var first := SimpleLines(net, simple);
    IncludedPlus(first, CompoundLines(net + SumTax(first), compound));
  }

  lemma ResultsAgreeIff(
    recovered: int, net: int, shares: seq<TaxLine>, first: seq<TaxLine>, rest: seq<TaxLine>, gross: int, matching: bool)
    requires |shares| == |first| && (recovered == net ==> (shares == first <==> matching))
    ensures TaxResult(recovered, shares + rest, gross, true) == TaxResult(net, first + rest, gross, true) <==>
            recovered == net && matching
  {
    SamePrefix(shares, first, rest);
  }

  /** What extraction returns when it reverses the order of application. */
  lemma ExtractedAfter(net: int, up: seq<TaxRate>, compound: seq<TaxRate>)
    requires up != [] && (|up| <= 1 || CombinedRate(up) > 0.0) && CombinedRate(Reverse(up)) == CombinedRate(up)
    ensures var gross, base := Applied(net, up, compound).gross, net + SumTax(SimpleLines(net, up));
            var recovered := WithError(net, SimpleError(net, up), CombinedRate(up));
            var shares := BackwardShares(recovered, base - recovered, up);
            Undone(net, up, compound) ==
            Ok(TaxResult(recovered, shares + Included(CompoundLines(base, compound)), gross, true))
  {
    hide CompoundLines, ExtractedLines, SimpleLines, SumTax, ShareLines, CombinedRate, NetWithin, Included, Reverse,
      WithError, SimpleError, Applied, Extracted;
    var gross, base := Applied(net, up, compound).gross, net + SumTax(SimpleLines(net, up));
    var recovered := WithError(net, SimpleError(net, up), CombinedRate(up));
    CompoundRoundTrip(net, up, compound);
    NetWithinSimple(net, up);
    ExtractedIs(gross, Reverse(up), Reverse(compound));
    ReversePlus(Included(CompoundLines(base, compound)), ShareLines(recovered, base - recovered, Reverse(up), |up|));
  }

  lemma ExtractedIs(gross: int, simple: seq<TaxRate>, compound: seq<TaxRate>)
    requires simple != [] && (|simple| <= 1 || CombinedRate(simple) > 0.0)
    ensures var first := ExtractedLines(gross, compound);
            var rest := gross - SumTax(first);
            var net := NetWithin(rest, CombinedRate(simple));
            Extracted(gross, simple, compound) ==
            Ok(TaxResult(net, Reverse(first + ShareLines(net, rest - net, simple, |simple|)), gross, true))
  {
    hide ExtractedLines, SumTax, NetWithin, CombinedRate, ShareLines, Reverse;
  }

  lemma SamePrefix(a: seq<TaxLine>, b: seq<TaxLine>, rest: seq<TaxLine>)
    requires |a| == |b|
    ensures a + rest == b + rest <==> a == b
  {
    if a + rest == b + rest {
      assert a == (a + rest)[..|a|] && b == (b + rest)[..|b|];
    }
  }

  /** The lines carry the codes of the rates, in order. */
  ghost predicate CodesOf(lines: seq<TaxLine>, rs: seq<TaxRate>) {
    |lines| == |rs| && forall i :: 0 <= i < |rs| ==> lines[i].code == rs[i].code
  }

  /** The codes of the extracted lines are those of the rates in extraction order, backwards. */
  lemma ExtractedLineCodes(gross: int, simple: seq<TaxRate>, compound: seq<TaxRate>)
    requires Extracted(gross, simple, compound).Ok?
    ensures CodesOf(Extracted(gross, simple, compound).value.lines, Reverse(compound + simple))
  {
    hide SumTax, NetWithin, CombinedRate, ShareLines, ExtractedLines, Proportion, Reverse;
    var first := ExtractedLines(gross, compound);
    ExtractedCodes(gross, compound);
    if simple == [] {
      assert compound + simple == compound;
      CodesBackwards(first, compound);
    } else {
      var rest := gross - SumTax(first);
      var net := NetWithin(rest, CombinedRate(simple));
      ShareCodes(net, rest - net, simple);
      CodesBackwards(first + ShareLines(net, rest - net, simple, |simple|), compound + simple);
    }
  }

  lemma CodesBackwards(lines: seq<TaxLine>, rs: seq<TaxRate>)
    requires CodesOf(lines, rs)
    ensures CodesOf(Reverse(lines), Reverse(rs))
  {
  }

  lemma ShareCodes(net: int, total: int, rs: seq<TaxRate>)
    requires |rs| <= 1 || CombinedRate(rs) > 0.0
    ensures forall j :: 0 <= j < |rs| ==> ShareLines(net, total, rs, |rs|)[j].code == rs[j].code
  {
    hide CombinedRate, ShareLines, Proportion;
    forall j | 0 <= j < |rs| ensures ShareLines(net, total, rs, |rs|)[j].code == rs[j].code {
      ShareAt(net, total, rs, |rs|, j);
    }
  }

  lemma AppliedLineCodes(net: int, simple: seq<TaxRate>, compound: seq<TaxRate>)
    ensures CodesOf(Included(Applied(net, simple, compound).lines), simple + compound)
  {
    hide SumTax, SimpleLines, CompoundLines, TaxOn;
    SimpleByLine(net, simple);
    CompoundCodes(net + SumTax(SimpleLines(net, simple)), compound);
  }

  /** Lines that come back in order mean rates extracted in the reverse order, simple and compound. */
  lemma SameLinesReverse(
    net: int, simple: seq<TaxRate>, compound: seq<TaxRate>, down: seq<TaxRate>, compoundDown: seq<TaxRate>)
    requires |down| == |simple| && |compoundDown| == |compound|
    requires forall a, b :: a in simple + compound && b in compoundDown + down && a.code == b.code ==> a == b
    requires var applied := Applied(net, simple, compound);
             Extracted(applied.gross, down, compoundDown) ==
             Ok(TaxResult(net, Included(applied.lines), applied.gross, true))
    ensures down == Reverse(simple) && compoundDown == Reverse(compound)
  {
    hide Applied, Extracted, Included, CodesOf, Reverse;
    AppliedLineCodes(net, simple, compound);
    ExtractedLineCodes(Applied(net, simple, compound).gross, down, compoundDown);
    SameCodesSameRates(Included(Applied(net, simple, compound).lines), simple + compound, compoundDown + down);
    HalvesReverse(simple, compound, down, compoundDown);
  }

  lemma SameCodesSameRates(lines: seq<TaxLine>, a: seq<TaxRate>, b: seq<TaxRate>)
    requires CodesOf(lines, a) && CodesOf(lines, Reverse(b))
    requires forall x, y :: x in a && y in b && x.code == y.code ==> x == y
    ensures a == Reverse(b)
  {
    forall i | 0 <= i < |a| ensures a[i] == Reverse(b)[i] {
      assert a[i].code == Reverse(b)[i].code;
      assert a[i] in a && b[|b| - 1 - i] in b;
    }
  }

  lemma HalvesReverse(a: seq<TaxRate>, b: seq<TaxRate>, c: seq<TaxRate>, d: seq<TaxRate>)
    requires |a| == |c| && |b| == |d| && a + b == Reverse(d + c)
    ensures c == Reverse(a) && d == Reverse(b)
  {
    var k, n := |a|, |b|;
    forall i | 0 <= i < k ensures c[i] == Reverse(a)[i] {
      assert (a + b)[k - 1 - i] == (d + c)[n + i];
    }
    forall i | 0 <= i < n ensures d[i] == Reverse(b)[i] {
      assert (a + b)[k + n - 1 - i] == (d + c)[i];
    }
  }

  /** The accumulated rounding error of the simple taxes is too small to move the net. */
  ghost predicate NetSurvives(net: int, simple: seq<TaxRate>) {
    var e, half := SimpleError(net, simple), (1.0 + CombinedRate(simple)) / 2.0;
    -half < e < half || (e == half && net < 0) || (e == -half && net > 0)
  }

  /** What a caller can check beforehand: the shares are defined, equal priorities read the same
      backwards, and rounding moves neither the net nor any proportional share. */
  ghost predicate Undoable(net: int, rates: seq<TaxRate>) {
    && SharesDefined(rates) && Palindromic(rates, IsCompound) && Palindromic(rates, IsSimple)
    && NetSurvives(net, AppliedSimple(rates)) && SharesMatch(net, AppliedSimple(rates))
  }

  /** The exact condition for the round trip of any rates whose codes name them. */
  lemma AnyRoundTripIff(net: int, rates: seq<TaxRate>)
    requires forall a, b :: a in rates && b in rates && a.code == b.code ==> a == b
    ensures RoundTrips(net, rates) <==> Undoable(net, rates)
  {
    hide Filter, Sort, Palindromic, Reverse, Applied, Extracted, Included, CombinedRate, NetSurvives, SharesMatch,
      Undone;
    var up, down := Sort(rates, Ascending), Sort(rates, Descending);
    var simple, compound := Filter(up, IsSimple), Filter(up, IsCompound);
    var simpleDown, compoundDown := Filter(down, IsSimple), Filter(down, IsCompound);
    ChosenFrom(rates, IsSimple);
    ChosenFrom(rates, IsCompound);
    ReversesIff(rates, IsSimple);
    ReversesIff(rates, IsCompound);
    if RoundTrips(net, rates) {
      SameLinesReverse(net, simple, compound, simpleDown, compoundDown);
      DefinedWhenOk(Applied(net, simple, compound).gross, simpleDown, compoundDown);
    }
    if OrdersReverse(rates, IsSimple) && OrdersReverse(rates, IsCompound) && SharesDefined(rates) {
      UndoneIff(net, simple, compound);
      UndoneIs(net, simple, compound);
    }
  }

  lemma UndoneIs(net: int, simple: seq<TaxRate>, compound: seq<TaxRate>)
    ensures Undone(net, simple, compound) ==
            Extracted(Applied(net, simple, compound).gross, Reverse(simple), Reverse(compound))
  {
  }

  /** Sorting and choosing keeps the rates, their number and their combined rate. */
  lemma ChosenFrom(rates: seq<TaxRate>, keep: TaxRate -> bool)
    ensures var up, down := Filter(Sort(rates, Ascending), keep), Filter(Sort(rates, Descending), keep);
            && |up| == |down| && CombinedRate(up) == CombinedRate(down)
            && (forall r :: r in up ==> r in rates) && (forall r :: r in down ==> r in rates)
  {
    hide Sort, Filter, CombinedRate;
    var chosen := Filter(rates, keep);
    SortKeeps(rates, Ascending);
    SortKeeps(rates, Descending);
    FilterSort(rates, Ascending, keep);
    FilterSort(rates, Descending, keep);
    SortKeeps(chosen, Ascending);
    SortKeeps(chosen, Descending);
    SortCombinedRate(chosen, Ascending);
    SortCombinedRate(chosen, Descending);
  }

  lemma DefinedWhenOk(gross: int, simple: seq<TaxRate>, compound: seq<TaxRate>)
    requires Extracted(gross, simple, compound).Ok?
    ensures |simple| <= 1 || CombinedRate(simple) > 0.0
  {
    hide CombinedRate, ExtractedLines, ShareLines, SumTax, NetWithin, Reverse;
  }

  lemma UndoneIff(net: int, simple: seq<TaxRate>, compound: seq<TaxRate>)
    requires |simple| <= 1 || CombinedRate(simple) > 0.0
    ensures var applied := Applied(net, simple, compound);
            Undone(net, simple, compound) == Ok(TaxResult(net, Included(applied.lines), applied.gross, true)) <==>
            NetSurvives(net, simple) && SharesMatch(net, simple)
  {
    hide Applied, Included, CombinedRate, SimpleError, WithError, Undone;
    if simple == [] {
      OrderedRoundTrip(net, simple, compound);
      ReverseNothing();
      UndoneIs(net, simple, compound);
      NoSimpleError(net);
    } else {
      OrderedRoundTripIff(net, simple, compound);
    }
    WithErrorIff(net, SimpleError(net, simple), CombinedRate(simple));
  }

  /** Two simple rates of equal priority: on 100 the net comes back, and still the lines do not. */
  lemma SimpleOrderLost()
    ensures var a: TaxRate := Rate("A", 0.5, Sales, false, 1, None, None);
            var b: TaxRate := Rate("B", 0.5, Sales, false, 1, None, None);
            var back := Inclusive(Exclusive(100, [a, b]).gross, [a, b]);
            back.Ok? && back.value.net == 100 && !RoundTrips(100, [a, b])
  {
    hide SimpleError, Inclusive, Exclusive, CombinedRate, AppliedSimple, Palindromic, RoundTrips, Undoable, NoRepeats,
      WithError;
    var a: TaxRate := Rate("A", 0.5, Sales, false, 1, None, None);
    var b: TaxRate := Rate("B", 0.5, Sales, false, 1, None, None);
    assert a.code[0] != b.code[0];
    TwoSimpleRates(a, b);
    NoErrorOnHundred(a, b);
    NoCompoundRates([a, b]);
    RecoveredNet(100, [a, b]);
    TwoOfOnePriority(a, b);
    AnyRoundTripIff(100, [a, b]);
  }

  lemma NoErrorOnHundred(a: TaxRate, b: TaxRate)
    requires a.rate == b.rate == 0.5
    ensures WithError(100, SimpleError(100, [a, b]), 1.0) == 100
  {
    assert SimpleError(100, []) == 0.0 && TaxOn(100, a) == TaxOn(100, b) == 50;
    hide SimpleError, TaxOn;
    SimpleErrorStep(100, [], a);
    SimpleErrorStep(100, [a], b);
    assert [] + [a] == [a] && [a] + [b] == [a, b];
    RoundsTo(100.0, 100);
  }

  lemma TwoOfOnePriority(a: TaxRate, b: TaxRate)
    requires !a.isCompound && !b.isCompound && a.code != b.code && a.priority == b.priority
    ensures !Undoable(100, [a, b])
    ensures forall x, y :: x in [a, b] && y in [a, b] && x.code == y.code ==> x == y
  {
    hide NetSurvives, SharesMatch, Palindromic;
    assert multiset([a, b]) == multiset{a, b};
    assert a in [a, b] && b in [a, b];
    PalindromicIsDistinct([a, b], IsSimple);
  }
}
