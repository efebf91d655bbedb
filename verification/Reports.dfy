/**
 One provider's comparison as it is reported: what each candidate says about its group, the
 totals and daily lists beside them, and what those numbers mean in terms of the records.
 */
module Reports {
  import opened Common
  import opened Maths
  import opened Costs
  import opened Sorting
  import opened Comparison

  // ---------------------------------------------------------------- one candidate

  /** Averages are per day, unit costs are hundred-millionths per unit. */
  datatype Candidate = Candidate(
    group: Aggregate, expected: int, change: int, percent: Option<int>, baselineAverage: int, currentAverage: int,
    quantityPercent: Option<int>, unitBaseline: Option<int>, unitCurrent: Option<int>, firstSpike: Option<Day>, isNew: bool)

  function UnitCost(cost: int, quantity: int): Option<int> {
    if quantity <= 0 then None else Some(RoundHalfEven(cost as real / quantity as real * 100000000.0))
  }

  /** A percentage of an expectation that is itself not rounded. */
  function QuantityPercent(current: int, expected: real): Option<int> {
    if expected <= 0.0 then None else Some(RoundHalfEven((current as real - expected) / expected * 100000.0))
  }

  function ExpectedQuantity(quantity: int, current: Period, baseline: Period): real
    requires current.Valid() && baseline.Valid()
  {
    quantity as real * Scale(current, baseline)
  }

  /** In micro-units a day: half as much again as the baseline's average, and at least a cent. */
  function SpikeThreshold(a: Aggregate, baseline: Period): real
    requires baseline.Valid()
  {
    Max(a.baselineCost as real / baseline.Days() as real * 1.5, 10000.0)
  }

  function FirstAbove(a: Aggregate, from: Day, last: Day, threshold: real): Option<Day>
    decreases last - from
  {
    if from > last then None
    else if DailyOf(a, from) as real > threshold then Some(from)
    else FirstAbove(a, from + 1, last, threshold)
  }

  function Offer(a: Aggregate, current: Period, baseline: Period): Candidate
    requires current.Valid() && baseline.Valid()
  {
    Figures(a, current, baseline, FirstAbove(a, current.first, current.last, SpikeThreshold(a, baseline)))
  }

  function Average(cost: int, days: int): int
    requires days > 0
  {
    RoundHalfEven(cost as real / days as real)
  }

  /** A group's figures, given the first day it spiked. */
  function Figures(a: Aggregate, current: Period, baseline: Period, spike: Option<Day>): Candidate
    requires current.Valid() && baseline.Valid()
  {
    var scale := Scale(current, baseline);
    var expected := Expected(a.baselineCost, scale);
    Candidate(a, expected, a.currentCost - expected, Percent(a.currentCost, expected),
              Average(a.baselineCost, baseline.Days()), Average(a.currentCost, current.Days()),
              QuantityPercent(a.currentQuantity, ExpectedQuantity(a.baselineQuantity, current, baseline)),
              UnitCost(a.baselineCost, a.baselineQuantity), UnitCost(a.currentCost, a.currentQuantity),
              spike, a.baselineCost <= 0 && a.currentCost > 0)
  }

  method FirstSpike(a: Aggregate, current: Period, threshold: real) returns (day: Option<Day>)
    requires current.Valid()
    ensures day == FirstAbove(a, current.first, current.last, threshold)
  {
    for d := current.first to current.last + 1
      invariant FirstAbove(a, d, current.last, threshold) == FirstAbove(a, current.first, current.last, threshold)
    {
      if DailyOf(a, d) as real > threshold {
        return Some(d);
      }
    }
    return None;
  }

  method BuildCandidate(a: Aggregate, current: Period, baseline: Period) returns (c: Candidate)
    requires current.Valid() && baseline.Valid()
    ensures c == Offer(a, current, baseline)
  {
    var spike := FirstSpike(a, current, SpikeThreshold(a, baseline));
    c := Figures(a, current, baseline, spike);
  }

  predicate IsMaterial(c: Candidate, config: Config) {
    if c.change < config.minChange then false
    else if c.isNew then true
    else match c.percent
      case None => true
      case Some(p) => p >= config.minPercent
  }

  function Offers(groups: Groups, current: Period, baseline: Period): (candidates: seq<Candidate>)
    requires current.Valid() && baseline.Valid()
    ensures |candidates| == |groups| && forall i :: 0 <= i < |groups| ==> candidates[i] == Offer(groups[i], current, baseline)
  {
    seq(|groups|, i requires 0 <= i < |groups| => Offer(groups[i], current, baseline))
  }

  lemma {:induction false} MaterialOffer(a: Aggregate, current: Period, baseline: Period, c: Config)
    requires current.Valid() && baseline.Valid()
    ensures IsMaterial(Offer(a, current, baseline), c) <==> Material(a, Scale(current, baseline), c)
  {
  }

  lemma {:induction false} MaterialFrom(ranked: Groups, i: nat, kept: Groups, scale: real, c: Config)
    requires i < |ranked|
    ensures kept + MaterialOnes(ranked[i..], scale, c)
         == (if Material(ranked[i], scale, c) then kept + [ranked[i]] else kept) + MaterialOnes(ranked[i + 1..], scale, c)
  {
    assert ranked[i..][1..] == ranked[i + 1..];
  }

  lemma {:induction false} OffersLast(kept: Groups, a: Aggregate, current: Period, baseline: Period)
    requires current.Valid() && baseline.Valid()
    ensures Offers(kept + [a], current, baseline) == Offers(kept, current, baseline) + [Offer(a, current, baseline)]
  {
  }

  /** Build a candidate for every group in rank order, keep the material ones, cut at the maximum. */
  method SelectCandidates(ranked: Groups, current: Period, baseline: Period, c: Config) returns (candidates: seq<Candidate>)
    requires current.Valid() && baseline.Valid()
    ensures candidates == Offers(Take(MaterialOnes(ranked, Scale(current, baseline), c), c.maxCandidates), current, baseline)
  {
    var scale := Scale(current, baseline);
    ghost var kept: Groups := [];
    candidates := [];
    for i := 0 to |ranked|
      invariant kept + MaterialOnes(ranked[i..], scale, c) == MaterialOnes(ranked, scale, c)
      invariant candidates == Offers(kept, current, baseline)
    {
      var candidate := BuildCandidate(ranked[i], current, baseline);
      MaterialOffer(ranked[i], current, baseline, c);
      MaterialFrom(ranked, i, kept, scale, c);
      OffersLast(kept, ranked[i], current, baseline);
      if IsMaterial(candidate, c) {
        candidates, kept := candidates + [candidate], kept + [ranked[i]];
      }
    }
    if c.maxCandidates < |candidates| {
      candidates := candidates[..c.maxCandidates];
    }
  }

  // ---------------------------------------------------------------- what the numbers mean

  /** `rounded` is `numerator` over `denominator`, to the nearest whole. */
  predicate Nearest(rounded: int, numerator: int, denominator: int) {
    AbsInt(2 * (rounded * denominator - numerator)) <= denominator
  }

  lemma {:induction false} RoundedQuotient(x: real, numerator: int, denominator: int)
    requires denominator > 0 && x * denominator as real == numerator as real
    ensures Nearest(RoundHalfEven(x), numerator, denominator)
  {
    var rounded, d := RoundHalfEven(x), denominator as real;
    RoundError(x);
    var off := rounded * denominator - numerator;
    WholeProduct(rounded, denominator);
    OffBy(rounded as real, x, d, off as real);
    WholeBound(off, denominator);
  }

  lemma {:induction false} OffBy(r: real, x: real, d: real, off: real)
    requires d > 0.0 && -0.5 <= r - x <= 0.5 && off == r * d - x * d
    ensures -d <= 2.0 * off <= d
  {
    Expand(r, x, d);
    Within(r - x, 0.5, d, off, 0.5 * d);
  }

  lemma {:induction false} Expand(r: real, x: real, d: real)
    ensures (r - x) * d == r * d - x * d
  {
  }

  lemma {:induction false} Within(e: real, most: real, d: real, off: real, bound: real)
    requires d > 0.0 && -most <= e <= most && off == e * d && bound == most * d
    ensures -bound <= off <= bound
  {
    ProductMonotone(e, most, d);
    ProductMonotone(-most, e, d);
  }

  lemma {:induction false} WholeProduct(a: int, b: int)
    ensures (a * b) as real == a as real * b as real
  {
  }

  lemma {:induction false} WholeBound(off: int, d: int)
    requires -(d as real) <= 2.0 * off as real <= d as real
    ensures AbsInt(2 * off) <= d
  {
  }

  /** A baseline amount's fair share of the current period: the same amount a day. */
  predicate AdjustedForLength(baselineCost: int, expected: int, current: Period, baseline: Period) {
    Nearest(expected, baselineCost * current.Days(), baseline.Days())
  }

  lemma {:induction false} ScaledDays(x: int, current: Period, baseline: Period)
    requires current.Valid() && baseline.Valid()
    ensures x as real * Scale(current, baseline) * baseline.Days() as real == (x * current.Days()) as real
  {
    ScaleTimesDays(current, baseline);
    Regrouped(x as real, baseline.Days() as real, Scale(current, baseline));
    Swapped(x as real, baseline.Days() as real, Scale(current, baseline));
    WholeProduct(x, current.Days());
  }

  lemma {:induction false} Swapped(k: real, d: real, scale: real)
    ensures k * scale * d == k * d * scale
  {
  }

  lemma {:induction false} ExpectedIsAdjusted(baselineCost: int, current: Period, baseline: Period)
    requires current.Valid() && baseline.Valid()
    ensures AdjustedForLength(baselineCost, Expected(baselineCost, Scale(current, baseline)), current, baseline)
  {
    ScaledDays(baselineCost, current, baseline);
    RoundedQuotient(Adjusted(baselineCost, Scale(current, baseline)), baselineCost * current.Days(), baseline.Days());
  }

  // ---------------------------------------------------------------- what a candidate says

  /** Under a resource's own id where a record has one, else under its service. */
  predicate Labelled(r: Record, key: string) {
    if r.resourceId.Some? && r.resourceId.value != "" then r.resourceId.value == key else r.service == key
  }

  predicate Dated(d: Day, current: Period, baseline: Period, inCurrent: bool) {
    if inCurrent then current.Contains(d) else baseline.Contains(d) && !current.Contains(d)
  }

  /** One amount of the records under a key in one of the periods. */
  function Own(key: string, current: Period, baseline: Period, inCurrent: bool, a: Amount): Record -> int {
    (r: Record) => if Labelled(r, key) && Dated(r.day, current, baseline, inCurrent) then Of(r, a) else 0
  }

  function OwnOn(key: string, current: Period, d: Day): Record -> int {
    (r: Record) => if Labelled(r, key) && current.Contains(r.day) && r.day == d then r.effective else 0
  }

  /** The group's figures are those of its own records. */
  ghost predicate HoldsItsRecords(a: Aggregate, own: seq<Record>, current: Period, baseline: Period) {
    && a.currentCost == Sum(own, Own(a.key, current, baseline, true, Effective))
    && a.baselineCost == Sum(own, Own(a.key, current, baseline, false, Effective))
    && a.currentQuantity == Sum(own, Own(a.key, current, baseline, true, Quantity))
    && a.baselineQuantity == Sum(own, Own(a.key, current, baseline, false, Quantity))
    && forall d: Day :: DailyOf(a, d) == Sum(own, OwnOn(a.key, current, d))
  }

  predicate IsPercent(percent: Option<int>, current: int, expected: int) {
    if expected <= 0 then percent.None? else percent.Some? && Nearest(percent.value, 100000 * (current - expected), expected)
  }

  /** `x` a day over the baseline's days against `y` a day over the current ones, cross-multiplied. */
  predicate IsRatePercent(percent: Option<int>, current: int, baselineAmount: int, days: int, baselineDays: int) {
    if baselineAmount <= 0 then percent.None?
    else percent.Some? && Nearest(percent.value, 100000 * (current * baselineDays - baselineAmount * days), baselineAmount * days)
  }

  predicate IsUnitCost(unit: Option<int>, cost: int, quantity: int) {
    if quantity <= 0 then unit.None? else unit.Some? && Nearest(unit.value, 100000000 * cost, quantity)
  }

  /** More than half as much again as an average baseline day, and more than a cent. */
  predicate Spikes(cost: int, baselineCost: int, baselineDays: int) {
    2 * (cost * baselineDays) > 3 * baselineCost && cost > 10000
  }

  ghost predicate IsFirstSpike(day: Option<Day>, a: Aggregate, current: Period, baseline: Period) {
    match day
    case Some(d) =>
      && current.Contains(d) && Spikes(DailyOf(a, d), a.baselineCost, baseline.Days())
      && forall e :: current.first <= e < d ==> !Spikes(DailyOf(a, e), a.baselineCost, baseline.Days())
    case None => forall e :: current.Contains(e) ==> !Spikes(DailyOf(a, e), a.baselineCost, baseline.Days())
  }

  predicate TellsCost(x: Candidate, current: Period, baseline: Period)
  {
    && AdjustedForLength(x.group.baselineCost, x.expected, current, baseline)
    && x.change == x.group.currentCost - x.expected && IsPercent(x.percent, x.group.currentCost, x.expected)
    && (x.isNew <==> x.group.baselineCost <= 0 < x.group.currentCost)
  }

  predicate TellsRates(x: Candidate, current: Period, baseline: Period)
  {
    && Nearest(x.baselineAverage, x.group.baselineCost, baseline.Days())
    && Nearest(x.currentAverage, x.group.currentCost, current.Days())
    && IsRatePercent(x.quantityPercent, x.group.currentQuantity, x.group.baselineQuantity, current.Days(), baseline.Days())
    && IsUnitCost(x.unitBaseline, x.group.baselineCost, x.group.baselineQuantity)
    && IsUnitCost(x.unitCurrent, x.group.currentCost, x.group.currentQuantity)
  }

  lemma {:induction false} PercentMeans(current: int, expected: int)
    ensures IsPercent(Percent(current, expected), current, expected)
  {
    if expected > 0 {
      var d := expected as real;
      var x := (current - expected) as real / d * 100000.0;
      QuotientTimes((current - expected) as real, d, 100000.0);
      RoundedQuotient(x, 100000 * (current - expected), expected);
    }
  }

  lemma {:induction false} QuotientTimes(n: real, d: real, k: real)
    requires d != 0.0
    ensures n / d * k * d == k * n
  {
    var q := n / d;
    assert q * d == n;
    assert q * k * d == k * (q * d);
  }

  lemma {:induction false} UnitCostMeans(cost: int, quantity: int)
    ensures IsUnitCost(UnitCost(cost, quantity), cost, quantity)
  {
    if quantity > 0 {
      QuotientTimes(cost as real, quantity as real, 100000000.0);
      RoundedQuotient(cost as real / quantity as real * 100000000.0, 100000000 * cost, quantity);
    }
  }

  lemma {:induction false} AverageMeans(cost: int, days: int)
    requires days > 0
    ensures Nearest(Average(cost, days), cost, days)
  {
    QuotientTimes(cost as real, days as real, 1.0);
    RoundedQuotient(cost as real / days as real, cost, days);
  }

  lemma {:induction false} OfferTellsCost(a: Aggregate, current: Period, baseline: Period)
    requires current.Valid() && baseline.Valid()
    ensures TellsCost(Offer(a, current, baseline), current, baseline)
  {
    ExpectedIsAdjusted(a.baselineCost, current, baseline);
    PercentMeans(a.currentCost, Expected(a.baselineCost, Scale(current, baseline)));
  }

  lemma {:induction false} QuantityPercentMeans(current: int, baselineAmount: int, now: Period, earlier: Period)
    requires now.Valid() && earlier.Valid()
    ensures IsRatePercent(QuantityPercent(current, ExpectedQuantity(baselineAmount, now, earlier)), current, baselineAmount,
                          now.Days(), earlier.Days())
  {
    var expected, b := ExpectedQuantity(baselineAmount, now, earlier), earlier.Days() as real;
    ScaledDays(baselineAmount, now, earlier);
    SameSign(expected, b, baselineAmount, now.Days());
    if expected > 0.0 {
      var x := (current as real - expected) / expected * 100000.0;
      QuotientTimes(current as real - expected, expected, 100000.0);
      RateTimes(x, current as real, expected, b);
      WholeProduct(current, earlier.Days());
      RoundedQuotient(x, 100000 * (current * earlier.Days() - baselineAmount * now.Days()), baselineAmount * now.Days());
    }
  }

  lemma {:induction false} SameSign(expected: real, b: real, amount: int, days: int)
    requires b > 0.0 && days > 0 && expected * b == (amount * days) as real
    ensures expected > 0.0 <==> amount > 0
    ensures amount > 0 ==> amount * days > 0
  {
    PositiveProduct(expected, b);
    if amount > 0 {
      assert amount * days >= days;
    } else {
      assert amount * days <= 0;
    }
  }

  lemma {:induction false} PositiveProduct(x: real, b: real)
    requires b > 0.0
    ensures x > 0.0 <==> x * b > 0.0
  {
    if x <= 0.0 {
      ProductMonotone(x, 0.0, b);
    }
  }

  lemma {:induction false} RateTimes(x: real, current: real, expected: real, b: real)
    requires x * expected == 100000.0 * (current - expected)
    ensures x * (expected * b) == 100000.0 * (current * b - expected * b)
  {
    assert x * (expected * b) == x * expected * b;
    Expand(current, expected, b);
  }

  lemma {:induction false} SpikeMeans(cost: int, baselineCost: int, days: int)
    requires days > 0
    ensures cost as real > Max(baselineCost as real / days as real * 1.5, 10000.0) <==> Spikes(cost, baselineCost, days)
  {
    var d, average := days as real, baselineCost as real / days as real;
    assert average * d == baselineCost as real;
    WholeProduct(cost, days);
    OverAverage(cost as real, average, d);
  }

  lemma {:induction false} OverAverage(cost: real, average: real, d: real)
    requires d > 0.0
    ensures cost > average * 1.5 <==> 2.0 * (cost * d) > 3.0 * (average * d)
  {
    var off := 2.0 * cost - 3.0 * average;
    Expand(2.0 * cost, 3.0 * average, d);
    if off > 0.0 {
      assert off * d > 0.0;
    } else {
      ProductMonotone(off, 0.0, d);
    }
  }

  lemma {:induction false} FirstAboveMeans(a: Aggregate, from: Day, last: Day, threshold: real)
    ensures match FirstAbove(a, from, last, threshold)
            case Some(d) => from <= d <= last && DailyOf(a, d) as real > threshold
                            && forall e :: from <= e < d ==> DailyOf(a, e) as real <= threshold
            case None => forall e :: from <= e <= last ==> DailyOf(a, e) as real <= threshold
    decreases last - from
  {
    if from <= last && DailyOf(a, from) as real <= threshold {
      FirstAboveMeans(a, from + 1, last, threshold);
    }
  }

  lemma {:induction false} OfferTellsSpike(a: Aggregate, current: Period, baseline: Period)
    requires current.Valid() && baseline.Valid()
    ensures IsFirstSpike(Offer(a, current, baseline).firstSpike, a, current, baseline)
  {
    var threshold := SpikeThreshold(a, baseline);
    FirstAboveMeans(a, current.first, current.last, threshold);
    forall d: Day
      ensures DailyOf(a, d) as real > threshold <==> Spikes(DailyOf(a, d), a.baselineCost, baseline.Days())
    {
      SpikeMeans(DailyOf(a, d), a.baselineCost, baseline.Days());
    }
  }

  lemma {:induction false} OfferTellsAverages(a: Aggregate, current: Period, baseline: Period)
    requires current.Valid() && baseline.Valid()
    ensures Nearest(Offer(a, current, baseline).baselineAverage, a.baselineCost, baseline.Days())
    ensures Nearest(Offer(a, current, baseline).currentAverage, a.currentCost, current.Days())
  {
    AverageMeans(a.baselineCost, baseline.Days());
    AverageMeans(a.currentCost, current.Days());
  }

  lemma {:induction false} OfferTellsUnits(a: Aggregate, current: Period, baseline: Period)
    requires current.Valid() && baseline.Valid()
    ensures IsUnitCost(Offer(a, current, baseline).unitBaseline, a.baselineCost, a.baselineQuantity)
    ensures IsUnitCost(Offer(a, current, baseline).unitCurrent, a.currentCost, a.currentQuantity)
  {
    UnitCostMeans(a.baselineCost, a.baselineQuantity);
    UnitCostMeans(a.currentCost, a.currentQuantity);
  }

  lemma {:induction false} OfferTellsQuantity(a: Aggregate, current: Period, baseline: Period)
    requires current.Valid() && baseline.Valid()
    ensures IsRatePercent(Offer(a, current, baseline).quantityPercent, a.currentQuantity, a.baselineQuantity,
                          current.Days(), baseline.Days())
  {
    QuantityPercentMeans(a.currentQuantity, a.baselineQuantity, current, baseline);
  }

  lemma {:induction false} OfferTellsRates(a: Aggregate, x: Candidate, current: Period, baseline: Period)
    requires current.Valid() && baseline.Valid() && x == Offer(a, current, baseline) && x.group == a
    ensures TellsRates(x, current, baseline)
  {
    OfferTellsAverages(a, current, baseline);
    OfferTellsUnits(a, current, baseline);
    OfferTellsQuantity(a, current, baseline);
  }

  lemma {:induction false} GroupTellsItsRecords(own: seq<Record>, a: Aggregate, current: Period, baseline: Period)
    requires a in GroupBy(own, ProviderGrouping(current, baseline))
    ensures HoldsItsRecords(a, own, current, baseline)
  {
    var g := ProviderGrouping(current, baseline);
    GroupHoldsItsSums(own, g, a.key);
    MemberIsFound(GroupBy(own, g), a);
    forall inCurrent: bool, amount: Amount
      ensures Sum(own, Part(g, a.key, inCurrent, amount)) == Sum(own, Own(a.key, current, baseline, inCurrent, amount))
    {
      SumSame(own, Part(g, a.key, inCurrent, amount), Own(a.key, current, baseline, inCurrent, amount));
    }
    forall d: Day
      ensures Sum(own, DayPart(g, a.key, d)) == Sum(own, OwnOn(a.key, current, d))
    {
      SumSame(own, DayPart(g, a.key, d), OwnOn(a.key, current, d));
    }
  }

  lemma {:induction false} MemberIsFound(groups: Groups, a: Aggregate)
    requires a in groups && DistinctKeys(groups)
    ensures Find(groups, a.key) == Some(a)
  {
    Multiplicity(groups, a);
    assert multiset(groups)[a] > 0;
  }

  // ---------------------------------------------------------------- the report

  datatype ProviderReport = ProviderReport(
    comparison: ProviderComparison, candidates: seq<Candidate>, dailyCurrent: seq<DailyTotal>, dailyBaseline: seq<DailyTotal>,
    currency: string)

  function TotalChange(candidates: seq<Candidate>): int {
    if candidates == [] then 0 else candidates[0].change + TotalChange(candidates[1..])
  }

  /** Worth publishing: it changed enough, and enough in proportion where there is a proportion. */
  predicate Worth(x: Candidate, c: Config) {
    x.change >= c.minChange && (x.isNew || x.percent.None? || x.percent.value >= c.minPercent)
  }

  /** The raw change of one candidate's group, before any adjustment. */
  function RawOf(x: Candidate): int { x.group.currentCost - x.group.baselineCost }

  ghost predicate CandidatesTell(candidates: seq<Candidate>, own: seq<Record>, current: Period, baseline: Period, c: Config) {
    && |candidates| <= c.maxCandidates
    && (forall i :: 0 <= i < |candidates| ==> Tells(candidates[i], own, current, baseline) && Worth(candidates[i], c))
    && (forall i, j :: 0 <= i < j < |candidates| ==>
          RawOf(candidates[i]) >= RawOf(candidates[j]) && candidates[i].group.key != candidates[j].group.key)
  }

  /** The cost of the records of one of the periods. */
  function Paid(current: Period, baseline: Period, inCurrent: bool): Record -> int {
    (r: Record) => if Dated(r.day, current, baseline, inCurrent) then r.effective else 0
  }

  /** Each record's cost is in the totals once. */
  ghost predicate TotalsTell(p: ProviderComparison, own: seq<Record>, current: Period, baseline: Period) {
    p.currentCost == Sum(own, Paid(current, baseline, true)) && p.baselineCost == Sum(own, Paid(current, baseline, false))
  }

  /** The expectation is adjusted to the length of the period, and the change measured against it. */
  predicate ChangeTells(p: ProviderComparison, current: Period, baseline: Period) {
    && AdjustedForLength(p.baselineCost, p.expectedBaseline, current, baseline)
    && p.change == p.currentCost - p.expectedBaseline && IsPercent(p.percent, p.currentCost, p.expectedBaseline)
  }

  /** What the candidates leave over, against the tolerance of a change of at least one unit. */
  predicate ReconciliationTells(r: Reconciliation, change: int, attributed: int, tolerance: real) {
    && r.total == change && r.attributed == attributed && r.unattributed == change - attributed
    && (r.within <==> AbsInt(change - attributed) as real <= tolerance * Max(AbsInt(change) as real, 1000000.0))
  }

  /** The same cost `k` on every day of both periods. */
  ghost predicate LevelSpend(own: seq<Record>, current: Period, baseline: Period, k: int) {
    && (forall d: Day :: current.Contains(d) || baseline.Contains(d) ==> Sum(own, OnDay(d, Effective)) == k)
    && forall d: Day :: !(current.Contains(d) && baseline.Contains(d))
  }

  lemma {:induction false} OfferedChange(groups: Groups, current: Period, baseline: Period)
    requires current.Valid() && baseline.Valid()
    ensures TotalChange(Offers(groups, current, baseline)) == SumChanges(groups, Scale(current, baseline))
  {
    if groups != [] {
      OfferedChange(groups[1..], current, baseline);
      assert Offers(groups, current, baseline)[1..] == Offers(groups[1..], current, baseline);
    }
  }

  lemma {:induction false} TotalsAreSums(own: seq<Record>, current: Period, baseline: Period)
    ensures var groups := GroupBy(own, ProviderGrouping(current, baseline));
            && CurrentTotal(groups) == Sum(own, Paid(current, baseline, true))
            && BaselineTotal(groups) == Sum(own, Paid(current, baseline, false))
  {
    var g := ProviderGrouping(current, baseline);
    GroupsConserveCost(own, g);
    SumSame(own, InCurrent(g), Paid(current, baseline, true));
    SumSame(own, InBaseline(g), Paid(current, baseline, false));
  }

  lemma {:induction false} ReconciliationMeans(change: int, attributed: int, tolerance: real)
    ensures ReconciliationTells(Reconcile(change, attributed, tolerance), change, attributed, tolerance)
  {
  }

  lemma {:induction false} ChangeMeans(p: ProviderComparison, current: Period, baseline: Period)
    requires current.Valid() && baseline.Valid()
    requires p.expectedBaseline == Expected(p.baselineCost, Scale(current, baseline))
    requires p.change == p.currentCost - p.expectedBaseline && p.percent == Percent(p.currentCost, p.expectedBaseline)
    ensures ChangeTells(p, current, baseline)
  {
    ExpectedIsAdjusted(p.baselineCost, current, baseline);
    PercentMeans(p.currentCost, p.expectedBaseline);
  }

  /** A group's candidate says what its records hold. */
  ghost predicate Tells(x: Candidate, own: seq<Record>, current: Period, baseline: Period) {
    && HoldsItsRecords(x.group, own, current, baseline) && TellsCost(x, current, baseline)
    && TellsRates(x, current, baseline) && IsFirstSpike(x.firstSpike, x.group, current, baseline)
  }

  lemma {:induction false} OfferTells(a: Aggregate, x: Candidate, own: seq<Record>, current: Period, baseline: Period)
    requires current.Valid() && baseline.Valid() && a in GroupBy(own, ProviderGrouping(current, baseline))
    requires x == Offer(a, current, baseline) && x.group == a
    ensures Tells(x, own, current, baseline)
  {
    GroupTellsItsRecords(own, a, current, baseline);
    OfferTellsCost(a, current, baseline);
    OfferTellsRates(a, x, current, baseline);
    OfferTellsSpike(a, current, baseline);
  }

  lemma {:induction false} MaterialIsWorth(a: Aggregate, x: Candidate, current: Period, baseline: Period, c: Config)
    requires current.Valid() && baseline.Valid() && x == Offer(a, current, baseline)
    ensures Material(a, Scale(current, baseline), c) <==> Worth(x, c)
  {
  }

  lemma {:induction false} PublishedTell(groups: Groups, own: seq<Record>, current: Period, baseline: Period, c: Config)
    requires current.Valid() && baseline.Valid() && groups == GroupBy(own, ProviderGrouping(current, baseline))
    ensures CandidatesTell(Offers(Published(groups, Scale(current, baseline), c), current, baseline), own, current, baseline, c)
  {
    var published := Published(groups, Scale(current, baseline), c);
    var candidates := Offers(published, current, baseline);
    PublishedAndWithheldPartition(groups, Scale(current, baseline), c);
    forall i | 0 <= i < |candidates|
      ensures Tells(candidates[i], own, current, baseline) && Worth(candidates[i], c)
    {
      assert published[i] in multiset(published) && published[i] in multiset(groups);
      OfferTells(published[i], candidates[i], own, current, baseline);
      MaterialIsWorth(published[i], candidates[i], current, baseline, c);
    }
    GroupKeys(own, ProviderGrouping(current, baseline), "");
    PublishedInOrder(groups, Scale(current, baseline), c);
  }

  lemma {:induction false} DistinctPermuted(x: Groups, y: Groups)
    requires DistinctKeys(x) && multiset(x) == multiset(y)
    ensures DistinctKeys(y)
  {
    forall i, j | 0 <= i < j < |y|
      ensures y[i].key != y[j].key
    {
      if y[i].key == y[j].key {
        assert y[i] in multiset(x) && y[j] in multiset(x);
        MemberIsFound(x, y[i]);
        MemberIsFound(x, y[j]);
        TwiceInMultiset(y, i, j);
        Multiplicity(x, y[i]);
      }
    }
  }

  lemma {:induction false} MaterialKeepsKeys(ranked: Groups, scale: real, c: Config)
    requires DistinctKeys(ranked)
    ensures DistinctKeys(MaterialOnes(ranked, scale, c))
    ensures forall a :: a in MaterialOnes(ranked, scale, c) ==> a in ranked
  {
    if ranked != [] {
      var rest := MaterialOnes(ranked[1..], scale, c);
      MaterialKeepsKeys(ranked[1..], scale, c);
      forall i | 0 <= i < |rest|
        ensures rest[i].key != ranked[0].key
      {
        assert rest[i] in ranked[1..];
        var j :| 0 <= j < |ranked[1..]| && ranked[1..][j] == rest[i];
        assert ranked[j + 1] == rest[i];
      }
    }
  }

  lemma {:induction false} PublishedInOrder(groups: Groups, scale: real, c: Config)
    requires DistinctKeys(groups)
    ensures DistinctKeys(Published(groups, scale, c)) && Ordered(Published(groups, scale, c), LargerRaw)
  {
    RankedOrdered(groups);
    MaterialOrdered(Ranked(groups), scale, c);
    DistinctPermuted(groups, Ranked(groups));
    MaterialKeepsKeys(Ranked(groups), scale, c);
  }

  /** Nothing is overlooked: every key of an in-window record has a candidate's figures, which are
      published, or not worth it, or no larger than any of a full list. */
  lemma {:induction false} NothingIsOverlooked(own: seq<Record>, r: Record, key: string, current: Period, baseline: Period, c: Config)
    returns (x: Candidate)
    requires current.Valid() && baseline.Valid()
    requires r in own && Labelled(r, key) && (current.Contains(r.day) || baseline.Contains(r.day))
    ensures x.group.key == key && Tells(x, own, current, baseline)
    ensures var groups := GroupBy(own, ProviderGrouping(current, baseline));
            var candidates := Offers(Published(groups, Scale(current, baseline), c), current, baseline);
            || x in candidates || !Worth(x, c)
            || (|candidates| == c.maxCandidates && forall y :: y in candidates ==> RawOf(y) >= RawOf(x))
  {
    var g, scale := ProviderGrouping(current, baseline), Scale(current, baseline);
    var groups := GroupBy(own, g);
    assert g.Lands(r) && g.key(r) == Some(key);
    GroupKeys(own, g, key);
    FindMeans(groups, key);
    var a := Find(groups, key).value;
    x := Offer(a, current, baseline);
    OfferTells(a, x, own, current, baseline);
    MaterialIsWorth(a, x, current, baseline, c);
    var published := Published(groups, scale, c);
    var candidates := Offers(published, current, baseline);
    if a in published {
      var i :| 0 <= i < |published| && published[i] == a;
      assert candidates[i] == x;
    } else if Material(a, scale, c) {
      LeftBehind(groups, a, scale, c);
      forall y | y in candidates
        ensures RawOf(y) >= RawOf(x)
      {
        var i :| 0 <= i < |candidates| && candidates[i] == y;
        assert published[i] in published;
      }
    }
  }

  /** A material group that is not published is no larger than any of a full list. */
  lemma {:induction false} LeftBehind(groups: Groups, a: Aggregate, scale: real, c: Config)
    requires a in groups && Material(a, scale, c) && a !in Published(groups, scale, c)
    ensures |Published(groups, scale, c)| == c.maxCandidates
    ensures forall b :: b in Published(groups, scale, c) ==> RawChange(b) >= RawChange(a)
  {
    var ranking := MaterialOnes(Ranked(groups), scale, c);
    RankedOrdered(groups);
    MaterialOrdered(Ranked(groups), scale, c);
    MaterialCounts(Ranked(groups), scale, c, a);
    assert a in multiset(Ranked(groups));
    assert a in multiset(ranking) && a in ranking;
    var j :| 0 <= j < |ranking| && ranking[j] == a;
    forall b | b in Published(groups, scale, c)
      ensures RawChange(b) >= RawChange(a)
    {
      var i :| 0 <= i < |Published(groups, scale, c)| && ranking[i] == b;
      assert LargerRaw(ranking[i], ranking[j]);
    }
  }

  // ---------------------------------------------------------------- the law of level spend

  lemma {:induction false} LevelDays(own: seq<Record>, first: Day, last: Day, k: int)
    requires first <= last + 1 && forall d: Day :: first <= d <= last ==> Sum(own, OnDay(d, Effective)) == k
    ensures SumDaily(own, first, last) == k * (last - first + 1)
    decreases last - first + 1
  {
    if first <= last {
      LevelDays(own, first + 1, last, k);
    }
  }

  lemma {:induction false} SharedExactly(k: int, current: Period, baseline: Period)
    requires current.Valid() && baseline.Valid()
    ensures Expected(k * baseline.Days(), Scale(current, baseline)) == k * current.Days()
  {
    var scale := Scale(current, baseline);
    ScaleTimesDays(current, baseline);
    WholeProduct(k, baseline.Days());
    WholeProduct(k, current.Days());
    Shared((k * baseline.Days()) as real, k as real, baseline.Days() as real, scale, current.Days() as real);
    assert Adjusted(k * baseline.Days(), scale) == (k * current.Days()) as real;
    RoundInteger(k * current.Days());
  }

  lemma {:induction false} Shared(total: real, k: real, d: real, scale: real, days: real)
    requires total == k * d && scale * d == days
    ensures total * scale == k * days
  {
    Regrouped(k, d, scale);
  }

  lemma {:induction false} ScaleTimesDays(current: Period, baseline: Period)
    requires current.Valid() && baseline.Valid()
    ensures Scale(current, baseline) * baseline.Days() as real == current.Days() as real
  {
  }

  lemma {:induction false} Regrouped(k: real, d: real, scale: real)
    ensures k * d * scale == k * (scale * d)
  {
  }

  /** Main result: whoever spends the same every day has no change, however long the periods are:
      all of the current period is expected. */
  lemma {:induction false} LevelSpendIsNoChange(own: seq<Record>, current: Period, baseline: Period, k: int, c: Config)
    requires current.Valid() && baseline.Valid() && LevelSpend(own, current, baseline, k)
    ensures var p := CompareGroups(GroupBy(own, ProviderGrouping(current, baseline)), Scale(current, baseline), c);
            && p.currentCost == p.expectedBaseline == k * current.Days() && p.change == 0
            && (k > 0 ==> p.percent == Some(0))
  {
    LevelTotals(own, current, baseline, k);
    SharedExactly(k, current, baseline);
    if k > 0 {
      NoPercent(k * current.Days());
    }
  }

  lemma {:induction false} LevelTotals(own: seq<Record>, current: Period, baseline: Period, k: int)
    requires current.Valid() && baseline.Valid() && LevelSpend(own, current, baseline, k)
    ensures var groups := GroupBy(own, ProviderGrouping(current, baseline));
            CurrentTotal(groups) == k * current.Days() && BaselineTotal(groups) == k * baseline.Days()
  {
    var g := ProviderGrouping(current, baseline);
    DailyTotalsAgree(own, current, baseline);
    LevelDays(own, current.first, current.last, k);
    LevelDays(own, baseline.first, baseline.last, k);
    SumSame(own, InBoth(g), r => 0);
    SumZero(own);
  }

  lemma {:induction false} NoPercent(expected: int)
    requires expected > 0
    ensures Percent(expected, expected) == Some(0)
  {
    assert (expected - expected) as real / expected as real == 0.0;
    RoundInteger(0);
  }

  // ---------------------------------------------------------------- comparing one provider

  method CompareProvider(rows: seq<Record>, provider: string, current: Period, baseline: Period, c: Config, configured: string)
    returns (report: ProviderReport)
    requires current.Valid() && baseline.Valid()
    ensures report.comparison == CompareGroups(GroupBy(OfProvider(rows, provider), ProviderGrouping(current, baseline)),
                                               Scale(current, baseline), c)
    ensures report.candidates == Offers(report.comparison.candidates, current, baseline)
    ensures TotalsTell(report.comparison, OfProvider(rows, provider), current, baseline)
    ensures ChangeTells(report.comparison, current, baseline)
    ensures CandidatesTell(report.candidates, OfProvider(rows, provider), current, baseline, c)
    ensures ReconciliationTells(report.comparison.reconciliation, report.comparison.change, TotalChange(report.candidates), c.tolerance)
    ensures forall k :: LevelSpend(OfProvider(rows, provider), current, baseline, k) ==> report.comparison.change == 0
    ensures IsDailyTotals(report.dailyCurrent, OfProvider(rows, provider), current)
    ensures IsDailyTotals(report.dailyBaseline, OfProvider(rows, provider), baseline)
    ensures report.currency == LastCurrency(OfProvider(rows, provider), current, baseline, configured)
  {
    var own := OfProvider(rows, provider);
    var groups := GroupRecords(own, ProviderGrouping(current, baseline));
    var candidates := SelectCandidates(Ranked(groups), current, baseline, c);
    var currentCost, baselineCost := CurrentTotal(groups), BaselineTotal(groups);
    var expected := Expected(baselineCost, Scale(current, baseline));
    var change := currentCost - expected;
    ghost var published := Published(groups, Scale(current, baseline), c);
    OfferedChange(published, current, baseline);
    var comparison := ProviderComparison(currentCost, baselineCost, expected, change, Percent(currentCost, expected),
                                         GroupsOf(candidates), Reconcile(change, TotalChange(candidates), c.tolerance));
    assert comparison.candidates == published;
    var dailyCurrent := DailyTotals(own, current);
    var dailyBaseline := DailyTotals(own, baseline);
    var currency := NamedCurrency(own, current, baseline, configured);
    report := ProviderReport(comparison, candidates, dailyCurrent, dailyBaseline, currency);
    ReportTells(own, report.comparison, current, baseline, c);
  }

  function GroupsOf(candidates: seq<Candidate>): Groups {
    seq(|candidates|, i requires 0 <= i < |candidates| => candidates[i].group)
  }

  lemma {:induction false} ReportTells(own: seq<Record>, p: ProviderComparison, current: Period, baseline: Period, c: Config)
    requires current.Valid() && baseline.Valid()
    requires p == CompareGroups(GroupBy(own, ProviderGrouping(current, baseline)), Scale(current, baseline), c)
    ensures TotalsTell(p, own, current, baseline) && ChangeTells(p, current, baseline)
    ensures var candidates := Offers(p.candidates, current, baseline);
            && CandidatesTell(candidates, own, current, baseline, c)
            && ReconciliationTells(p.reconciliation, p.change, TotalChange(candidates), c.tolerance)
    ensures forall k :: LevelSpend(own, current, baseline, k) ==> p.change == 0
  {
    TotalsAreSums(own, current, baseline);
    ChangeMeans(p, current, baseline);
    PublishedTell(GroupBy(own, ProviderGrouping(current, baseline)), own, current, baseline, c);
    OfferedChange(p.candidates, current, baseline);
    ReconciliationMeans(p.change, SumChanges(p.candidates, Scale(current, baseline)), c.tolerance);
    forall k | LevelSpend(own, current, baseline, k)
      ensures p.change == 0
    {
      LevelSpendIsNoChange(own, current, baseline, k, c);
    }
  }
}
