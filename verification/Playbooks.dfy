/**
 Deterministic playbooks: which waste pattern explains a candidate, the evidence for it, and
 a confidence derived from that evidence alone.
 */
module Playbooks {
  import opened Common
  import opened Maths
  import opened Strings
  import opened Findings
  import opened Sorting
  import Knowledge
  import Validation

  datatype Spec = Spec(
    category: string, ruleType: string, servicePatterns: seq<string>, skuPatterns: seq<string>,
    resourceTypePatterns: seq<string>, metricNames: seq<string>, auditPatterns: seq<string>,
    lowUtilizationMetrics: seq<string>, lowUtilizationThreshold: real, requiresNewSpend: bool,
    requiresQuantityGrowth: bool, requiresRateChange: bool, requiresMissingOwner: bool, priority: int,
    isFallback: bool, maxConfidence: real, risk: string)

  const FALLBACK := Spec(FALLBACK_CATEGORY, "cost_driver", [], [], [], [], [], [], 5.0, false, false, false, false,
                         99, true, 0.4, "low")

  const OWNER_TAGS := ["owner", "Owner", "team", "Team", "cost-center", "costCenter"]

  datatype Candidate = Candidate(
    id: string, service: Option<string>, serviceCategory: Option<string>, skus: seq<string>,
    resourceId: Option<string>, tags: map<string, string>, change: real, percentChange: Option<real>,
    currentQuantity: real, baselineQuantity: real, quantityPercent: Option<real>,
    unitBaseline: Option<real>, unitCurrent: Option<real>, firstSpike: Option<Day>, isNew: bool, region: Option<string>)
  {
    predicate QuantityDriven() { quantityPercent.Some? ==> quantityPercent.value >= 10.0 }
  }

  /** `flagged` marks items whose text was scrubbed as untrusted. */
  datatype Resource = Resource(id: string, kind: string, tags: map<string, string>, flagged: bool)
  datatype Series = Series(resourceId: string, name: string, average: real)
  datatype AuditEvent = AuditEvent(name: string, day: Day, time: int, resourceIds: seq<string>, flagged: bool)
  datatype Advice = Advice(resourceId: string, flagged: bool)

  /** `lower` is case folding and `tag` the provider's name in capitals; an evidence
      reference is never empty in what the provider supplies. */
  datatype Context = Context(
    provider: string, tag: string, current: Period, resources: seq<Resource>, series: seq<Series>,
    events: seq<AuditEvent>, advice: seq<Advice>, incomplete: bool, reference: string,
    rules: seq<Knowledge.Rule>, asOf: Day, maxReviewAge: nat, lower: string -> string)

  // ---------------------------------------------------------------- matching

  predicate MatchesAny(value: Option<string>, patterns: seq<string>, lower: string -> string) {
    Present(value) && exists i :: 0 <= i < |patterns| && Contains(lower(value.value), lower(patterns[i]))
  }

  function FindResource(resources: seq<Resource>, id: string): Option<Resource> {
    if resources == [] then None
    else if resources[0].id == id then Some(resources[0]) else FindResource(resources[1..], id)
  }

  function ResourceOf(c: Candidate, ctx: Context): Option<Resource> {
    if Present(c.resourceId) then FindResource(ctx.resources, c.resourceId.value) else None
  }

  predicate HasOwner(c: Candidate, ctx: Context) {
    var resource := ResourceOf(c, ctx);
    var tags := if resource.Some? then c.tags + resource.value.tags else c.tags;
    exists i :: 0 <= i < |OWNER_TAGS| && OWNER_TAGS[i] in tags && tags[OWNER_TAGS[i]] != ""
  }

  function SeriesWith(series: seq<Series>, id: string): seq<Series> {
    if series == [] then []
    else (if series[0].resourceId == id then [series[0]] else []) + SeriesWith(series[1..], id)
  }

  function SeriesFor(c: Candidate, ctx: Context): seq<Series> {
    if Present(c.resourceId) then SeriesWith(ctx.series, c.resourceId.value) else []
  }

  function Named(series: seq<Series>, names: seq<string>, lower: string -> string): seq<Series> {
    if series == [] then []
    else (if MatchesAny(Some(series[0].name), names, lower) then [series[0]] else []) + Named(series[1..], names, lower)
  }

  predicate LowUtilization(spec: Spec, c: Candidate, ctx: Context) {
    var series := SeriesFor(c, ctx);
    exists i :: 0 <= i < |series| && MatchesAny(Some(series[i].name), spec.lowUtilizationMetrics, ctx.lower)
                && series[i].average <= spec.lowUtilizationThreshold
  }

  /** An event counts when it names the candidate's resource; with no resource, any event does. */
  predicate Concerns(e: AuditEvent, spec: Spec, c: Candidate, ctx: Context) {
    && (Present(c.resourceId) ==> c.resourceId.value in e.resourceIds)
    && (spec.auditPatterns != [] ==> MatchesAny(Some(e.name), spec.auditPatterns, ctx.lower))
    && ctx.current.Contains(e.day)
  }

  function Concerning(events: seq<AuditEvent>, spec: Spec, c: Candidate, ctx: Context): seq<AuditEvent> {
    if events == [] then []
    else (if Concerns(events[0], spec, c, ctx) then [events[0]] else []) + Concerning(events[1..], spec, c, ctx)
  }

  predicate NotAfter(a: AuditEvent, b: AuditEvent) { a.time <= b.time }

  function MatchingEvents(spec: Spec, c: Candidate, ctx: Context): seq<AuditEvent> {
    Sort(Concerning(ctx.events, spec, c, ctx), NotAfter)
  }

  predicate MatchesService(spec: Spec, c: Candidate, ctx: Context) {
    MatchesAny(c.service, spec.servicePatterns, ctx.lower) || MatchesAny(c.serviceCategory, spec.servicePatterns, ctx.lower)
  }

  predicate MatchesSku(spec: Spec, c: Candidate, ctx: Context) {
    exists i :: 0 <= i < |c.skus| && MatchesAny(Some(c.skus[i]), spec.skuPatterns, ctx.lower)
  }

  predicate MatchesType(spec: Spec, c: Candidate, ctx: Context) {
    var resource := ResourceOf(c, ctx);
    resource.Some? && MatchesAny(Some(resource.value.kind), spec.resourceTypePatterns, ctx.lower)
  }

  predicate NamesIt(spec: Spec, c: Candidate, ctx: Context) {
    && (spec.servicePatterns != [] ==> MatchesService(spec, c, ctx))
    && (spec.skuPatterns != [] ==> MatchesSku(spec, c, ctx))
    && (spec.resourceTypePatterns != [] ==> MatchesType(spec, c, ctx))
  }

  predicate FitsItsBehaviour(spec: Spec, c: Candidate, ctx: Context) {
    && (spec.requiresNewSpend ==> c.isNew)
    && (spec.requiresRateChange ==> !c.QuantityDriven())
    && (!spec.requiresRateChange && spec.requiresQuantityGrowth ==> c.QuantityDriven())
    && (spec.requiresMissingOwner ==> !HasOwner(c, ctx))
    && (spec.lowUtilizationMetrics != [] ==> LowUtilization(spec, c, ctx))
  }

  /** Every requirement a playbook states holds of the candidate. */
  predicate Applies(spec: Spec, c: Candidate, ctx: Context) {
    NamesIt(spec, c, ctx) && FitsItsBehaviour(spec, c, ctx)
  }

  predicate MetricSeen(spec: Spec, c: Candidate, ctx: Context) {
    var series := SeriesFor(c, ctx);
    exists i :: 0 <= i < |series| && MatchesAny(Some(series[i].name), spec.metricNames, ctx.lower)
  }

  function If(b: bool, points: nat): nat { if b then points else 0 }

  function NamePoints(spec: Spec): nat {
    If(spec.servicePatterns != [], 3) + If(spec.skuPatterns != [], 3) + If(spec.resourceTypePatterns != [], 2)
  }

  function BehaviourPoints(spec: Spec): nat {
    If(spec.requiresNewSpend, 1) + If(spec.requiresRateChange, 3) + If(spec.requiresMissingOwner, 2)
    + If(spec.lowUtilizationMetrics != [], 2)
  }

  function Points(spec: Spec, c: Candidate, ctx: Context): nat {
    NamePoints(spec) + BehaviourPoints(spec)
    + If(spec.metricNames != [] && MetricSeen(spec, c, ctx), 1)
    + If(spec.auditPatterns != [] && MatchingEvents(spec, c, ctx) != [], 2)
  }

  function Score(spec: Spec, c: Candidate, ctx: Context): Option<nat> {
    if spec.isFallback then Some(0) else if Applies(spec, c, ctx) then Some(Points(spec, c, ctx)) else None
  }

  method MatchName(spec: Spec, c: Candidate, ctx: Context) returns (r: Option<nat>)
    ensures r == if NamesIt(spec, c, ctx) then Some(NamePoints(spec)) else None
  {
    var score := 0;
    if spec.servicePatterns != [] {
      if !MatchesService(spec, c, ctx) {
        return None;
      }
      score := score + 3;
    }
    if spec.skuPatterns != [] {
      if !MatchesSku(spec, c, ctx) {
        return None;
      }
      score := score + 3;
    }
    if spec.resourceTypePatterns != [] {
      if !MatchesType(spec, c, ctx) {
        return None;
      }
      score := score + 2;
    }
    return Some(score);
  }

  method MatchBehaviour(spec: Spec, c: Candidate, ctx: Context, score0: nat) returns (r: Option<nat>)
    ensures r == if FitsItsBehaviour(spec, c, ctx) then Some(score0 + BehaviourPoints(spec)) else None
  {
    var score := score0;
    if spec.requiresNewSpend {
      if !c.isNew {
        return None;
      }
      score := score + 1;
    }
    if spec.requiresRateChange {
      if c.QuantityDriven() {
        return None;
      }
      score := score + 3;
    } else if spec.requiresQuantityGrowth && !c.QuantityDriven() {
      return None;
    }
    if spec.requiresMissingOwner {
      if HasOwner(c, ctx) {
        return None;
      }
      score := score + 2;
    }
    if spec.lowUtilizationMetrics != [] {
      if !LowUtilization(spec, c, ctx) {
        return None;
      }
      score := score + 2;
    }
    return Some(score);
  }

  method MatchScore(spec: Spec, c: Candidate, ctx: Context) returns (r: Option<nat>)
    ensures r == Score(spec, c, ctx)
  {
    if spec.isFallback {
      return Some(0);
    }
    var named := MatchName(spec, c, ctx);
    if named.None? {
      return None;
    }
    var fitted := MatchBehaviour(spec, c, ctx, named.value);
    if fitted.None? {
      return None;
    }
    var score := fitted.value;
    if spec.metricNames != [] && MetricSeen(spec, c, ctx) {
      score := score + 1;
    }
    if spec.auditPatterns != [] && MatchingEvents(spec, c, ctx) != [] {
      score := score + 2;
    }
    return Some(score);
  }

  /** The position of the winning playbook, if any applies. */
  predicate Wins(at: Option<nat>, specs: seq<Spec>, c: Candidate, ctx: Context) {
    if at.None? then forall i :: 0 <= i < |specs| ==> Score(specs[i], c, ctx).None?
    else
      && at.value < |specs| && Score(specs[at.value], c, ctx).Some?
      && forall i :: 0 <= i < |specs| && Score(specs[i], c, ctx).Some? ==>
           if i < at.value then Outranks(specs[at.value], specs[i], c, ctx) else !Outranks(specs[i], specs[at.value], c, ctx)
  }

  /** Scores higher, or the same with a smaller priority number. */
  predicate Outranks(a: Spec, b: Spec, c: Candidate, ctx: Context)
    requires Score(a, c, ctx).Some? && Score(b, c, ctx).Some?
  {
    var sa, sb := Score(a, c, ctx).value, Score(b, c, ctx).value;
    sa > sb || (sa == sb && a.priority < b.priority)
  }

  /** The playbook chosen for a candidate: the winner, or the fallback when none applies. */
  ghost predicate WonBy(spec: Spec, specs: seq<Spec>, c: Candidate, ctx: Context) {
    exists at: Option<nat> :: Wins(at, specs, c, ctx) && spec == if at.Some? then specs[at.value] else FALLBACK
  }

  method SelectPlaybook(c: Candidate, specs: seq<Spec>, ctx: Context) returns (spec: Spec)
    ensures WonBy(spec, specs, c, ctx)
  {
    var best: Option<Spec> := None;
    ghost var at: Option<nat> := None;
    for i := 0 to |specs|
      invariant Wins(at, specs[..i], c, ctx) && best.Some? == at.Some?
      invariant best.Some? ==> best.value == specs[at.value]
    {
      assert specs[..i + 1] == specs[..i] + [specs[i]];
      var score := MatchScore(specs[i], c, ctx);
      if score.Some? && (best.None? || Outranks(specs[i], best.value, c, ctx)) {
        best, at := Some(specs[i]), Some(i);
      }
    }
    assert specs[..|specs|] == specs;
    spec := best.GetOr(FALLBACK);
  }

  // ---------------------------------------------------------------- evidence

  /** A piece of evidence before it gets its number: its kind, and whether it was scrubbed. */
  datatype Item = Item(kind: Kind, flagged: bool)

  function Capped<T>(xs: seq<T>, n: nat): seq<T> { if |xs| <= n then xs else xs[..n] }

  function Wanted(spec: Spec, c: Candidate, ctx: Context): seq<Series> {
    var all := SeriesFor(c, ctx);
    var named := if spec.metricNames == [] then all else Named(all, spec.metricNames, ctx.lower);
    if named == [] then all else named
  }

  function AdviceWith(advice: seq<Advice>, id: string): seq<Advice> {
    if advice == [] then []
    else (if advice[0].resourceId == id then [advice[0]] else []) + AdviceWith(advice[1..], id)
  }

  function AdviceFor(c: Candidate, ctx: Context): seq<Advice> {
    if Present(c.resourceId) then AdviceWith(ctx.advice, c.resourceId.value) else []
  }

  /** What the provider's data holds for one candidate, before the caps. */
  datatype Sources = Sources(
    usage: bool, resource: Option<Resource>, series: seq<Series>, events: seq<AuditEvent>, advice: seq<Advice>, late: bool)

  function SourcesOf(c: Candidate, spec: Spec, ctx: Context): Sources {
    Sources(c.currentQuantity > 0.0 || c.baselineQuantity > 0.0, ResourceOf(c, ctx), Wanted(spec, c, ctx),
            MatchingEvents(spec, c, ctx), AdviceFor(c, ctx), ctx.incomplete)
  }

  function CoreItems(src: Sources): seq<Item> {
    [Item(Cost, false)]
    + (if src.usage then [Item(Usage, false)] else [])
    + (if src.resource.Some? then [Item(Inventory, src.resource.value.flagged)] else [])
  }

  function MetricItems(series: seq<Series>): (items: seq<Item>)
    ensures |items| == |series|
  {
    if series == [] then [] else MetricItems(series[..|series| - 1]) + [Item(Metric, false)]
  }

  function AuditItems(events: seq<AuditEvent>): (items: seq<Item>)
    ensures |items| == |events|
  {
    if events == [] then [] else AuditItems(events[..|events| - 1]) + [Item(Audit, events[|events| - 1].flagged)]
  }

  function AdviceItems(advice: seq<Advice>): (items: seq<Item>)
    ensures |items| == |advice|
  {
    if advice == [] then [] else AdviceItems(advice[..|advice| - 1]) + [Item(Recommendation, advice[|advice| - 1].flagged)]
  }

  function Items(src: Sources): seq<Item> {
    CoreItems(src) + MetricItems(Capped(src.series, 3)) + AuditItems(Capped(src.events, 3))
    + AdviceItems(Capped(src.advice, 2)) + LateItems(src.late)
  }

  function LateItems(late: bool): seq<Item> { if late then [Item(Freshness, false)] else [] }

  /** Items numbered onwards from the last number the factory gave out. */
  function Numbered(items: seq<Item>, given: nat, reference: string): (evidence: seq<Evidence>)
    ensures |evidence| == |items|
    ensures forall i :: 0 <= i < |items| ==>
              evidence[i] == Evidence(given + i + 1, items[i].kind, reference, items[i].flagged)
  {
    if items == [] then []
    else
      var init, last := items[..|items| - 1], items[|items| - 1];
      Numbered(init, given, reference) + [Evidence(given + |items|, last.kind, reference, last.flagged)]
  }

  function Gathered(src: Sources, given: nat, reference: string): seq<Evidence> {
    Numbered(Items(src), given, reference)
  }

  lemma {:induction false} NumberedGrows(items: seq<Item>, i: nat, given: nat, reference: string)
    requires i < |items|
    ensures Numbered(items[..i + 1], given, reference)
         == Numbered(items[..i], given, reference) + [Evidence(given + i + 1, items[i].kind, reference, items[i].flagged)]
  {
  }

  /** Hands out numbers and counts them, as one provider run's evidence factory does. */
  class EvidenceFactory {
    var counter: nat

    constructor ()
      ensures counter == 0
    {
      counter := 0;
    }

    method Build(item: Item, reference: string) returns (e: Evidence)
      modifies this
      ensures counter == old(counter) + 1 && e == Evidence(counter, item.kind, reference, item.flagged)
    {
      counter := counter + 1;
      e := Evidence(counter, item.kind, reference, item.flagged);
    }

    method BuildAll(items: seq<Item>, reference: string) returns (evidence: seq<Evidence>)
      modifies this
      ensures counter == old(counter) + |items| && evidence == Numbered(items, old(counter), reference)
    {
      evidence := [];
      for i := 0 to |items|
        invariant counter == old(counter) + i && evidence == Numbered(items[..i], old(counter), reference)
      {
        NumberedGrows(items, i, old(counter), reference);
        var e := Build(items[i], reference);
        evidence := evidence + [e];
      }
      assert items[..|items|] == items;
    }

    method GatherEvidence(c: Candidate, spec: Spec, ctx: Context) returns (evidence: seq<Evidence>)
      modifies this
      ensures evidence == Gathered(SourcesOf(c, spec, ctx), old(counter), ctx.reference)
      ensures counter == old(counter) + |evidence|
    {
      var src := SourcesOf(c, spec, ctx);
      var items := CoreItems(src) + MetricItems(Capped(src.series, 3)) + AuditItems(Capped(src.events, 3));
      items := items + AdviceItems(Capped(src.advice, 2));
      if src.late {
        items := items + [Item(Freshness, false)];
      }
      evidence := BuildAll(items, ctx.reference);
    }
  }

  function Count(evidence: seq<Evidence>, kind: Kind): nat {
    if evidence == [] then 0
    else Count(evidence[..|evidence| - 1], kind) + If(evidence[|evidence| - 1].kind == kind, 1)
  }

  function Kinds(items: seq<Item>, kind: Kind): nat {
    if items == [] then 0 else Kinds(items[..|items| - 1], kind) + If(items[|items| - 1].kind == kind, 1)
  }

  lemma {:induction false} KindsAppend(a: seq<Item>, b: seq<Item>, kind: Kind)
    ensures Kinds(a + b, kind) == Kinds(a, kind) + Kinds(b, kind)
  {
    if b == [] {
      assert a + b == a;
    } else {
      KindsAppend(a, b[..|b| - 1], kind);
      assert (a + b)[..|a + b| - 1] == a + b[..|b| - 1];
    }
  }

  lemma {:induction false} NumberedKinds(items: seq<Item>, given: nat, reference: string, kind: Kind)
    ensures Count(Numbered(items, given, reference), kind) == Kinds(items, kind)
  {
    if items != [] {
      var init, last := items[..|items| - 1], Numbered(items, given, reference)[|items| - 1];
      NumberedKinds(init, given, reference, kind);
      assert Numbered(items, given, reference)[..|items| - 1] == Numbered(init, given, reference);
    }
  }

  predicate AllOf(items: seq<Item>, kind: Kind) { forall i :: 0 <= i < |items| ==> items[i].kind == kind }

  lemma {:induction false} KindsOfAll(items: seq<Item>, own: Kind, kind: Kind)
    requires AllOf(items, own)
    ensures Kinds(items, kind) == If(own == kind, |items|)
  {
    if items != [] {
      KindsOfAll(items[..|items| - 1], own, kind);
    }
  }

  lemma {:induction false} EachOfItsKind(series: seq<Series>, events: seq<AuditEvent>, advice: seq<Advice>)
    ensures AllOf(MetricItems(series), Metric) && AllOf(AuditItems(events), Audit)
    ensures AllOf(AdviceItems(advice), Recommendation)
    decreases |series| + |events| + |advice|
  {
    if series != [] {
      EachOfItsKind(series[..|series| - 1], events, advice);
    } else if events != [] {
      EachOfItsKind(series, events[..|events| - 1], advice);
    } else if advice != [] {
      EachOfItsKind(series, events, advice[..|advice| - 1]);
    }
  }

  lemma {:induction false} CoreKinds(src: Sources, kind: Kind)
    ensures Kinds(CoreItems(src), kind)
         == If(kind == Cost, 1) + If(kind == Usage && src.usage, 1) + If(kind == Inventory && src.resource.Some?, 1)
  {
    var usage := if src.usage then [Item(Usage, false)] else [];
    var inventory := if src.resource.Some? then [Item(Inventory, src.resource.value.flagged)] else [];
    KindsAppend([Item(Cost, false)] + usage, inventory, kind);
    KindsAppend([Item(Cost, false)], usage, kind);
    KindsOfAll([Item(Cost, false)], Cost, kind);
    KindsOfAll(usage, Usage, kind);
    KindsOfAll(inventory, Inventory, kind);
  }

  lemma {:induction false} KindsOfParts(
      core: seq<Item>, series: seq<Series>, events: seq<AuditEvent>, advice: seq<Advice>, late: bool, kind: Kind)
    ensures Kinds(core + MetricItems(series) + AuditItems(events) + AdviceItems(advice) + LateItems(late), kind)
         == Kinds(core, kind) + If(kind == Metric, |series|) + If(kind == Audit, |events|)
            + If(kind == Recommendation, |advice|) + If(kind == Freshness && late, 1)
  {
    var b, c, d, e := MetricItems(series), AuditItems(events), AdviceItems(advice), LateItems(late);
    KindsAppend(core + b + c + d, e, kind);
    KindsAppend(core + b + c, d, kind);
    KindsAppend(core + b, c, kind);
    KindsAppend(core, b, kind);
    EachOfItsKind(series, events, advice);
    KindsOfAll(b, Metric, kind);
    KindsOfAll(c, Audit, kind);
    KindsOfAll(d, Recommendation, kind);
    KindsOfAll(e, Freshness, kind);
  }

  function AtMost(n: nat, cap: nat): nat { if n < cap then n else cap }

  function Expected(src: Sources, kind: Kind): nat {
    match kind
    case Cost => 1
    case Usage => If(src.usage, 1)
    case Inventory => If(src.resource.Some?, 1)
    case Metric => AtMost(|src.series|, 3)
    case Audit => AtMost(|src.events|, 3)
    case Recommendation => AtMost(|src.advice|, 2)
    case Freshness => If(src.late, 1)
    case Other(_) => 0
  }

  lemma {:induction false} CappedLength<T>(xs: seq<T>, n: nat)
    ensures |Capped(xs, n)| == AtMost(|xs|, n)
  {
  }

  lemma {:induction false} ItemsCounts(src: Sources, kind: Kind)
    ensures Kinds(Items(src), kind) == Expected(src, kind)
  {
    CoreKinds(src, kind);
    CappedLength(src.series, 3);
    CappedLength(src.events, 3);
    CappedLength(src.advice, 2);
    KindsOfParts(CoreItems(src), Capped(src.series, 3), Capped(src.events, 3), Capped(src.advice, 2), src.late, kind);
  }

  /** What a gathered list holds of each kind: capped per kind, present exactly when the
      provider's data has it. */
  lemma {:induction false} GatheredCounts(src: Sources, given: nat, reference: string, kind: Kind)
    ensures Count(Gathered(src, given, reference), kind) == Expected(src, kind)
  {
    NumberedKinds(Items(src), given, reference, kind);
    ItemsCounts(src, kind);
  }

  // ---------------------------------------------------------------- confidence

  const FLOOR := 0.16

  function Weights(): (w: seq<(Kind, real)>)
    ensures |w| == 5
  {
    [(Usage, 0.07), (Inventory, 0.05), (Metric, 0.12), (Audit, 0.18), (Recommendation, 0.05)]
  }

  function Separation(c: Candidate): real {
    if c.percentChange.None? then 1.0 else Max(0.0, Min(c.percentChange.value / 300.0, 1.0))
  }

  function RateCoherence(spec: Spec, c: Candidate): real {
    if c.unitBaseline.None? || c.unitBaseline.value == 0.0 || c.unitCurrent.None? then 0.5
    else
      var baseline, current := c.unitBaseline.value, c.unitCurrent.value;
      var drift := Min(Abs(current - baseline) / baseline / 0.25, 1.0);
      if spec.requiresRateChange then drift else 1.0 - drift
  }

  /** The weight of the kinds present, and what further items of a kind add, over the first `n` kinds. */
  function Presence(evidence: seq<Evidence>, n: nat): real
    requires n <= |Weights()|
  {
    if n == 0 then 0.0
    else
      var (kind, weight) := Weights()[n - 1];
      Presence(evidence, n - 1) + (if Count(evidence, kind) > 0 then weight else 0.0)
  }

  function Corroboration(evidence: seq<Evidence>, n: nat): real
    requires n <= |Weights()|
  {
    if n == 0 then 0.0
    else
      var count := Count(evidence, Weights()[n - 1].0);
      Corroboration(evidence, n - 1) + (if count > 0 then 0.025 * (count - 1) as real else 0.0)
  }

  predicate AnyFlagged(evidence: seq<Evidence>) { exists i :: 0 <= i < |evidence| && evidence[i].untrusted }

  function Raw(spec: Spec, evidence: seq<Evidence>, c: Candidate): real {
    FLOOR + Presence(evidence, 5) + Min(Corroboration(evidence, 5), 0.075) + 0.10 * Separation(c)
    + 0.06 * RateCoherence(spec, c)
    - (if Count(evidence, Freshness) > 0 then 0.10 else 0.0) - (if AnyFlagged(evidence) then 0.05 else 0.0)
  }

  function Confidence(spec: Spec, evidence: seq<Evidence>, c: Candidate): real {
    Max(0.05, Min(Raw(spec, evidence, c), spec.maxConfidence))
  }

  function Tallied(counts: map<Kind, nat>, kind: Kind): nat { if kind in counts then counts[kind] else 0 }

  method Tally(evidence: seq<Evidence>) returns (counts: map<Kind, nat>)
    ensures forall kind :: Tallied(counts, kind) == Count(evidence, kind)
    ensures forall kind :: kind in counts ==> counts[kind] > 0
  {
    counts := map[];
    for i := 0 to |evidence|
      invariant forall kind :: Tallied(counts, kind) == Count(evidence[..i], kind)
      invariant forall kind :: kind in counts ==> counts[kind] > 0
    {
      PrefixGrows(evidence, i);
      var kind := evidence[i].kind;
      counts := counts[kind := Tallied(counts, kind) + 1];
    }
    assert evidence[..|evidence|] == evidence;
  }

  method ScoreConfidence(spec: Spec, evidence: seq<Evidence>, c: Candidate) returns (confidence: real)
    ensures confidence == Confidence(spec, evidence, c)
  {
    var counts := Tally(evidence);
    confidence := FLOOR;
    var corroboration := 0.0;
    for i := 0 to |Weights()|
      invariant confidence == FLOOR + Presence(evidence, i) && corroboration == Corroboration(evidence, i)
    {
      var (kind, weight) := Weights()[i];
      var count := Tallied(counts, kind);
      if count != 0 {
        confidence := confidence + weight;
        corroboration := corroboration + 0.025 * (count - 1) as real;
      }
    }
    confidence := confidence + Min(corroboration, 0.075);
    confidence := confidence + 0.10 * Separation(c);
    confidence := confidence + 0.06 * RateCoherence(spec, c);
    assert Freshness in counts <==> Tallied(counts, Freshness) > 0;
    if Freshness in counts {
      confidence := confidence - 0.10;
    }
    if AnyFlagged(evidence) {
      confidence := confidence - 0.05;
    }
    confidence := Max(0.05, Min(confidence, spec.maxConfidence));
  }

  lemma {:induction false} QuotientSign(x: real, y: real)
    requires x >= 0.0 && y != 0.0
    ensures y > 0.0 ==> x / y >= 0.0
    ensures y < 0.0 ==> x / y <= 0.0 && (x > 0.0 ==> x / y < 0.0)
  {
    var q := x / y;
    assert q * y == x;
    if y > 0.0 && q < 0.0 {
      ProductMonotone(q, 0.0, y);
    } else if y < 0.0 && q > 0.0 {
      ProductMonotone(0.0, q, -y);
    }
  }

  predicate NegativeRate(c: Candidate) {
    c.unitBaseline.Some? && c.unitBaseline.value < 0.0 && c.unitCurrent.Some? && c.unitCurrent.value != c.unitBaseline.value
  }

  /** Coherence is a fraction exactly when no unit cost moved away from a negative baseline. */
  lemma {:induction false} CoherenceIsAFraction(spec: Spec, c: Candidate)
    ensures 0.0 <= RateCoherence(spec, c) <= 1.0 <==> !NegativeRate(c)
  {
    if c.unitBaseline.Some? && c.unitBaseline.value != 0.0 && c.unitCurrent.Some? {
      QuotientSign(Abs(c.unitCurrent.value - c.unitBaseline.value), c.unitBaseline.value);
    }
  }

  /** The weight of a kind that is missing is missing from the sum. */
  lemma {:induction false} PresenceBound(evidence: seq<Evidence>)
    ensures var has := (kind: Kind) => Count(evidence, kind) > 0;
            Presence(evidence, 5) == (if has(Usage) then 0.07 else 0.0) + (if has(Inventory) then 0.05 else 0.0)
              + (if has(Metric) then 0.12 else 0.0) + (if has(Audit) then 0.18 else 0.0)
              + (if has(Recommendation) then 0.05 else 0.0)
  {
    assert Presence(evidence, 1) == if Count(evidence, Usage) > 0 then 0.07 else 0.0;
    assert Presence(evidence, 3) == Presence(evidence, 2) + if Count(evidence, Metric) > 0 then 0.12 else 0.0;
  }

  predicate Has(evidence: seq<Evidence>, kind: Kind) { Count(evidence, kind) > 0 }

  /** What the cost movement alone adds to a score. */
  function Movement(spec: Spec, c: Candidate): real { 0.10 * Separation(c) + 0.06 * RateCoherence(spec, c) }

  predicate FullyBacked(evidence: seq<Evidence>) { Has(evidence, Usage) && Has(evidence, Metric) && Has(evidence, Audit) }

  /** No evidence adds more than 0.545, nor more than 0.475 when a decisive kind is missing. */
  lemma {:induction false} RawBound(spec: Spec, evidence: seq<Evidence>, c: Candidate)
    ensures Raw(spec, evidence, c) <= FLOOR + 0.545 + Movement(spec, c)
    ensures !FullyBacked(evidence) ==> Raw(spec, evidence, c) <= FLOOR + 0.475 + Movement(spec, c)
  {
    PresenceBound(evidence);
  }

  /** As much as the caps let through, all of it trusted; with or without a usage record. */
  function Plenty(usage: bool): Sources {
    var series, event := Series("", "", 0.0), AuditEvent("", 0, 0, [], false);
    Sources(usage, Some(Resource("", "", map[], false)), [series, series, series], [event, event, event],
            [Advice("", false)], false)
  }

  lemma {:induction false} NothingFlagged(usage: bool)
    ensures !AnyFlagged(Gathered(Plenty(usage), 0, ""))
  {
    var src := Plenty(usage);
    var series, events, advice := src.series, src.events, src.advice;
    assert MetricItems(series[..0]) == [] && AuditItems(events[..0]) == [] && AdviceItems(advice[..0]) == [];
    assert AdviceItems(advice) == [Item(Recommendation, false)];
    UnflaggedEvents(events);
    UnflaggedSeries(series);
    assert Capped(series, 3) == series && Capped(events, 3) == events && Capped(advice, 2) == advice;
    var items := Items(src);
    assert forall i :: 0 <= i < |items| ==> !items[i].flagged;
  }

  lemma {:induction false} UnflaggedEvents(events: seq<AuditEvent>)
    requires forall i :: 0 <= i < |events| ==> !events[i].flagged
    ensures forall i :: 0 <= i < |events| ==> !AuditItems(events)[i].flagged
  {
    if events != [] {
      UnflaggedEvents(events[..|events| - 1]);
    }
  }

  lemma {:induction false} UnflaggedSeries(series: seq<Series>)
    ensures forall i :: 0 <= i < |series| ==> !MetricItems(series)[i].flagged
  {
    if series != [] {
      UnflaggedSeries(series[..|series| - 1]);
    }
  }

  lemma {:induction false} PlentyCounts(usage: bool)
    ensures var evidence := Gathered(Plenty(usage), 0, "");
            && Count(evidence, Usage) == If(usage, 1) && Count(evidence, Inventory) == 1 && Count(evidence, Metric) == 3
            && Count(evidence, Audit) == 3 && Count(evidence, Recommendation) == 1 && Count(evidence, Freshness) == 0
  {
    GatheredCounts(Plenty(usage), 0, "", Usage);
    GatheredCounts(Plenty(usage), 0, "", Inventory);
    GatheredCounts(Plenty(usage), 0, "", Metric);
    GatheredCounts(Plenty(usage), 0, "", Audit);
    GatheredCounts(Plenty(usage), 0, "", Recommendation);
    GatheredCounts(Plenty(usage), 0, "", Freshness);
  }

  lemma {:induction false} CorroborationSum(evidence: seq<Evidence>)
    requires Count(evidence, Usage) <= 1 && Count(evidence, Inventory) == 1 && Count(evidence, Metric) == 3
    requires Count(evidence, Audit) == 3 && Count(evidence, Recommendation) == 1
    ensures Corroboration(evidence, 5) == 0.1
  {
    assert Corroboration(evidence, 2) == Corroboration(evidence, 1) == 0.0;
    assert Corroboration(evidence, 3) == 0.05;
    assert Corroboration(evidence, 4) == 0.1;
  }

  lemma {:induction false} PlentyScores(spec: Spec, c: Candidate, usage: bool)
    ensures var evidence := Gathered(Plenty(usage), 0, "");
            && Raw(spec, evidence, c) == FLOOR + (if usage then 0.545 else 0.475) + Movement(spec, c)
            && (FullyBacked(evidence) <==> usage)
  {
    var evidence := Gathered(Plenty(usage), 0, "");
    PlentyCounts(usage);
    NothingFlagged(usage);
    CorroborationSum(evidence);
    PresenceBound(evidence);
  }

  predicate BoundedBelow(spec: Spec, c: Candidate) { spec.maxConfidence <= 0.865 || Movement(spec, c) <= 0.16 }

  predicate BackedAbove(spec: Spec, c: Candidate) { spec.maxConfidence < 0.7995 || Movement(spec, c) < 0.1645 }

  lemma {:induction false} ScoreCapped(spec: Spec, evidence: seq<Evidence>, c: Candidate)
    ensures BoundedBelow(spec, c) ==> Confidence(spec, evidence, c) <= 0.865
    ensures BackedAbove(spec, c) && Confidence(spec, evidence, c) >= 0.7995 ==> FullyBacked(evidence)
  {
    RawBound(spec, evidence, c);
  }

  /** What plenty of evidence scores when nothing holds it back; a score of 0.7995 included
      without any usage record. */
  lemma {:induction false} ScoreReached(spec: Spec, c: Candidate)
    ensures !BoundedBelow(spec, c) ==> Confidence(spec, Gathered(Plenty(true), 0, ""), c) > 0.865
    ensures var bare := Gathered(Plenty(false), 0, "");
            !FullyBacked(bare) && (!BackedAbove(spec, c) ==> Confidence(spec, bare, c) >= 0.7995)
  {
    PlentyScores(spec, c, true);
    PlentyScores(spec, c, false);
  }

  /** Main result, exactly: every evidence list scores at most 0.865 if and only if the playbook's
      ceiling says so or the cost movement adds no more than 0.16; and every list that scores
      0.7995 has usage, metric and audit evidence if and only if the ceiling is lower or the
      movement adds less than 0.1645. */
  lemma {:induction false} ScoreBoundIff(spec: Spec, c: Candidate)
    ensures (forall evidence :: Confidence(spec, evidence, c) <= 0.865)
       <==> BoundedBelow(spec, c)
    ensures (forall evidence :: Confidence(spec, evidence, c) >= 0.7995 ==> FullyBacked(evidence))
       <==> BackedAbove(spec, c)
  {
    forall evidence
      ensures BoundedBelow(spec, c) ==> Confidence(spec, evidence, c) <= 0.865
      ensures BackedAbove(spec, c) && Confidence(spec, evidence, c) >= 0.7995 ==> FullyBacked(evidence)
    {
      ScoreCapped(spec, evidence, c);
    }
    ScoreReached(spec, c);
  }

  /** Away from a moved negative rate the cost movement adds at most 0.16. */
  lemma {:induction false} MovementBound(spec: Spec, c: Candidate)
    requires !NegativeRate(c)
    ensures 0.0 <= Movement(spec, c) <= 0.16
  {
    CoherenceIsAFraction(spec, c);
    var coherence := RateCoherence(spec, c);
    assert 0.0 <= 0.06 * coherence <= 0.06;
  }

  /** Main result: then the score stays in [0.05, 0.865], and one of 0.7995 or more has usage,
      metric and audit evidence behind it. */
  lemma {:induction false} ConfidenceBound(spec: Spec, evidence: seq<Evidence>, c: Candidate)
    requires !NegativeRate(c)
    ensures 0.05 <= Confidence(spec, evidence, c) <= 0.865
    ensures Confidence(spec, evidence, c) >= 0.7995 ==> FullyBacked(evidence)
  {
    MovementBound(spec, c);
    ScoreBoundIff(spec, c);
  }

  predicate OnlyCostAndUsage(evidence: seq<Evidence>) {
    forall i :: 0 <= i < |evidence| ==> evidence[i].kind == Cost || evidence[i].kind == Usage
  }

  lemma {:induction false} NothingElse(evidence: seq<Evidence>, kind: Kind)
    requires OnlyCostAndUsage(evidence) && kind != Cost && kind != Usage
    ensures Count(evidence, kind) == 0
  {
    if evidence != [] {
      NothingElse(evidence[..|evidence| - 1], kind);
    }
  }

  lemma {:induction false} NoCorroboration(evidence: seq<Evidence>)
    requires OnlyCostAndUsage(evidence) && Count(evidence, Usage) <= 1
    ensures Corroboration(evidence, 5) == 0.0
    ensures Presence(evidence, 5) == if Has(evidence, Usage) then 0.07 else 0.0
  {
    NothingElse(evidence, Inventory);
    NothingElse(evidence, Metric);
    NothingElse(evidence, Audit);
    NothingElse(evidence, Recommendation);
    assert Corroboration(evidence, 2) == Corroboration(evidence, 1) == 0.0;
    assert Corroboration(evidence, 4) == Corroboration(evidence, 3) == 0.0;
    PresenceBound(evidence);
  }

  lemma {:induction false} LowScore(spec: Spec, evidence: seq<Evidence>, c: Candidate)
    requires 0.0 <= RateCoherence(spec, c) <= 1.0
    requires Presence(evidence, 5) <= 0.07 && Corroboration(evidence, 5) == 0.0
    ensures Confidence(spec, evidence, c) <= 0.39
  {
    assert 0.0 <= Separation(c) <= 1.0;
    var coherence := RateCoherence(spec, c);
    assert 0.06 * coherence <= 0.06;
    assert Raw(spec, evidence, c) <= FLOOR + 0.07 + 0.10 + 0.06;
  }

  /** Main result: a gathered list holding cost and usage only scores at most 0.39. */
  lemma {:induction false} CostAloneStaysLow(spec: Spec, c: Candidate, src: Sources, given: nat, reference: string)
    requires !NegativeRate(c) && OnlyCostAndUsage(Gathered(src, given, reference))
    ensures Confidence(spec, Gathered(src, given, reference), c) <= 0.39
  {
    CoherenceIsAFraction(spec, c);
    GatheredCounts(src, given, reference, Usage);
    NoCorroboration(Gathered(src, given, reference));
    LowScore(spec, Gathered(src, given, reference), c);
  }

  /** The bound needs its hypothesis: one negative baseline rate lifts bare evidence to the ceiling. */
  lemma {:induction false} NegativeRateReachesTheCeiling(spec: Spec, c: Candidate)
    requires spec.maxConfidence == 0.92 && !spec.requiresRateChange && c.percentChange.None?
    requires c.unitBaseline == Some(-1.0) && c.unitCurrent == Some(4.0)
    ensures Confidence(spec, [Evidence(1, Cost, "q", false)], c) == 0.92
  {
    var evidence := [Evidence(1, Cost, "q", false)];
    assert Abs(4.0 - -1.0) / -1.0 / 0.25 == -20.0;
    assert RateCoherence(spec, c) == 21.0;
    assert evidence[..0] == [] && Count(evidence, Usage) == 0;
    NoCorroboration(evidence);
  }

  // ---------------------------------------------------------------- building a finding

  function RuleDate(c: Candidate, ctx: Context): Day { c.firstSpike.GetOr(ctx.current.last) }

  function RuleQuery(c: Candidate, spec: Spec, ctx: Context): Knowledge.Query {
    Knowledge.Query(ctx.provider, spec.ruleType, c.service, Some(spec.category), ctx.lower)
  }

  function RuleFor(c: Candidate, spec: Spec, ctx: Context): Knowledge.Answer {
    Knowledge.Select(ctx.rules, RuleQuery(c, spec, ctx), Some(RuleDate(c, ctx)))
  }

  function RuleWarnings(c: Candidate, spec: Spec, ctx: Context): seq<Warning> {
    Knowledge.Warnings(ctx.rules, RuleQuery(c, spec, ctx), RuleDate(c, ctx), ctx.asOf, ctx.maxReviewAge)
  }

  function Citations(answer: Knowledge.Answer, c: Candidate, ctx: Context): seq<Citation> {
    if answer.Found? then [Knowledge.Cite(answer.rule, Some(RuleDate(c, ctx)), ctx.asOf, ctx.maxReviewAge)] else []
  }

  /** The unit rate moved rather than the usage, and the playbook is not about that. */
  predicate RateMoved(c: Candidate, spec: Spec) { !c.QuantityDriven() && spec.category != "pricing_change" }

  /** What the cited rule and the rate behaviour leave of a score. */
  function RuleCapped(score: real, answer: Knowledge.Answer, c: Candidate, spec: Spec, ctx: Context): real {
    var stale := answer.Found? && Knowledge.IsStale(answer.rule, ctx.asOf, ctx.maxReviewAge);
    var ruled := CapIf(CapIf(score, answer.NotFound?, 0.45), answer.Found? && (stale || answer.undated), 0.6);
    CapIf(ruled, RateMoved(c, spec), 0.7)
  }

  function Digits(n: nat): string { if n < 10 then [(n as char) + '0'] else Digits(n / 10) + Digits(n % 10) }

  function FindingId(tag: string, index: nat): string { tag + "-F" + (if index < 10 then "0" else "") + Digits(index) }

  datatype Prose = Prose(rootCause: string, recommendation: string)

  const DAYS_PER_MONTH := 30.4

  function MonthlyImpact(c: Candidate, ctx: Context): real {
    Cents(c.change / Max(ctx.current.Days() as real, 1.0) * DAYS_PER_MONTH)
  }

  function BuiltWarnings(c: Candidate, spec: Spec, ctx: Context): seq<Warning> {
    RuleWarnings(c, spec, ctx)
    + (if RuleFor(c, spec, ctx).NotFound? then [Provisional] else [])
    + (if RateMoved(c, spec) then [RateMayExplain] else [])
    + (if ctx.incomplete then [IncompleteData] else [])
  }

  function Built(c: Candidate, spec: Spec, ctx: Context, index: nat, evidence: seq<Evidence>, prose: Prose, mode: Mode): Finding {
    var answer := RuleFor(c, spec, ctx);
    var score := RuleCapped(Confidence(spec, evidence, c), answer, c, spec, ctx);
    Finding(FindingId(ctx.tag, index), ctx.provider, spec.category, prose.rootCause,
            if Present(c.resourceId) then [c.resourceId.value] else [], evidence,
            Thousandths(Min(Max(score, 0.0), 1.0)), Cents(c.change), MonthlyImpact(c, ctx), prose.recommendation,
            spec.risk, Some(c.id), c.service, c.region, Citations(answer, c, ctx),
            spec.isFallback || RuleUncertain(answer, ctx) || ctx.incomplete, BuiltWarnings(c, spec, ctx), mode, true)
  }

  predicate RuleUncertain(answer: Knowledge.Answer, ctx: Context) {
    answer.NotFound? || Knowledge.IsStale(answer.rule, ctx.asOf, ctx.maxReviewAge) || answer.undated
  }

  /** Lowers a score and gathers the warnings, case by case. */
  method Qualify(score: real, answer: Knowledge.Answer, c: Candidate, spec: Spec, ctx: Context)
    returns (confidence: real, uncertain: bool, warnings: seq<Warning>)
    requires answer == RuleFor(c, spec, ctx)
    ensures confidence == RuleCapped(score, answer, c, spec, ctx)
    ensures uncertain == (spec.isFallback || RuleUncertain(answer, ctx) || ctx.incomplete)
    ensures warnings == BuiltWarnings(c, spec, ctx)
  {
    confidence, uncertain := score, spec.isFallback;
    warnings := RuleWarnings(c, spec, ctx);
    if answer.NotFound? {
      confidence, uncertain := Min(confidence, 0.45), true;
      warnings := warnings + [Provisional];
    } else if Knowledge.IsStale(answer.rule, ctx.asOf, ctx.maxReviewAge) {
      confidence, uncertain := Min(confidence, 0.6), true;
    } else if answer.undated {
      confidence, uncertain := Min(confidence, 0.6), true;
    }
    if !c.QuantityDriven() && spec.category != "pricing_change" {
      warnings := warnings + [RateMayExplain];
      confidence := Min(confidence, 0.7);
    }
    if ctx.incomplete {
      uncertain := true;
      warnings := warnings + [IncompleteData];
    }
  }

  /** The investigation's citations with these added, each rule once. */
  function Noted(citations: seq<Citation>, more: seq<Citation>): seq<Citation> {
    if more == [] then citations
    else
      var before, c := Noted(citations, more[..|more| - 1]), more[|more| - 1];
      if Cites(before, c.ruleId) then before else before + [c]
  }

  predicate Cites(citations: seq<Citation>, rule: string) { exists i :: 0 <= i < |citations| && citations[i].ruleId == rule }

  predicate CitedOnce(citations: seq<Citation>) {
    forall i, j :: 0 <= i < j < |citations| ==> citations[i].ruleId != citations[j].ruleId
  }

  /** Noting keeps what was noted, in place, covers every rule, and repeats none. */
  lemma {:induction false} NotedProperties(citations: seq<Citation>, more: seq<Citation>)
    ensures citations <= Noted(citations, more)
    ensures forall i :: 0 <= i < |more| ==> Cites(Noted(citations, more), more[i].ruleId)
    ensures CitedOnce(citations) ==> CitedOnce(Noted(citations, more))
  {
    if more != [] {
      var init, c := more[..|more| - 1], more[|more| - 1];
      var before, after := Noted(citations, init), Noted(citations, more);
      NotedProperties(citations, init);
      assert Cites(after, c.ruleId) by {
        assert !Cites(before, c.ruleId) ==> after[|before|] == c;
      }
      forall i | 0 <= i < |init|
        ensures Cites(after, more[i].ruleId)
      {
        assert Cites(before, init[i].ruleId);
        var j :| 0 <= j < |before| && before[j].ruleId == init[i].ruleId;
        assert after[j] == before[j];
      }
    }
  }

  method BuildFinding(
      c: Candidate, spec: Spec, ctx: Context, index: nat, evidence: seq<Evidence>, prose: Prose, mode: Mode, citations: seq<Citation>)
    returns (f: Finding, noted: seq<Citation>)
    ensures f == Built(c, spec, ctx, index, evidence, prose, mode)
    ensures noted == Noted(citations, f.rules)
  {
    var answer := RuleFor(c, spec, ctx);
    var score := ScoreConfidence(spec, evidence, c);
    var confidence, uncertain, warnings := Qualify(score, answer, c, spec, ctx);
    f := Finding(FindingId(ctx.tag, index), ctx.provider, spec.category, prose.rootCause,
                 if Present(c.resourceId) then [c.resourceId.value] else [], evidence,
                 Thousandths(Min(Max(confidence, 0.0), 1.0)), Cents(c.change), MonthlyImpact(c, ctx),
                 prose.recommendation, spec.risk, Some(c.id), c.service, c.region, Citations(answer, c, ctx),
                 uncertain, warnings, mode, true);
    noted := NoteAll(citations, f.rules);
  }

  method NoteAll(citations: seq<Citation>, more: seq<Citation>) returns (noted: seq<Citation>)
    ensures noted == Noted(citations, more)
  {
    noted := citations;
    for i := 0 to |more|
      invariant noted == Noted(citations, more[..i])
    {
      PrefixGrows(more, i);
      if !Cites(noted, more[i].ruleId) {
        noted := noted + [more[i]];
      }
    }
    assert more[..|more|] == more;
  }

  lemma {:induction false} CountsWithinLength(evidence: seq<Evidence>, a: Kind, b: Kind, c: Kind)
    requires a != b && b != c && a != c
    ensures Count(evidence, a) + Count(evidence, b) + Count(evidence, c) <= |evidence|
  {
    if evidence != [] {
      CountsWithinLength(evidence[..|evidence| - 1], a, b, c);
    }
  }

  lemma {:induction false} CountedIsThere(evidence: seq<Evidence>, kind: Kind)
    ensures Has(evidence, kind) <==> exists i :: 0 <= i < |evidence| && evidence[i].kind == kind
  {
    if evidence != [] {
      var init := evidence[..|evidence| - 1];
      CountedIsThere(init, kind);
      assert forall i :: 0 <= i < |init| ==> init[i] == evidence[i];
      assert evidence[|evidence| - 1].kind == kind ==> Has(evidence, kind);
    }
  }

  lemma {:induction false} RuleCapsBound(score: real, answer: Knowledge.Answer, c: Candidate, spec: Spec, ctx: Context)
    requires score >= 0.0
    ensures 0.0 <= RuleCapped(score, answer, c, spec, ctx) <= score
    ensures answer.NotFound? ==> RuleCapped(score, answer, c, spec, ctx) <= 0.45
    ensures RuleUncertain(answer, ctx) ==> RuleCapped(score, answer, c, spec, ctx) <= 0.6
  {
  }

  lemma {:induction false} StoredConfidence(score: real, cap: int)
    requires 0.0 <= score <= cap as real / 1000.0 <= 1.0
    ensures Thousandths(Min(Max(score, 0.0), 1.0)) <= cap as real / 1000.0
  {
    ThousandthsMonotone(score, cap as real / 1000.0);
    ThousandthsOf(cap);
  }

  /** Main result: a built finding that reaches 0.8, even by rounding, has usage, metric and
      audit evidence, so the gate's corroboration rule never fires on one. */
  lemma {:induction false} HighConfidenceIsCorroborated(c: Candidate, spec: Spec, ctx: Context, index: nat, evidence: seq<Evidence>, prose: Prose, mode: Mode)
    requires !NegativeRate(c)
    ensures var f := Built(c, spec, ctx, index, evidence, prose, mode);
            f.confidence >= Validation.HIGH_CONFIDENCE ==>
              Has(evidence, Usage) && Has(evidence, Metric) && Has(evidence, Audit) && Validation.Corroborated(f.evidence)
  {
    ConfidenceBound(spec, evidence, c);
    var score := Confidence(spec, evidence, c);
    var capped := RuleCapped(score, RuleFor(c, spec, ctx), c, spec, ctx);
    RuleCapsBound(score, RuleFor(c, spec, ctx), c, spec, ctx);
    ReachesHigh(capped);
    if capped >= 0.7995 {
      CountsWithinLength(evidence, Usage, Metric, Audit);
      CountedIsThere(evidence, Metric);
    }
  }

  lemma {:induction false} CitationIsCurrent(c: Candidate, spec: Spec, ctx: Context)
    ensures var answer := RuleFor(c, spec, ctx);
            answer.Found? ==>
              var cited := Knowledge.Cite(answer.rule, Some(RuleDate(c, ctx)), ctx.asOf, ctx.maxReviewAge);
              !Validation.Retroactive(cited) && (Validation.Doubtful(cited) <==> RuleUncertain(answer, ctx))
  {
    Knowledge.SelectionMeans(
      ctx.rules, Knowledge.Query(ctx.provider, spec.ruleType, c.service, Some(spec.category), ctx.lower), RuleDate(c, ctx));
  }

  /** Main result: the gate agrees with the derivation. It never drops a built finding, and
      it lowers one only for an unsupported resource or a provider that cannot show a cause. */
  lemma {:induction false} DerivationAgreesWithTheGate(
      c: Candidate, spec: Spec, ctx: Context, index: nat, evidence: seq<Evidence>, prose: Prose, mode: Mode, k: Validation.Known)
    requires !NegativeRate(c) && evidence != []
    ensures var f := Built(c, spec, ctx, index, evidence, prose, mode);
            && !Validation.Droppable(f)
            && Validation.GatedConfidence(f, k)
               == CapIf(CapIf(f.confidence, Validation.ClaimsUnsupported(f, k), 0.4), Validation.NoCauseSources(f.provider, k), 0.4)
  {
    var f, answer := Built(c, spec, ctx, index, evidence, prose, mode), RuleFor(c, spec, ctx);
    var score := Confidence(spec, evidence, c);
    var capped := RuleCapped(score, answer, c, spec, ctx);
    ConfidenceBound(spec, evidence, c);
    RuleCapsBound(score, answer, c, spec, ctx);
    CitationIsCurrent(c, spec, ctx);
    HighConfidenceIsCorroborated(c, spec, ctx, index, evidence, prose, mode);
    if answer.NotFound? {
      StoredConfidence(capped, 450);
    } else if RuleUncertain(answer, ctx) {
      StoredConfidence(capped, 600);
    }
  }

  /** Nothing is held back in silence: a finding scored below its evidence, or doubtful for
      any reason but its fallback playbook, carries a warning. */
  lemma {:induction false} EveryDoubtIsExplained(c: Candidate, spec: Spec, ctx: Context, index: nat, evidence: seq<Evidence>, prose: Prose, mode: Mode)
    ensures var f, score := Built(c, spec, ctx, index, evidence, prose, mode), Confidence(spec, evidence, c);
            (f.confidence != Thousandths(Min(Max(score, 0.0), 1.0)) || (f.uncertain && !spec.isFallback)) ==> f.warnings != []
  {
    var answer := RuleFor(c, spec, ctx);
    if RuleUncertain(answer, ctx) {
      assert RuleWarnings(c, spec, ctx) != [];
    } else if RateMoved(c, spec) {
      assert RateMayExplain in BuiltWarnings(c, spec, ctx);
    } else if ctx.incomplete {
      assert IncompleteData in BuiltWarnings(c, spec, ctx);
    }
  }

  /** A built finding's amount passes the gate untouched when its candidate is the one compared. */
  lemma {:induction false} BuiltAmountPassesTheGate(
      c: Candidate, spec: Spec, ctx: Context, index: nat, evidence: seq<Evidence>, prose: Prose, mode: Mode, k: Validation.Known)
    requires c.id in k.changes && k.changes[c.id] == c.change
    ensures var f := Built(c, spec, ctx, index, evidence, prose, mode);
            !Validation.Mismatched(f, k) && Validation.Gated(f, k).increase == Cents(c.change)
  {
    CentsAreNear(c.change);
  }
}
