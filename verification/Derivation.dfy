/**
 What derived numbers are worth: each piece of evidence, the cost movement, each requirement of a
 playbook, and what a finding built from them says.
 */
module Derivation {
  import opened Common
  import opened Maths
  import opened Strings
  import opened Findings
  import opened Sorting
  import opened Playbooks
  import Knowledge

  // ---------------------------------------------------------------- a piece of evidence

  function FirstPieceWorth(kind: Kind): real {
    match kind
    case Usage => 0.07
    case Inventory => 0.05
    case Metric => 0.12
    case Audit => 0.18
    case Recommendation => 0.05
    case Freshness => -0.10
    case Cost => 0.0
    case Other(_) => 0.0
  }

  predicate Counted(kind: Kind) { kind in {Usage, Inventory, Metric, Audit, Recommendation} }

  lemma {:induction false} CountLast(evidence: seq<Evidence>, e: Evidence, kind: Kind)
    ensures Count(evidence + [e], kind) == Count(evidence, kind) + (if e.kind == kind then 1 else 0)
  {
    assert (evidence + [e])[..|evidence|] == evidence;
  }

  lemma {:induction false} CountsLast(evidence: seq<Evidence>, e: Evidence)
    ensures forall kind :: Count(evidence + [e], kind) == Count(evidence, kind) + (if e.kind == kind then 1 else 0)
  {
    forall kind
      ensures Count(evidence + [e], kind) == Count(evidence, kind) + (if e.kind == kind then 1 else 0)
    {
      CountLast(evidence, e, kind);
    }
  }

  /** What `n` pieces of one kind add beyond the first. */
  function Further(n: nat): real { if n > 0 then 0.025 * (n - 1) as real else 0.0 }

  lemma {:induction false} CorroborationMeans(evidence: seq<Evidence>)
    ensures Corroboration(evidence, 5)
         == Further(Count(evidence, Usage)) + Further(Count(evidence, Inventory)) + Further(Count(evidence, Metric))
            + Further(Count(evidence, Audit)) + Further(Count(evidence, Recommendation))
  {
    assert Corroboration(evidence, 1) == Further(Count(evidence, Usage));
    assert Corroboration(evidence, 2) == Corroboration(evidence, 1) + Further(Count(evidence, Inventory));
    assert Corroboration(evidence, 3) == Corroboration(evidence, 2) + Further(Count(evidence, Metric));
    assert Corroboration(evidence, 4) == Corroboration(evidence, 3) + Further(Count(evidence, Audit));
  }

  lemma {:induction false} FlaggedLast(evidence: seq<Evidence>, e: Evidence)
    ensures AnyFlagged(evidence + [e]) <==> AnyFlagged(evidence) || e.untrusted
  {
    var more := evidence + [e];
    assert more[|evidence|] == e;
    assert forall i :: 0 <= i < |evidence| ==> more[i] == evidence[i];
  }

  /** A score before its bounds, by what is known of the evidence. */
  lemma {:induction false} RawOfParts(spec: Spec, evidence: seq<Evidence>, c: Candidate)
    ensures Raw(spec, evidence, c)
         == 0.16 + Presence(evidence, 5) + Min(Corroboration(evidence, 5), 0.075) + Movement(spec, c)
            - (if Count(evidence, Freshness) > 0 then 0.10 else 0.0) - (if AnyFlagged(evidence) then 0.05 else 0.0)
  {
  }

  lemma {:induction false} PresenceLast(evidence: seq<Evidence>, e: Evidence)
    ensures Presence(evidence + [e], 5) - Presence(evidence, 5)
         == if Counted(e.kind) && Count(evidence, e.kind) == 0 then FirstPieceWorth(e.kind) else 0.0
  {
    CountsLast(evidence, e);
    PresenceBound(evidence);
    PresenceBound(evidence + [e]);
  }

  lemma {:induction false} FurtherGrows(n: nat, m: nat, one: bool)
    requires m == n + (if one then 1 else 0)
    ensures Further(m) - Further(n) == if one && n > 0 then 0.025 else 0.0
  {
  }

  lemma {:induction false} CorroborationLast(evidence: seq<Evidence>, e: Evidence)
    ensures Corroboration(evidence + [e], 5) - Corroboration(evidence, 5)
         == if Counted(e.kind) && Count(evidence, e.kind) > 0 then 0.025 else 0.0
  {
    var more := evidence + [e];
    CountsLast(evidence, e);
    CorroborationMeans(evidence);
    CorroborationMeans(more);
    FurtherGrows(Count(evidence, Usage), Count(more, Usage), e.kind == Usage);
    FurtherGrows(Count(evidence, Inventory), Count(more, Inventory), e.kind == Inventory);
    FurtherGrows(Count(evidence, Metric), Count(more, Metric), e.kind == Metric);
    FurtherGrows(Count(evidence, Audit), Count(more, Audit), e.kind == Audit);
    FurtherGrows(Count(evidence, Recommendation), Count(more, Recommendation), e.kind == Recommendation);
  }

  /** Main result: what one more trusted piece of evidence is worth. The first of its kind is worth
      the kind's weight, a note on freshness costs a tenth once; a further piece of a counted kind
      is worth 0.025 until such pieces have added 0.075; and nothing else changes a score. An
      untrusted piece costs 0.05 besides, the first time. */
  lemma {:induction false} PieceIsWorth(spec: Spec, evidence: seq<Evidence>, e: Evidence, c: Candidate)
    ensures var gain := Raw(spec, evidence + [e], c) - Raw(spec, evidence, c)
                        + (if e.untrusted && !AnyFlagged(evidence) then 0.05 else 0.0);
            if Count(evidence, e.kind) == 0 then gain == FirstPieceWorth(e.kind)
            else if Counted(e.kind) then gain == Min(Corroboration(evidence, 5) + 0.025, 0.075) - Min(Corroboration(evidence, 5), 0.075)
            else gain == 0.0
  {
    RawOfParts(spec, evidence, c);
    RawOfParts(spec, evidence + [e], c);
    PresenceLast(evidence, e);
    CorroborationLast(evidence, e);
    FlaggedLast(evidence, e);
    CountLast(evidence, e, Freshness);
  }

  /** Without evidence a score is its floor and the cost movement; and every score is kept between
      0.05 and the playbook's ceiling. */
  lemma {:induction false} ScoreBounds(spec: Spec, evidence: seq<Evidence>, c: Candidate)
    ensures Raw(spec, [], c) == 0.16 + Movement(spec, c)
    ensures Confidence(spec, evidence, c) == Max(0.05, Min(Raw(spec, evidence, c), spec.maxConfidence))
  {
    CorroborationMeans([]);
    PresenceBound([]);
  }

  // ---------------------------------------------------------------- the cost movement

  /** How far a unit cost moved from a positive baseline, a quarter of it counting as all the way. */
  predicate IsDrift(drift: real, baseline: real, current: real) {
    && 0.0 <= drift <= 1.0
    && (4.0 * Abs(current - baseline) >= baseline ==> drift == 1.0)
    && (4.0 * Abs(current - baseline) < baseline ==> drift * baseline == 4.0 * Abs(current - baseline))
  }

  lemma {:induction false} DriftMeans(baseline: real, current: real)
    requires baseline > 0.0
    ensures IsDrift(Min(Abs(current - baseline) / baseline / 0.25, 1.0), baseline, current)
  {
    var off := Abs(current - baseline);
    var q := off / baseline;
    assert q * baseline == off;
    QuotientSign(off, baseline);
    assert q / 0.25 == 4.0 * q;
    if 4.0 * off >= baseline {
      AtLeastQuarter(q, off, baseline);
    } else {
      UnderQuarter(q, off, baseline);
    }
  }

  lemma {:induction false} AtLeastQuarter(q: real, off: real, baseline: real)
    requires baseline > 0.0 && q * baseline == off && 4.0 * off >= baseline
    ensures 4.0 * q >= 1.0
  {
    assert 4.0 * q * baseline == 4.0 * off;
    ProductCancel(4.0 * q, 1.0, baseline);
  }

  lemma {:induction false} UnderQuarter(q: real, off: real, baseline: real)
    requires baseline > 0.0 && q * baseline == off && 4.0 * off < baseline
    ensures 4.0 * q < 1.0 && 4.0 * q * baseline == 4.0 * off
  {
    if 4.0 * q >= 1.0 {
      ProductMonotone(1.0, 4.0 * q, baseline);
    }
  }

  /** Main result: the movement is worth up to 0.10 for standing out, all of it from 300% on or
      against no expectation, and up to 0.06 for a unit rate that fits the playbook: one that moved
      for a playbook about rates, one that stayed for any other, and half where it is unknown. */
  lemma {:induction false} MovementMeans(spec: Spec, c: Candidate)
    ensures var standing := Movement(spec, c) - 0.06 * RateCoherence(spec, c);
            && (c.percentChange.None? || c.percentChange.value >= 300.0 ==> standing == 0.10)
            && (c.percentChange.Some? && c.percentChange.value <= 0.0 ==> standing == 0.0)
            && (c.percentChange.Some? && 0.0 <= c.percentChange.value <= 300.0 ==> 3000.0 * standing == c.percentChange.value)
    ensures c.unitBaseline.None? || c.unitCurrent.None? || c.unitBaseline.value == 0.0 ==> RateCoherence(spec, c) == 0.5
    ensures c.unitBaseline.Some? && c.unitCurrent.Some? && c.unitBaseline.value > 0.0 ==>
              IsDrift(if spec.requiresRateChange then RateCoherence(spec, c) else 1.0 - RateCoherence(spec, c),
                      c.unitBaseline.value, c.unitCurrent.value)
  {
    if c.unitBaseline.Some? && c.unitCurrent.Some? && c.unitBaseline.value > 0.0 {
      DriftMeans(c.unitBaseline.value, c.unitCurrent.value);
    }
  }

  // ---------------------------------------------------------------- the requirements of a playbook

  /** Some pattern is part of the value, folded. */
  predicate Hits(value: string, patterns: seq<string>, lower: string -> string) {
    value != "" && exists i :: 0 <= i < |patterns| && Contains(lower(value), lower(patterns[i]))
  }

  /** The candidate's resource is the first the inventory has under its id; without an id there is none. */
  lemma {:induction false} ResourceMeans(c: Candidate, ctx: Context, i: nat)
    requires i <= |ctx.resources| && forall j :: 0 <= j < i ==> Some(ctx.resources[j].id) != c.resourceId
    ensures c.resourceId.None? || c.resourceId.value == "" ==> ResourceOf(c, ctx).None?
    ensures i == |ctx.resources| ==> ResourceOf(c, ctx).None?
    ensures i < |ctx.resources| && Some(ctx.resources[i].id) == c.resourceId && ctx.resources[i].id != "" ==>
              ResourceOf(c, ctx) == Some(ctx.resources[i])
  {
    if Present(c.resourceId) {
      FindResourceMeans(ctx.resources, c.resourceId.value, i);
    }
  }

  lemma {:induction false} FindResourceMeans(resources: seq<Resource>, id: string, i: nat)
    requires i <= |resources| && forall j :: 0 <= j < i ==> resources[j].id != id
    ensures i == |resources| ==> FindResource(resources, id).None?
    ensures i < |resources| && resources[i].id == id ==> FindResource(resources, id) == Some(resources[i])
  {
    if i > 0 {
      assert forall j :: 0 < j < |resources| ==> resources[j] == resources[1..][j - 1];
      FindResourceMeans(resources[1..], id, i - 1);
    }
  }

  lemma {:induction false} SeriesMeans(series: seq<Series>, id: string)
    ensures forall s :: s in SeriesWith(series, id) <==> s in series && s.resourceId == id
  {
    if series != [] {
      SeriesMeans(series[1..], id);
    }
  }

  /** A metric of the candidate's resource. */
  predicate OwnSeries(s: Series, c: Candidate, ctx: Context) {
    s in ctx.series && c.resourceId.Some? && c.resourceId.value != "" && s.resourceId == c.resourceId.value
  }

  lemma {:induction false} SeriesForMeans(c: Candidate, ctx: Context)
    ensures forall s :: s in SeriesFor(c, ctx) <==> OwnSeries(s, c, ctx)
  {
    if Present(c.resourceId) {
      SeriesMeans(ctx.series, c.resourceId.value);
    }
  }

  predicate GrewInUse(c: Candidate) { c.quantityPercent.None? || c.quantityPercent.value >= 10.0 }

  ghost predicate Idle(spec: Spec, c: Candidate, ctx: Context) {
    exists s :: s in ctx.series && OwnSeries(s, c, ctx) && Hits(s.name, spec.lowUtilizationMetrics, ctx.lower)
                && s.average <= spec.lowUtilizationThreshold
  }

  /** Nobody is named by the tags of the candidate or, where the inventory has it, its resource. */
  predicate Unowned(c: Candidate, ctx: Context) {
    var tags := if ResourceOf(c, ctx).Some? then c.tags + ResourceOf(c, ctx).value.tags else c.tags;
    forall key :: key in {"owner", "Owner", "team", "Team", "cost-center", "costCenter"} ==> key !in tags || tags[key] == ""
  }

  predicate OfService(spec: Spec, c: Candidate, ctx: Context) {
    || (c.service.Some? && Hits(c.service.value, spec.servicePatterns, ctx.lower))
    || (c.serviceCategory.Some? && Hits(c.serviceCategory.value, spec.servicePatterns, ctx.lower))
  }

  predicate OfSku(spec: Spec, c: Candidate, ctx: Context) {
    exists i :: 0 <= i < |c.skus| && Hits(c.skus[i], spec.skuPatterns, ctx.lower)
  }

  predicate OfKind(spec: Spec, c: Candidate, ctx: Context) {
    ResourceOf(c, ctx).Some? && Hits(ResourceOf(c, ctx).value.kind, spec.resourceTypePatterns, ctx.lower)
  }

  /** All that a playbook asks of a candidate. */
  ghost predicate Meets(spec: Spec, c: Candidate, ctx: Context) {
    && (|spec.servicePatterns| > 0 ==> OfService(spec, c, ctx)) && (|spec.skuPatterns| > 0 ==> OfSku(spec, c, ctx))
    && (|spec.resourceTypePatterns| > 0 ==> OfKind(spec, c, ctx)) && (spec.requiresNewSpend ==> c.isNew)
    && (spec.requiresRateChange ==> !GrewInUse(c))
    && (spec.requiresQuantityGrowth && !spec.requiresRateChange ==> GrewInUse(c))
    && (spec.requiresMissingOwner ==> Unowned(c, ctx)) && (|spec.lowUtilizationMetrics| > 0 ==> Idle(spec, c, ctx))
  }

  lemma {:induction false} OwnerMeans(c: Candidate, ctx: Context)
    ensures HasOwner(c, ctx) == !Unowned(c, ctx)
  {
    assert OWNER_TAGS[0] == "owner" && OWNER_TAGS[1] == "Owner" && OWNER_TAGS[2] == "team" && OWNER_TAGS[3] == "Team"
        && OWNER_TAGS[4] == "cost-center" && OWNER_TAGS[5] == "costCenter" && |OWNER_TAGS| == 6;
  }

  lemma {:induction false} IdleMeans(spec: Spec, c: Candidate, ctx: Context)
    ensures LowUtilization(spec, c, ctx) == Idle(spec, c, ctx)
  {
    SeriesForMeans(c, ctx);
    var series := SeriesFor(c, ctx);
    if Idle(spec, c, ctx) {
      var s :| s in ctx.series && OwnSeries(s, c, ctx) && Hits(s.name, spec.lowUtilizationMetrics, ctx.lower)
               && s.average <= spec.lowUtilizationThreshold;
      var i :| 0 <= i < |series| && series[i] == s;
    }
    if LowUtilization(spec, c, ctx) {
      var i :| 0 <= i < |series| && MatchesAny(Some(series[i].name), spec.lowUtilizationMetrics, ctx.lower)
               && series[i].average <= spec.lowUtilizationThreshold;
      assert series[i] in series;
    }
  }

  lemma {:induction false} NamesMean(spec: Spec, c: Candidate, ctx: Context)
    ensures MatchesService(spec, c, ctx) == OfService(spec, c, ctx)
    ensures MatchesSku(spec, c, ctx) == OfSku(spec, c, ctx) && MatchesType(spec, c, ctx) == OfKind(spec, c, ctx)
  {
  }

  /** Main result: a playbook applies, and so scores, exactly when the candidate meets all it asks;
      the fallback applies to everything and scores nothing. */
  lemma {:induction false} AppliesMeans(spec: Spec, c: Candidate, ctx: Context)
    ensures spec.isFallback ==> Score(spec, c, ctx) == Some(0)
    ensures !spec.isFallback ==> (Score(spec, c, ctx).Some? <==> Meets(spec, c, ctx))
  {
    OwnerMeans(c, ctx);
    IdleMeans(spec, c, ctx);
    NamesMean(spec, c, ctx);
  }

  /** A metric of the candidate's resource that the playbook looks for. */
  ghost predicate ShowsMetric(spec: Spec, c: Candidate, ctx: Context) {
    exists s :: s in ctx.series && OwnSeries(s, c, ctx) && Hits(s.name, spec.metricNames, ctx.lower)
  }

  /** An event of the current period that names the candidate's resource, where it has one, and
      matches the playbook's patterns, where it has any. */
  predicate Relates(e: AuditEvent, spec: Spec, c: Candidate, ctx: Context) {
    && ctx.current.first <= e.day <= ctx.current.last
    && (c.resourceId.Some? && c.resourceId.value != "" ==> c.resourceId.value in e.resourceIds)
    && (|spec.auditPatterns| > 0 ==> Hits(e.name, spec.auditPatterns, ctx.lower))
  }

  ghost predicate ShowsEvent(spec: Spec, c: Candidate, ctx: Context) { exists e :: e in ctx.events && Relates(e, spec, c, ctx) }

  lemma {:induction false} ConcerningMeans(events: seq<AuditEvent>, spec: Spec, c: Candidate, ctx: Context, e: AuditEvent)
    ensures multiset(Concerning(events, spec, c, ctx))[e] == if Relates(e, spec, c, ctx) then multiset(events)[e] else 0
  {
    if events != [] {
      assert events == [events[0]] + events[1..];
      ConcerningMeans(events[1..], spec, c, ctx, e);
    }
  }

  /** The events that count are those that relate to the candidate, each as often as it stands, in
      order of time. */
  lemma {:induction false} EventsMean(spec: Spec, c: Candidate, ctx: Context)
    ensures var found := MatchingEvents(spec, c, ctx);
            && (forall e :: multiset(found)[e] == if Relates(e, spec, c, ctx) then multiset(ctx.events)[e] else 0)
            && forall i, j :: 0 <= i < j < |found| ==> found[i].time <= found[j].time
  {
    var some := Concerning(ctx.events, spec, c, ctx);
    SortPermutes(some, NotAfter);
    forall e
      ensures multiset(some)[e] == if Relates(e, spec, c, ctx) then multiset(ctx.events)[e] else 0
    {
      ConcerningMeans(ctx.events, spec, c, ctx, e);
    }
    if some != [] {
      assert IsOrder(NotAfter);
      SortIsStable(some, some[0], NotAfter);
    }
  }

  lemma {:induction false} ShowsMetricMeans(spec: Spec, c: Candidate, ctx: Context)
    ensures MetricSeen(spec, c, ctx) == ShowsMetric(spec, c, ctx)
  {
    SeriesForMeans(c, ctx);
    var series := SeriesFor(c, ctx);
    if ShowsMetric(spec, c, ctx) {
      var s :| s in ctx.series && OwnSeries(s, c, ctx) && Hits(s.name, spec.metricNames, ctx.lower);
      var i :| 0 <= i < |series| && series[i] == s;
    }
    if MetricSeen(spec, c, ctx) {
      var i :| 0 <= i < |series| && MatchesAny(Some(series[i].name), spec.metricNames, ctx.lower);
      assert series[i] in series;
    }
  }

  lemma {:induction false} ShowsEventMeans(spec: Spec, c: Candidate, ctx: Context)
    ensures (MatchingEvents(spec, c, ctx) != []) == ShowsEvent(spec, c, ctx)
  {
    var found := MatchingEvents(spec, c, ctx);
    EventsMean(spec, c, ctx);
    if ShowsEvent(spec, c, ctx) {
      var e :| e in ctx.events && Relates(e, spec, c, ctx);
      assert e in multiset(ctx.events);
      assert multiset(found)[e] > 0;
    }
    if found != [] {
      assert found[0] in multiset(found);
      assert found[0] in multiset(ctx.events);
    }
  }

  function Worth(asked: bool, points: nat): nat { if asked then points else 0 }

  /** Main result: what a playbook scores when it applies: what it asks for by name and by behaviour,
      and what it looks for and finds. */
  lemma {:induction false} ScoreMeans(spec: Spec, c: Candidate, ctx: Context)
    requires !spec.isFallback && Meets(spec, c, ctx)
    ensures Score(spec, c, ctx)
         == Some(Worth(|spec.servicePatterns| > 0, 3) + Worth(|spec.skuPatterns| > 0, 3) + Worth(|spec.resourceTypePatterns| > 0, 2)
                 + Worth(spec.requiresNewSpend, 1) + Worth(spec.requiresRateChange, 3) + Worth(spec.requiresMissingOwner, 2)
                 + Worth(|spec.lowUtilizationMetrics| > 0, 2) + Worth(|spec.metricNames| > 0 && ShowsMetric(spec, c, ctx), 1)
                 + Worth(|spec.auditPatterns| > 0 && ShowsEvent(spec, c, ctx), 2))
  {
    AppliesMeans(spec, c, ctx);
    ShowsMetricMeans(spec, c, ctx);
    ShowsEventMeans(spec, c, ctx);
  }

  /** At least as good a choice: it scores more, or as much with no larger priority number. */
  predicate AsGood(a: Spec, b: Spec, c: Candidate, ctx: Context) {
    var x, y := Score(a, c, ctx).GetOr(0), Score(b, c, ctx).GetOr(0);
    x > y || (x == y && a.priority <= b.priority)
  }

  /** It applies, is at least as good as every other that does, and better than those before it. */
  predicate FirstBest(at: nat, specs: seq<Spec>, c: Candidate, ctx: Context)
    requires at < |specs|
  {
    && Score(specs[at], c, ctx).Some?
    && (forall i :: 0 <= i < |specs| && Score(specs[i], c, ctx).Some? ==> AsGood(specs[at], specs[i], c, ctx))
    && forall i :: 0 <= i < at && Score(specs[i], c, ctx).Some? ==> !AsGood(specs[i], specs[at], c, ctx)
  }

  /** Main result: the playbook chosen is one that applies and is at least as good as every other that
      does, the first of equals; when none applies it is the fallback for unexplained increases. */
  lemma {:induction false} ChoiceMeans(spec: Spec, specs: seq<Spec>, c: Candidate, ctx: Context)
    requires WonBy(spec, specs, c, ctx)
    ensures if forall i :: 0 <= i < |specs| ==> Score(specs[i], c, ctx).None?
            then spec.isFallback && spec.category == "unexplained_increase" && spec.maxConfidence == 0.4
                 && spec.ruleType == "cost_driver" && spec.risk == "low"
            else exists at :: 0 <= at < |specs| && spec == specs[at] && FirstBest(at, specs, c, ctx)
  {
    var at: Option<nat> :| Wins(at, specs, c, ctx) && spec == if at.Some? then specs[at.value] else FALLBACK;
    if at.Some? {
      assert FirstBest(at.value, specs, c, ctx);
      assert Score(specs[at.value], c, ctx).Some?;
    }
  }

  // ---------------------------------------------------------------- what is gathered

  lemma {:induction false} AdviceMeans(advice: seq<Advice>, id: string, a: Advice)
    ensures multiset(AdviceWith(advice, id))[a] == if a.resourceId == id then multiset(advice)[a] else 0
  {
    if advice != [] {
      assert advice == [advice[0]] + advice[1..];
      AdviceMeans(advice[1..], id, a);
    }
  }

  lemma {:induction false} NamedMeans(series: seq<Series>, names: seq<string>, lower: string -> string)
    ensures forall s :: s in Named(series, names, lower) <==> s in series && Hits(s.name, names, lower)
  {
    if series != [] {
      NamedMeans(series[1..], names, lower);
    }
  }

  predicate Advises(a: Advice, c: Candidate) { c.resourceId.Some? && c.resourceId.value != "" && a.resourceId == c.resourceId.value }

  /** Main result: what a candidate's evidence is drawn from: whether there was any use in either
      period; the metrics of its resource, those the playbook names if it names any that are there;
      the events that relate to it; the advice on its resource; and whether data is missing. */
  lemma {:induction false} SourcesMean(c: Candidate, spec: Spec, ctx: Context)
    ensures var src := SourcesOf(c, spec, ctx);
            && (src.usage <==> c.currentQuantity > 0.0 || c.baselineQuantity > 0.0) && src.late == ctx.incomplete
            && src.resource == ResourceOf(c, ctx) && src.events == MatchingEvents(spec, c, ctx)
            && (forall s :: s in src.series <==>
                  OwnSeries(s, c, ctx) && (ShowsMetric(spec, c, ctx) ==> Hits(s.name, spec.metricNames, ctx.lower)))
            && forall a :: multiset(src.advice)[a] == if Advises(a, c) then multiset(ctx.advice)[a] else 0
  {
    SeriesForMeans(c, ctx);
    NamedMeans(SeriesFor(c, ctx), spec.metricNames, ctx.lower);
    WantedMeans(c, spec, ctx);
    if Present(c.resourceId) {
      forall a
        ensures multiset(AdviceWith(ctx.advice, c.resourceId.value))[a]
             == if a.resourceId == c.resourceId.value then multiset(ctx.advice)[a] else 0
      {
        AdviceMeans(ctx.advice, c.resourceId.value, a);
      }
    }
  }

  lemma {:induction false} WantedMeans(c: Candidate, spec: Spec, ctx: Context)
    ensures forall s :: s in Wanted(spec, c, ctx) <==>
              OwnSeries(s, c, ctx) && (ShowsMetric(spec, c, ctx) ==> Hits(s.name, spec.metricNames, ctx.lower))
  {
    var all := SeriesFor(c, ctx);
    var named := Named(all, spec.metricNames, ctx.lower);
    SeriesForMeans(c, ctx);
    NamedMeans(all, spec.metricNames, ctx.lower);
    if named != [] {
      assert named[0] in named;
      assert ShowsMetric(spec, c, ctx);
    }
    if ShowsMetric(spec, c, ctx) {
      var s :| s in ctx.series && OwnSeries(s, c, ctx) && Hits(s.name, spec.metricNames, ctx.lower);
      assert s in named;
    }
  }

  predicate AnyItemFlagged(items: seq<Item>) { exists i :: 0 <= i < |items| && items[i].flagged }

  lemma {:induction false} FlaggedAppend(a: seq<Item>, b: seq<Item>)
    ensures AnyItemFlagged(a + b) <==> AnyItemFlagged(a) || AnyItemFlagged(b)
  {
    var both := a + b;
    if i :| 0 <= i < |a| && a[i].flagged {
      assert both[i].flagged;
    }
    if i :| 0 <= i < |b| && b[i].flagged {
      assert both[|a| + i].flagged;
    }
  }

  lemma {:induction false} ItemsKeepFlags(series: seq<Series>, events: seq<AuditEvent>, advice: seq<Advice>)
    ensures !AnyItemFlagged(MetricItems(series))
    ensures AnyItemFlagged(AuditItems(events)) <==> exists i :: 0 <= i < |events| && events[i].flagged
    ensures AnyItemFlagged(AdviceItems(advice)) <==> exists i :: 0 <= i < |advice| && advice[i].flagged
    decreases |series| + |events| + |advice|
  {
    if series != [] {
      ItemsKeepFlags(series[..|series| - 1], events, advice);
      FlaggedAppend(MetricItems(series[..|series| - 1]), [Item(Metric, false)]);
    } else if events != [] {
      var init, last := events[..|events| - 1], events[|events| - 1];
      ItemsKeepFlags(series, init, advice);
      FlaggedAppend(AuditItems(init), [Item(Audit, last.flagged)]);
      assert events == init + [last];
      assert [Item(Audit, last.flagged)][0].flagged == last.flagged;
    } else if advice != [] {
      var init, last := advice[..|advice| - 1], advice[|advice| - 1];
      ItemsKeepFlags(series, events, init);
      FlaggedAppend(AdviceItems(init), [Item(Recommendation, last.flagged)]);
      assert advice == init + [last];
      assert [Item(Recommendation, last.flagged)][0].flagged == last.flagged;
    }
  }

  lemma {:induction false} CoreKeepsFlags(src: Sources)
    ensures AnyItemFlagged(CoreItems(src)) <==> src.resource.Some? && src.resource.value.flagged
  {
    var items := CoreItems(src);
    if src.resource.Some? {
      assert items[|items| - 1] == Item(Inventory, src.resource.value.flagged);
    }
  }

  /** Untrusted text marks the evidence it came from: the resource's, one of the first three events',
      or one of the first two recommendations'. */
  lemma {:induction false} FlagsAreKept(src: Sources, given: nat, reference: string)
    ensures AnyFlagged(Gathered(src, given, reference)) <==>
              || (src.resource.Some? && src.resource.value.flagged)
              || (exists i :: 0 <= i < |src.events| && i < 3 && src.events[i].flagged)
              || exists i :: 0 <= i < |src.advice| && i < 2 && src.advice[i].flagged
  {
    var series, events, advice := Capped(src.series, 3), Capped(src.events, 3), Capped(src.advice, 2);
    var b, c, d, e := MetricItems(series), AuditItems(events), AdviceItems(advice), LateItems(src.late);
    CoreKeepsFlags(src);
    ItemsKeepFlags(series, events, advice);
    FlaggedAppend(CoreItems(src) + b + c + d, e);
    FlaggedAppend(CoreItems(src) + b + c, d);
    FlaggedAppend(CoreItems(src) + b, c);
    FlaggedAppend(CoreItems(src), b);
    assert AnyFlagged(Gathered(src, given, reference)) <==> AnyItemFlagged(Items(src));
  }

  // ---------------------------------------------------------------- a built finding

  /** The rule asked for: of the provider, for the candidate's service and the playbook's category, on
      the day the candidate spiked or, where it did not, on the last day of the period. */
  lemma {:induction false} RuleAskedFor(c: Candidate, spec: Spec, ctx: Context)
    ensures RuleFor(c, spec, ctx)
         == Knowledge.Select(ctx.rules, Knowledge.Query(ctx.provider, spec.ruleType, c.service, Some(spec.category), ctx.lower),
                             Some(if c.firstSpike.Some? then c.firstSpike.value else ctx.current.last))
  {
  }

  /** The unit rate moved, not the use, and the playbook is not about prices. */
  predicate RateUnexplained(c: Candidate, spec: Spec) { !GrewInUse(c) && spec.category != "pricing_change" }

  /** The rule found is overdue for review, or holds since nobody knows when. */
  predicate RuleShaky(answer: Knowledge.Answer, ctx: Context) {
    answer.Found? && (answer.undated || answer.rule.reviewedAt.None? || answer.rule.reviewedAt.value + ctx.maxReviewAge < ctx.asOf)
  }

  function Stored(score: real): real { Thousandths(Min(Max(score, 0.0), 1.0)) }

  /** Main result: a finding stores the score of its evidence, or the lowest cap of what is doubtful
      about it: 0.45 without a rule, 0.6 with a shaky one, 0.7 where a rate moved unexplained. */
  lemma {:induction false} StoredConfidenceMeans(
      c: Candidate, spec: Spec, ctx: Context, index: nat, evidence: seq<Evidence>, prose: Prose, mode: Mode)
    ensures var f, score, answer := Built(c, spec, ctx, index, evidence, prose, mode), Confidence(spec, evidence, c), RuleFor(c, spec, ctx);
            && (answer.NotFound? ==> f.confidence <= Stored(0.45)) && (RuleShaky(answer, ctx) ==> f.confidence <= Stored(0.6))
            && (RateUnexplained(c, spec) ==> f.confidence <= Stored(0.7)) && f.confidence <= Stored(score)
            && (|| f.confidence == Stored(score) || (f.confidence == Stored(0.45) && answer.NotFound?)
                || (f.confidence == Stored(0.6) && RuleShaky(answer, ctx)) || (f.confidence == Stored(0.7) && RateUnexplained(c, spec)))
  {
    var score, answer := Confidence(spec, evidence, c), RuleFor(c, spec, ctx);
    var capped := RuleCapped(score, answer, c, spec, ctx);
    StoredMonotone(capped, score);
    StoredMonotone(capped, 0.45);
    StoredMonotone(capped, 0.6);
    StoredMonotone(capped, 0.7);
  }

  lemma {:induction false} StoredMonotone(a: real, b: real)
    ensures a <= b ==> Stored(a) <= Stored(b)
  {
    if a <= b {
      ThousandthsMonotone(Min(Max(a, 0.0), 1.0), Min(Max(b, 0.0), 1.0));
    }
  }

  /** Main result: a finding's money is the candidate's: its change in cents, and that change a day
      over 30.4 days; its resource is the candidate's and no other; it cites the rule found for
      the day the candidate spiked, or the period's last day; and it is doubtful exactly for a
      fallback, an absent or shaky rule, or incomplete data. */
  lemma {:induction false} BuiltMeans(
      c: Candidate, spec: Spec, ctx: Context, index: nat, evidence: seq<Evidence>, prose: Prose, mode: Mode)
    requires ctx.current.Valid()
    ensures var f, answer := Built(c, spec, ctx, index, evidence, prose, mode), RuleFor(c, spec, ctx);
            && Abs(f.increase - c.change) <= 0.005 && Abs(f.monthlyImpact - c.change / ctx.current.Days() as real * 30.4) <= 0.005
            && f.resources == (if c.resourceId.Some? && c.resourceId.value != "" then [c.resourceId.value] else [])
            && f.candidateId == Some(c.id) && ctx.tag + "-F" <= f.id && f.provider == ctx.provider && f.category == spec.category && f.evidence == evidence && f.risk == spec.risk
            && f.service == c.service && f.region == c.region && f.needsApproval && f.mode == mode
            && |f.rules| == (if answer.Found? then 1 else 0)
            && (answer.Found? ==>
                  f.rules[0].ruleId == answer.rule.id
                  && f.rules[0].selectedFor == Some(if c.firstSpike.Some? then c.firstSpike.value else ctx.current.last))
            && (f.uncertain <==> spec.isFallback || answer.NotFound? || RuleShaky(answer, ctx) || ctx.incomplete)
            && (RateMayExplain in f.warnings <== RateUnexplained(c, spec)) && (IncompleteData in f.warnings <== ctx.incomplete)
            && (Provisional in f.warnings <== answer.NotFound?)
  {
    CentsAreNear(c.change);
    CentsAreNear(c.change / Max(ctx.current.Days() as real, 1.0) * 30.4);
    assert Max(ctx.current.Days() as real, 1.0) == ctx.current.Days() as real;
  }
}
