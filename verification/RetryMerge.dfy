/**
 Recording findings through an agent's tools, and merging what several attempts of one
 investigation recorded into its result.
 */
module RetryMerge {
  import opened Common
  import opened Maths
  import opened Findings
  import opened Sorting
  import opened Playbooks
  import Derivation
  import Knowledge

  /** Finding by candidate id, in the order they were recorded. */
  type Recorded = seq<(string, Finding)>

  function Lookup(recorded: Recorded, id: string): Option<Finding> {
    if recorded == [] then None
    else if recorded[0].0 == id then Some(recorded[0].1) else Lookup(recorded[1..], id)
  }

  function FindCandidate(candidates: seq<Candidate>, id: string): Option<Candidate> {
    if candidates == [] then None
    else if candidates[0].id == id then Some(candidates[0]) else FindCandidate(candidates[1..], id)
  }

  /** What one attempt's tools were prepared with. */
  datatype Prepared = Prepared(
    selected: map<string, Spec>, gathered: map<string, seq<Evidence>>, pool: map<nat, Evidence>)

  datatype Call = Call(candidateId: string, category: string, evidenceIds: seq<nat>, prose: Prose, risk: string)

  datatype Outcome =
    | Accepted(finding: Finding) | AlreadyRecorded(finding: Finding)
    | UnknownCandidate | UnknownEvidence | NothingCited | BudgetSpent

  function Cited(ids: seq<nat>, pool: map<nat, Evidence>): (evidence: seq<Evidence>)
    requires forall i :: 0 <= i < |ids| ==> ids[i] in pool
    ensures |evidence| == |ids| && forall i :: 0 <= i < |ids| ==> evidence[i] == pool[ids[i]]
  {
    if ids == [] then [] else [pool[ids[0]]] + Cited(ids[1..], pool)
  }

  /** The selected playbook, or a plain one when the agent names another category. */
  function Chosen(selected: Spec, category: string, risk: string): Spec {
    if category == "" || category == selected.category then selected
    else Spec(category, selected.ruleType, [], [], [], [], [], [], 5.0, false, true, false, false, 50, false,
              Min(selected.maxConfidence, 0.8), risk)
  }

  /** What a call comes to, given what is recorded and how many findings this attempt holds. */
  function Judged(call: Call, recorded: Recorded, held: nat, tools: Prepared, candidates: seq<Candidate>, ctx: Context): Outcome {
    var previous, candidate := Lookup(recorded, call.candidateId), FindCandidate(candidates, call.candidateId);
    if previous.Some? then AlreadyRecorded(previous.value)
    else if candidate.None? || call.candidateId !in tools.selected then UnknownCandidate
    else if exists i :: 0 <= i < |call.evidenceIds| && call.evidenceIds[i] !in tools.pool then UnknownEvidence
    else if call.evidenceIds == [] then NothingCited
    else
      Accepted(Built(candidate.value, Chosen(tools.selected[call.candidateId], call.category, call.risk), ctx, held + 1,
                     Cited(call.evidenceIds, tools.pool), call.prose, Live))
  }

  function Held(findings: seq<Finding>, outcome: Outcome): seq<Finding> {
    match outcome
    case Accepted(f) => findings + [f]
    case AlreadyRecorded(f) => if f in findings then findings else findings + [f]
    case _ => findings
  }

  function Kept(recorded: Recorded, id: string, outcome: Outcome): Recorded {
    if outcome.Accepted? then recorded + [(id, outcome.finding)] else recorded
  }

  // ---------------------------------------------------------------- what a call's outcome means

  predicate Known(candidates: seq<Candidate>, id: string) { exists i :: 0 <= i < |candidates| && candidates[i].id == id }

  predicate AlreadyThere(recorded: Recorded, id: string) { exists i :: 0 <= i < |recorded| && recorded[i].0 == id }

  predicate CitesUnknown(call: Call, tools: Prepared) {
    exists i :: 0 <= i < |call.evidenceIds| && call.evidenceIds[i] !in tools.pool
  }

  lemma {:induction false} LookupMeans(recorded: Recorded, id: string)
    ensures Lookup(recorded, id).Some? <==> AlreadyThere(recorded, id)
  {
    if recorded != [] {
      LookupMeans(recorded[1..], id);
      assert forall i :: 0 < i < |recorded| ==> recorded[i] == recorded[1..][i - 1];
      if i :| 0 <= i < |recorded[1..]| && recorded[1..][i].0 == id {
        assert recorded[i + 1].0 == id;
      }
    }
  }

  lemma {:induction false} KnownMeans(candidates: seq<Candidate>, id: string)
    ensures FindCandidate(candidates, id).Some? <==> Known(candidates, id)
    ensures FindCandidate(candidates, id).Some? ==> FindCandidate(candidates, id).value.id == id
  {
    if candidates != [] {
      KnownMeans(candidates[1..], id);
      assert forall i :: 0 < i < |candidates| ==> candidates[i] == candidates[1..][i - 1];
      if i :| 0 <= i < |candidates[1..]| && candidates[1..][i].id == id {
        assert candidates[i + 1].id == id;
      }
    }
  }

  /** Every refusal names its own reason; what is accepted cites something, all of it prepared,
      under the call's category, and a category other than the playbook's is believed to 0.8 at most. */
  lemma {:induction false} OutcomeMeans(
      call: Call, recorded: Recorded, held: nat, tools: Prepared, candidates: seq<Candidate>, ctx: Context)
    requires forall i :: 0 <= i < |candidates| ==> candidates[i].id in tools.selected
    ensures var outcome, unseen := Judged(call, recorded, held, tools, candidates, ctx), !AlreadyThere(recorded, call.candidateId);
            var known := Known(candidates, call.candidateId);
            && (outcome.AlreadyRecorded? <==> !unseen) && (outcome.UnknownCandidate? <==> unseen && !known)
            && (outcome.UnknownEvidence? <==> unseen && known && CitesUnknown(call, tools))
            && (outcome.NothingCited? <==> unseen && known && |call.evidenceIds| == 0)
            && !outcome.BudgetSpent?
    ensures var outcome := Judged(call, recorded, held, tools, candidates, ctx);
            outcome.Accepted? ==>
              var f := outcome.finding;
              && call.candidateId in tools.selected && f.candidateId == Some(call.candidateId) && f.mode == Live
              && |f.evidence| == |call.evidenceIds| > 0
              && (forall i :: 0 <= i < |call.evidenceIds| ==> call.evidenceIds[i] in tools.pool && f.evidence[i] == tools.pool[call.evidenceIds[i]])
              && f.category == (if call.category == "" then tools.selected[call.candidateId].category else call.category)
              && (f.category != tools.selected[call.candidateId].category ==> f.confidence <= 0.8 && f.risk == call.risk)
  {
    LookupMeans(recorded, call.candidateId);
    KnownMeans(candidates, call.candidateId);
    var outcome := Judged(call, recorded, held, tools, candidates, ctx);
    if outcome.Accepted? {
      var spec := Chosen(tools.selected[call.candidateId], call.category, call.risk);
      var candidate := FindCandidate(candidates, call.candidateId).value;
      if spec.maxConfidence <= 0.8 {
        CeilingHolds(candidate, spec, ctx, held + 1, Cited(call.evidenceIds, tools.pool), call.prose);
      }
    }
  }

  lemma {:induction false} FirstOfItsId(candidates: seq<Candidate>, id: string, at: nat)
    requires at < |candidates| && candidates[at].id == id && forall j :: 0 <= j < at ==> candidates[j].id != id
    ensures FindCandidate(candidates, id) == Some(candidates[at])
  {
    if at > 0 {
      assert forall j :: 0 <= j < at - 1 ==> candidates[1..][j] == candidates[j + 1];
      FirstOfItsId(candidates[1..], id, at - 1);
    }
  }

  /** The rule in question for a candidate under a category: of the kind its own playbook asks for. */
  function RuleInQuestion(own: Spec, category: string, c: Candidate, ctx: Context): Knowledge.Answer {
    Knowledge.Select(ctx.rules, Knowledge.Query(ctx.provider, own.ruleType, c.service, Some(category), ctx.lower),
                     Some(if c.firstSpike.Some? then c.firstSpike.value else ctx.current.last))
  }

  /** A finding about this candidate, from its own playbook or under another category. */
  predicate About(f: Finding, c: Candidate, own: Spec, ctx: Context) {
    var answer := RuleInQuestion(own, f.category, c, ctx);
    && Abs(f.increase - c.change) <= 0.005 && f.provider == ctx.provider && f.service == c.service
    && f.resources == (if c.resourceId.Some? && c.resourceId.value != "" then [c.resourceId.value] else [])
    && |f.rules| == (if answer.Found? then 1 else 0) && (answer.Found? ==> f.rules[0].ruleId == answer.rule.id)
    && (f.uncertain <==> (own.isFallback && f.category == own.category) || answer.NotFound?
                         || Derivation.RuleShaky(answer, ctx) || ctx.incomplete)
  }

  lemma {:induction false} ChosenIsAbout(
      own: Spec, category: string, risk: string, c: Candidate, ctx: Context, index: nat, evidence: seq<Evidence>, prose: Prose)
    requires ctx.current.Valid()
    ensures About(Built(c, Chosen(own, category, risk), ctx, index, evidence, prose, Live), c, own, ctx)
  {
    var spec := Chosen(own, category, risk);
    Derivation.RuleAskedFor(c, spec, ctx);
    Derivation.BuiltMeans(c, spec, ctx, index, evidence, prose, Live);
  }

  /** What is accepted is about the first candidate of the id: its change, its resource, and the rule
      for the call's category; under another category than the playbook's it is no fallback. */
  lemma {:induction false} AcceptedMeans(
      call: Call, recorded: Recorded, held: nat, tools: Prepared, candidates: seq<Candidate>, ctx: Context, at: nat)
    requires Judged(call, recorded, held, tools, candidates, ctx).Accepted? && ctx.current.Valid()
    requires at < |candidates| && candidates[at].id == call.candidateId
    requires forall j :: 0 <= j < at ==> candidates[j].id != call.candidateId
    ensures call.candidateId in tools.selected
    ensures About(Judged(call, recorded, held, tools, candidates, ctx).finding, candidates[at], tools.selected[call.candidateId], ctx)
  {
    FirstOfItsId(candidates, call.candidateId, at);
    ChosenIsAbout(tools.selected[call.candidateId], call.category, call.risk, candidates[at], ctx, held + 1,
                  Cited(call.evidenceIds, tools.pool), call.prose);
  }

  lemma {:induction false} CeilingHolds(c: Candidate, spec: Spec, ctx: Context, index: nat, evidence: seq<Evidence>, prose: Prose)
    requires spec.maxConfidence <= 0.8
    ensures Built(c, spec, ctx, index, evidence, prose, Live).confidence <= 0.8
  {
    var capped := RuleCapped(Confidence(spec, evidence, c), RuleFor(c, spec, ctx), c, spec, ctx);
    assert Confidence(spec, evidence, c) <= 0.8;
    ThousandthsMonotone(Min(Max(capped, 0.0), 1.0), 0.8);
    ThousandthsOf(800);
  }

  // ---------------------------------------------------------------- the tools themselves

  /** The context every attempt of one investigation shares. */
  class Investigation {
    const candidates: seq<Candidate>
    const ctx: Context
    const factory: EvidenceFactory
    const maxCalls: nat
    var calls: nat
    var recorded: Recorded
    var citations: seq<Citation>

    constructor (candidates: seq<Candidate>, ctx: Context, maxCalls: nat)
      ensures this.candidates == candidates && this.ctx == ctx && this.maxCalls == maxCalls
      ensures calls == 0 && recorded == [] && citations == [] && fresh(factory)
    {
      this.candidates, this.ctx, this.maxCalls, calls := candidates, ctx, maxCalls, 0;
      factory := new EvidenceFactory();
      recorded, citations := [], [];
    }
  }

  /** The list gathered for the candidate, numbered onwards from its first item. */
  predicate GatheredAs(evidence: seq<Evidence>, c: Candidate, spec: Spec, ctx: Context) {
    evidence != [] && evidence[0].id >= 1
    && evidence == Gathered(SourcesOf(c, spec, ctx), evidence[0].id - 1, ctx.reference)
  }

  /** The last candidate of an id decides, its dictionary entry replacing an earlier one's. */
  predicate LastOfItsId(candidates: seq<Candidate>, i: nat)
    requires i < |candidates|
  {
    forall j :: i < j < |candidates| ==> candidates[j].id != candidates[i].id
  }

  ghost predicate PreparedFor(
      spec: Spec, evidence: seq<Evidence>, id: string, candidates: seq<Candidate>, specs: seq<Spec>, ctx: Context) {
    exists i :: 0 <= i < |candidates| && candidates[i].id == id && LastOfItsId(candidates, i)
                && WonBy(spec, specs, candidates[i], ctx) && GatheredAs(evidence, candidates[i], spec, ctx)
  }

  /** A candidate's evidence is not empty and can all be cited by number. */
  predicate Citable(evidence: seq<Evidence>, pool: map<nat, Evidence>) {
    evidence != [] && forall i :: 0 <= i < |evidence| ==> evidence[i].id in pool && pool[evidence[i].id] == evidence[i]
  }

  /** Exactly the candidates have a playbook, the winning one, and the evidence gathered under it,
      which they can cite; and a pool item carries the number it is filed under, given out after `first`. */
  ghost predicate Covers(tools: Prepared, candidates: seq<Candidate>, specs: seq<Spec>, ctx: Context, first: nat, last: nat) {
    && (forall i :: 0 <= i < |candidates| ==> candidates[i].id in tools.selected)
    && tools.selected.Keys == tools.gathered.Keys
    && AllPrepared(tools.selected, tools.gathered, candidates, specs, ctx) && AllCitable(tools.gathered, tools.pool)
    && FiledBetween(tools.pool, first, last)
  }

  ghost predicate AllPrepared(
      selected: map<string, Spec>, gathered: map<string, seq<Evidence>>, candidates: seq<Candidate>, specs: seq<Spec>, ctx: Context)
    requires selected.Keys == gathered.Keys
  {
    forall id :: id in selected ==> PreparedFor(selected[id], gathered[id], id, candidates, specs, ctx)
  }

  predicate AllCitable(gathered: map<string, seq<Evidence>>, pool: map<nat, Evidence>) {
    forall id :: id in gathered ==> Citable(gathered[id], pool)
  }

  predicate FiledBetween(pool: map<nat, Evidence>, first: nat, last: nat) {
    forall n :: n in pool ==> pool[n].id == n && first < n <= last
  }

  /** Select a candidate's playbook and gather its evidence. */
  method PrepareOne(factory: EvidenceFactory, c: Candidate, specs: seq<Spec>, ctx: Context)
    returns (spec: Spec, evidence: seq<Evidence>)
    modifies factory
    ensures WonBy(spec, specs, c, ctx) && GatheredAs(evidence, c, spec, ctx) && NumberedFrom(evidence, old(factory.counter))
    ensures factory.counter == old(factory.counter) + |evidence|
  {
    spec := SelectPlaybook(c, specs, ctx);
    evidence := factory.GatherEvidence(c, spec, ctx);
  }

  lemma {:induction false} NothingPrepared(specs: seq<Spec>, ctx: Context, given: nat)
    ensures Covers(Prepared(map[], map[], map[]), [], specs, ctx, given, given)
  {
  }

  method Prepare(run: Investigation, specs: seq<Spec>) returns (tools: Prepared)
    modifies run.factory
    ensures run.factory.counter >= old(run.factory.counter)
    ensures Covers(tools, run.candidates, specs, run.ctx, old(run.factory.counter), run.factory.counter)
  {
    tools := Prepared(map[], map[], map[]);
    NothingPrepared(specs, run.ctx, run.factory.counter);
    for i := 0 to |run.candidates|
      invariant run.factory.counter >= old(run.factory.counter)
      invariant Covers(tools, run.candidates[..i], specs, run.ctx, old(run.factory.counter), run.factory.counter)
    {
      var c := run.candidates[i];
      ghost var counter0 := run.factory.counter;
      var spec, evidence := PrepareOne(run.factory, c, specs, run.ctx);
      PrefixGrows(run.candidates, i);
      CoversOneMore(tools, run.candidates[..i], c, spec, specs, run.ctx, evidence, old(run.factory.counter), counter0);
      tools := Prepared(tools.selected[c.id := spec], tools.gathered[c.id := evidence], Pooled(tools.pool, evidence));
    }
    assert run.candidates[..|run.candidates|] == run.candidates;
  }

  /** One attempt's toolset: rebuilt empty for every attempt, over the shared investigation. */
  class NativeToolset {
    const run: Investigation
    const specs: seq<Spec>
    var findings: seq<Finding>
    var tools: Prepared

    constructor (run: Investigation, specs: seq<Spec>)
      modifies run.factory
      ensures this.run == run && this.specs == specs && findings == []
      ensures Covers(tools, run.candidates, specs, run.ctx, old(run.factory.counter), run.factory.counter)
    {
      var prepared := Prepare(run, specs);
      this.run, this.specs, findings, tools := run, specs, [], prepared;
    }

    method RecordFinding(call: Call) returns (outcome: Outcome)
      requires forall i :: 0 <= i < |run.candidates| ==> run.candidates[i].id in tools.selected
      modifies this`findings, run`recorded, run`calls, run`citations
      ensures old(run.calls) >= run.maxCalls ==> outcome == BudgetSpent && run.calls == old(run.calls)
      ensures old(run.calls) < run.maxCalls ==>
                && outcome == Judged(call, old(run.recorded), |old(findings)|, tools, run.candidates, run.ctx)
                && run.calls == old(run.calls) + 1
      ensures findings == Held(old(findings), outcome)
      ensures findings == if outcome.Accepted? || (outcome.AlreadyRecorded? && outcome.finding !in old(findings))
                          then old(findings) + [outcome.finding] else old(findings)
      ensures run.recorded == Kept(old(run.recorded), call.candidateId, outcome)
      ensures run.citations == if outcome.Accepted? then Noted(old(run.citations), outcome.finding.rules) else old(run.citations)
    {
      if run.calls >= run.maxCalls {
        return BudgetSpent;
      }
      run.calls := run.calls + 1;
      var previous := Lookup(run.recorded, call.candidateId);
      if previous.Some? {
        if previous.value !in findings {
          findings := findings + [previous.value];
        }
        return AlreadyRecorded(previous.value);
      }
      var candidate := FindCandidate(run.candidates, call.candidateId);
      if candidate.None? {
        return UnknownCandidate;
      }
      FoundHasId(run.candidates, call.candidateId);
      if exists i :: 0 <= i < |call.evidenceIds| && call.evidenceIds[i] !in tools.pool {
        return UnknownEvidence;
      }
      var cited := Cited(call.evidenceIds, tools.pool);
      if cited == [] {
        return NothingCited;
      }
      var spec := Chosen(tools.selected[call.candidateId], call.category, call.risk);
      var finding, noted := BuildFinding(candidate.value, spec, run.ctx, |findings| + 1, cited, call.prose, Live, run.citations);
      run.citations := noted;
      findings := findings + [finding];
      run.recorded := run.recorded + [(call.candidateId, finding)];
      return Accepted(finding);
    }
  }

  function Pooled(pool: map<nat, Evidence>, evidence: seq<Evidence>): map<nat, Evidence> {
    if evidence == [] then pool
    else
      var last := evidence[|evidence| - 1];
      Pooled(pool, evidence[..|evidence| - 1])[last.id := last]
  }

  predicate NumberedFrom(evidence: seq<Evidence>, before: nat) {
    forall i :: 0 <= i < |evidence| ==> evidence[i].id == before + i + 1
  }

  predicate Keeps(pool0: map<nat, Evidence>, pool: map<nat, Evidence>) {
    forall n :: n in pool0 ==> n in pool && pool[n] == pool0[n]
  }

  lemma {:induction false} PooledItems(pool: map<nat, Evidence>, evidence: seq<Evidence>, first: nat, before: nat)
    requires FiledBetween(pool, first, before) && first <= before && NumberedFrom(evidence, before)
    ensures FiledBetween(Pooled(pool, evidence), first, before + |evidence|) && Keeps(pool, Pooled(pool, evidence))
    ensures evidence != [] ==> Citable(evidence, Pooled(pool, evidence))
  {
    if evidence != [] {
      PooledItems(pool, evidence[..|evidence| - 1], first, before);
    }
  }

  lemma {:induction false} CoversOneMore(
      tools: Prepared, candidates: seq<Candidate>, c: Candidate, spec: Spec, specs: seq<Spec>, ctx: Context,
      evidence: seq<Evidence>, first: nat, before: nat)
    requires Covers(tools, candidates, specs, ctx, first, before) && first <= before
    requires WonBy(spec, specs, c, ctx) && GatheredAs(evidence, c, spec, ctx) && NumberedFrom(evidence, before)
    ensures Covers(Prepared(tools.selected[c.id := spec], tools.gathered[c.id := evidence], Pooled(tools.pool, evidence)),
                   candidates + [c], specs, ctx, first, before + |evidence|)
  {
    PooledItems(tools.pool, evidence, first, before);
    PreparedOneMore(tools.selected, tools.gathered, candidates, c, spec, evidence, specs, ctx);
    GatheredOneMore(tools.gathered, c.id, evidence, tools.pool, Pooled(tools.pool, evidence));
  }

  lemma {:induction false} GatheredOneMore(
      gathered: map<string, seq<Evidence>>, id: string, evidence: seq<Evidence>, pool0: map<nat, Evidence>, pool: map<nat, Evidence>)
    requires AllCitable(gathered, pool0) && Citable(evidence, pool) && Keeps(pool0, pool)
    ensures AllCitable(gathered[id := evidence], pool)
  {
    forall k | k in gathered
      ensures Citable(gathered[k], pool)
    {
      assert Citable(gathered[k], pool0);
    }
  }

  lemma {:induction false} PreparedOneMore(
      selected0: map<string, Spec>, gathered0: map<string, seq<Evidence>>, candidates: seq<Candidate>, c: Candidate,
      spec: Spec, evidence: seq<Evidence>, specs: seq<Spec>, ctx: Context)
    requires selected0.Keys == gathered0.Keys && AllPrepared(selected0, gathered0, candidates, specs, ctx)
    requires WonBy(spec, specs, c, ctx) && GatheredAs(evidence, c, spec, ctx)
    ensures selected0[c.id := spec].Keys == gathered0[c.id := evidence].Keys
    ensures AllPrepared(selected0[c.id := spec], gathered0[c.id := evidence], candidates + [c], specs, ctx)
  {
    var selected, gathered := selected0[c.id := spec], gathered0[c.id := evidence];
    forall id | id in selected
      ensures PreparedFor(selected[id], gathered[id], id, candidates + [c], specs, ctx)
    {
      if id == c.id {
        LastIsPrepared(spec, evidence, candidates, c, specs, ctx);
      } else {
        StaysPrepared(selected0[id], gathered0[id], id, candidates, c, specs, ctx);
      }
    }
  }

  lemma {:induction false} LastIsPrepared(
      spec: Spec, evidence: seq<Evidence>, candidates: seq<Candidate>, c: Candidate, specs: seq<Spec>, ctx: Context)
    requires WonBy(spec, specs, c, ctx) && GatheredAs(evidence, c, spec, ctx)
    ensures PreparedFor(spec, evidence, c.id, candidates + [c], specs, ctx)
  {
    var more := candidates + [c];
    assert more[|candidates|] == c && LastOfItsId(more, |candidates|);
  }

  lemma {:induction false} StaysPrepared(
      spec: Spec, evidence: seq<Evidence>, id: string, candidates: seq<Candidate>, c: Candidate, specs: seq<Spec>, ctx: Context)
    requires PreparedFor(spec, evidence, id, candidates, specs, ctx) && id != c.id
    ensures PreparedFor(spec, evidence, id, candidates + [c], specs, ctx)
  {
    var i :| 0 <= i < |candidates| && candidates[i].id == id && LastOfItsId(candidates, i)
             && WonBy(spec, specs, candidates[i], ctx) && GatheredAs(evidence, candidates[i], spec, ctx);
    var more := candidates + [c];
    assert more[i] == candidates[i] && LastOfItsId(more, i);
  }

  lemma {:induction false} FoundHasId(candidates: seq<Candidate>, id: string)
    ensures var found := FindCandidate(candidates, id);
            found.Some? ==> found.value.id == id && exists i :: 0 <= i < |candidates| && candidates[i].id == id
  {
    if candidates != [] {
      FoundHasId(candidates[1..], id);
      if candidates[0].id != id && FindCandidate(candidates[1..], id).Some? {
        var i :| 0 <= i < |candidates[1..]| && candidates[1..][i].id == id;
        assert candidates[i + 1].id == id;
      }
    }
  }

  // ---------------------------------------------------------------- a whole investigation

  /** What is recorded, and the findings each attempt's toolset holds. */
  datatype Session = Session(recorded: Recorded, lists: seq<seq<Finding>>, tools: seq<Prepared>)

  /** An attempt starts, or some attempt, not necessarily the latest, records a finding. */
  datatype Event = Start(tools: Prepared) | Record(attempt: nat, call: Call)

  function Step(s: Session, e: Event, candidates: seq<Candidate>, ctx: Context): Session
    requires |s.lists| == |s.tools|
  {
    match e
    case Start(tools) => Session(s.recorded, s.lists + [[]], s.tools + [tools])
    case Record(attempt, call) =>
      if attempt >= |s.lists| then s
      else
        var outcome := Judged(call, s.recorded, |s.lists[attempt]|, s.tools[attempt], candidates, ctx);
        Session(Kept(s.recorded, call.candidateId, outcome),
                s.lists[attempt := Held(s.lists[attempt], outcome)], s.tools)
  }

  function After(events: seq<Event>, candidates: seq<Candidate>, ctx: Context): (s: Session)
    ensures |s.lists| == |s.tools|
  {
    if events == [] then Session([], [], [])
    else Step(After(events[..|events| - 1], candidates, ctx), events[|events| - 1], candidates, ctx)
  }

  function Values(recorded: Recorded): (values: seq<Finding>)
    ensures |values| == |recorded| && forall i :: 0 <= i < |recorded| ==> values[i] == recorded[i].1
  {
    if recorded == [] then [] else [recorded[0].1] + Values(recorded[1..])
  }

  /** Recorded under its own id, which is a candidate's, with that candidate's change in cents. */
  predicate Faithful(entry: (string, Finding), candidates: seq<Candidate>) {
    var candidate := FindCandidate(candidates, entry.0);
    entry.1.candidateId == Some(entry.0) && candidate.Some? && entry.1.increase == Cents(candidate.value.change)
  }

  predicate OncePerCandidate(findings: seq<Finding>) {
    forall i, j :: 0 <= i < j < |findings| ==> findings[i].candidateId != findings[j].candidateId
  }

  predicate AllIn(findings: seq<Finding>, recorded: Recorded) {
    forall i :: 0 <= i < |findings| ==> findings[i] in Values(recorded)
  }

  predicate AllFaithful(recorded: Recorded, candidates: seq<Candidate>) {
    forall i :: 0 <= i < |recorded| ==> Faithful(recorded[i], candidates)
  }

  predicate Fine(findings: seq<Finding>, recorded: Recorded) { OncePerCandidate(findings) && AllIn(findings, recorded) }

  /** One faithful finding per recorded candidate, and every list holds some of them once. */
  predicate Inv(s: Session, candidates: seq<Candidate>) {
    && AllFaithful(s.recorded, candidates) && OncePerCandidate(Values(s.recorded))
    && forall a :: 0 <= a < |s.lists| ==> Fine(s.lists[a], s.recorded)
  }

  lemma {:induction false} LookupFinds(recorded: Recorded, id: string)
    ensures var found := Lookup(recorded, id);
            && (found.Some? ==> exists i :: 0 <= i < |recorded| && recorded[i] == (id, found.value))
            && (found.None? ==> forall i :: 0 <= i < |recorded| ==> recorded[i].0 != id)
  {
    if recorded != [] && recorded[0].0 != id {
      LookupFinds(recorded[1..], id);
      assert forall i :: 0 <= i < |recorded| - 1 ==> recorded[1..][i] == recorded[i + 1];
    } else if recorded != [] {
      assert recorded[0] == (id, recorded[0].1);
    }
  }

  lemma {:induction false} ValuesGrow(recorded: Recorded, entry: (string, Finding))
    ensures Values(recorded + [entry]) == Values(recorded) + [entry.1]
  {
  }

  lemma {:induction false} AcceptedIsFaithful(call: Call, recorded: Recorded, held: nat, tools: Prepared, candidates: seq<Candidate>, ctx: Context)
    ensures var outcome := Judged(call, recorded, held, tools, candidates, ctx);
            && (outcome.Accepted? ==> Faithful((call.candidateId, outcome.finding), candidates) && Lookup(recorded, call.candidateId).None?)
            && (outcome.AlreadyRecorded? ==> outcome.finding in Values(recorded))
  {
    FoundHasId(candidates, call.candidateId);
    LookupFinds(recorded, call.candidateId);
    var outcome := Judged(call, recorded, held, tools, candidates, ctx);
    if outcome.AlreadyRecorded? {
      var i :| 0 <= i < |recorded| && recorded[i] == (call.candidateId, outcome.finding);
      assert Values(recorded)[i] == outcome.finding;
    }
  }

  lemma {:induction false} SameCandidateSameFinding(recorded: Recorded, f: Finding, g: Finding)
    requires OncePerCandidate(Values(recorded)) && f in Values(recorded) && g in Values(recorded)
    requires f.candidateId == g.candidateId
    ensures f == g
  {
  }

  lemma {:induction false} HeldStaysFine(findings: seq<Finding>, recorded: Recorded, f: Finding)
    requires Fine(findings, recorded) && OncePerCandidate(Values(recorded))
    requires f in Values(recorded) && f !in findings
    ensures Fine(findings + [f], recorded)
  {
  }

  lemma {:induction false} FineAsRecordsGrow(findings: seq<Finding>, recorded: Recorded, entry: (string, Finding))
    requires Fine(findings, recorded)
    ensures Fine(findings, recorded + [entry])
  {
    ValuesGrow(recorded, entry);
  }

  lemma {:induction false} RecordsGrow(recorded: Recorded, entry: (string, Finding), candidates: seq<Candidate>)
    requires AllFaithful(recorded, candidates) && OncePerCandidate(Values(recorded))
    requires Faithful(entry, candidates) && Lookup(recorded, entry.0).None?
    ensures AllFaithful(recorded + [entry], candidates) && OncePerCandidate(Values(recorded + [entry]))
    ensures entry.1 in Values(recorded + [entry]) && entry.1 !in Values(recorded)
  {
    ValuesGrow(recorded, entry);
    LookupFinds(recorded, entry.0);
    assert Values(recorded + [entry])[|recorded|] == entry.1;
    forall i | 0 <= i < |recorded|
      ensures Values(recorded)[i].candidateId != entry.1.candidateId
    {
      assert Faithful(recorded[i], candidates);
    }
  }

  lemma {:induction false} InvAccepted(s: Session, attempt: nat, entry: (string, Finding), candidates: seq<Candidate>)
    requires Inv(s, candidates) && attempt < |s.lists|
    requires Faithful(entry, candidates) && Lookup(s.recorded, entry.0).None?
    ensures Inv(Session(s.recorded + [entry], s.lists[attempt := s.lists[attempt] + [entry.1]], s.tools), candidates)
  {
    RecordsGrow(s.recorded, entry, candidates);
    forall a | 0 <= a < |s.lists|
      ensures Fine(s.lists[a], s.recorded + [entry])
    {
      FineAsRecordsGrow(s.lists[a], s.recorded, entry);
    }
    HeldStaysFine(s.lists[attempt], s.recorded + [entry], entry.1);
  }

  lemma {:induction false} InvStep(s: Session, e: Event, candidates: seq<Candidate>, ctx: Context)
    requires Inv(s, candidates) && |s.lists| == |s.tools|
    ensures Inv(Step(s, e, candidates, ctx), candidates)
  {
    match e
    case Start(tools) =>
      assert Fine([], s.recorded);
    case Record(attempt, call) =>
      if attempt < |s.lists| {
        var list := s.lists[attempt];
        var outcome := Judged(call, s.recorded, |list|, s.tools[attempt], candidates, ctx);
        AcceptedIsFaithful(call, s.recorded, |list|, s.tools[attempt], candidates, ctx);
        if outcome.Accepted? {
          InvAccepted(s, attempt, (call.candidateId, outcome.finding), candidates);
        } else if outcome.AlreadyRecorded? && outcome.finding !in list {
          HeldStaysFine(list, s.recorded, outcome.finding);
        }
      }
  }

  lemma {:induction false} InvAlways(events: seq<Event>, candidates: seq<Candidate>, ctx: Context)
    ensures Inv(After(events, candidates, ctx), candidates)
  {
    if events != [] {
      InvAlways(events[..|events| - 1], candidates, ctx);
      InvStep(After(events[..|events| - 1], candidates, ctx), events[|events| - 1], candidates, ctx);
    }
  }

  // ---------------------------------------------------------------- the merge

  predicate HasCandidate(findings: seq<Finding>, id: string) {
    exists i :: 0 <= i < |findings| && findings[i].candidateId == Some(id)
  }

  /** The recorded findings whose candidate the final attempt's own list lacks. */
  function Missing(recorded: Recorded, findings: seq<Finding>): seq<Finding> {
    if recorded == [] then []
    else
      var (id, f) := recorded[|recorded| - 1];
      Missing(recorded[..|recorded| - 1], findings) + (if HasCandidate(findings, id) then [] else [f])
  }

  predicate LargerFirst(a: Finding, b: Finding) { a.increase >= b.increase }

  method MergeRecorded(findings: seq<Finding>, recorded: Recorded) returns (merged: seq<Finding>)
    ensures merged == Sort(findings + Missing(recorded, findings), LargerFirst)
  {
    var present: set<Option<string>> := {};
    for i := 0 to |findings|
      invariant forall id :: Some(id) in present <==> HasCandidate(findings[..i], id)
    {
      PrefixGrows(findings, i);
      present := present + {findings[i].candidateId};
    }
    assert findings[..|findings|] == findings;
    var missing := [];
    for i := 0 to |recorded|
      invariant missing == Missing(recorded[..i], findings)
    {
      PrefixGrows(recorded, i);
      if Some(recorded[i].0) !in present {
        missing := missing + [recorded[i].1];
      }
    }
    assert recorded[..|recorded|] == recorded;
    merged := Sort(findings + missing, LargerFirst);
  }

  lemma {:induction false} MissingMembers(recorded: Recorded, findings: seq<Finding>)
    ensures forall f :: f in Missing(recorded, findings) <==>
              exists i :: 0 <= i < |recorded| && recorded[i].1 == f && !HasCandidate(findings, recorded[i].0)
  {
    if recorded != [] {
      var init, last := recorded[..|recorded| - 1], recorded[|recorded| - 1];
      MissingMembers(init, findings);
      forall f
        ensures f in Missing(recorded, findings) <==>
                  exists i :: 0 <= i < |recorded| && recorded[i].1 == f && !HasCandidate(findings, recorded[i].0)
      {
        if f in Missing(init, findings) {
          var i :| 0 <= i < |init| && init[i].1 == f && !HasCandidate(findings, init[i].0);
          assert recorded[i] == init[i];
        }
        if i :| 0 <= i < |recorded| && recorded[i].1 == f && !HasCandidate(findings, recorded[i].0) {
          assert i < |init| ==> init[i] == recorded[i];
        }
      }
    }
  }

  lemma {:induction false} LastIsNew(recorded: Recorded, findings: seq<Finding>)
    requires recorded != [] && OncePerCandidate(Values(recorded))
    ensures var init, last := recorded[..|recorded| - 1], recorded[|recorded| - 1];
            && OncePerCandidate(Values(init))
            && forall f :: f in Missing(init, findings) ==> f.candidateId != last.1.candidateId
  {
    var init, last, values := recorded[..|recorded| - 1], recorded[|recorded| - 1], Values(recorded);
    assert forall i :: 0 <= i < |init| ==> init[i] == recorded[i] && Values(init)[i] == values[i];
    MissingMembers(init, findings);
    forall f | f in Missing(init, findings)
      ensures f.candidateId != last.1.candidateId
    {
      var i :| 0 <= i < |init| && init[i].1 == f && !HasCandidate(findings, init[i].0);
      assert values[i] == f && values[|init|] == last.1;
    }
  }

  lemma {:induction false} OneMoreOnce(findings: seq<Finding>, f: Finding)
    requires OncePerCandidate(findings) && forall g :: g in findings ==> g.candidateId != f.candidateId
    ensures OncePerCandidate(findings + [f])
  {
  }

  lemma {:induction false} MissingOnce(recorded: Recorded, findings: seq<Finding>)
    requires OncePerCandidate(Values(recorded))
    ensures OncePerCandidate(Missing(recorded, findings))
  {
    if recorded != [] {
      var init, last := recorded[..|recorded| - 1], recorded[|recorded| - 1];
      LastIsNew(recorded, findings);
      MissingOnce(init, findings);
      OneMoreOnce(Missing(init, findings), last.1);
    }
  }

  /** Without repetition, a multiset is its set of members. */
  lemma {:induction false} OnceMeansSet(findings: seq<Finding>)
    requires OncePerCandidate(findings)
    ensures forall f :: multiset(findings)[f] == if f in findings then 1 else 0
  {
    if findings != [] {
      var init, last := findings[..|findings| - 1], findings[|findings| - 1];
      OnceMeansSet(init);
      assert findings == init + [last];
      assert last !in init;
    }
  }

  lemma {:induction false} MergedMembers(recorded: Recorded, findings: seq<Finding>, candidates: seq<Candidate>)
    requires AllFaithful(recorded, candidates) && OncePerCandidate(Values(recorded)) && Fine(findings, recorded)
    ensures forall f :: f in findings + Missing(recorded, findings) <==> f in Values(recorded)
    ensures OncePerCandidate(findings + Missing(recorded, findings))
  {
    var missing, values := Missing(recorded, findings), Values(recorded);
    MissingMembers(recorded, findings);
    MissingOnce(recorded, findings);
    forall f | f in missing
      ensures f in values && forall i :: 0 <= i < |findings| ==> findings[i].candidateId != f.candidateId
    {
      var i :| 0 <= i < |recorded| && recorded[i].1 == f && !HasCandidate(findings, recorded[i].0);
      assert Faithful(recorded[i], candidates) && values[i] == f;
    }
    forall i | 0 <= i < |values|
      ensures values[i] in findings || values[i] in missing
    {
      assert Faithful(recorded[i], candidates);
      if HasCandidate(findings, recorded[i].0) {
        var j :| 0 <= j < |findings| && findings[j].candidateId == Some(recorded[i].0);
        SameCandidateSameFinding(recorded, findings[j], values[i]);
      }
    }
  }

  lemma {:induction false} MergedIsRecorded(recorded: Recorded, findings: seq<Finding>, candidates: seq<Candidate>)
    requires AllFaithful(recorded, candidates) && OncePerCandidate(Values(recorded)) && Fine(findings, recorded)
    ensures multiset(findings + Missing(recorded, findings)) == multiset(Values(recorded))
  {
    MergedMembers(recorded, findings, candidates);
    SameMembers(findings + Missing(recorded, findings), Values(recorded));
  }

  lemma {:induction false} SameMembers(a: seq<Finding>, b: seq<Finding>)
    requires OncePerCandidate(a) && OncePerCandidate(b) && forall f :: f in a <==> f in b
    ensures multiset(a) == multiset(b)
  {
    OnceMeansSet(a);
    OnceMeansSet(b);
    assert forall f :: multiset(a)[f] == multiset(b)[f];
  }

  /** What the engine returns when attempt `last` succeeds. */
  function Merged(s: Session, last: nat): seq<Finding>
    requires last < |s.lists|
  {
    Sort(s.lists[last] + Missing(s.recorded, s.lists[last]), LargerFirst)
  }

  /** Main result: for every sequence of attempts and calls, and whichever attempt succeeds,
      the merged result holds exactly the recorded findings, one per recorded candidate, each
      with its candidate's measured change in cents, largest first. */
  lemma {:induction false} MergeIsExact(events: seq<Event>, candidates: seq<Candidate>, ctx: Context, last: nat)
    requires last < |After(events, candidates, ctx).lists|
    ensures var s := After(events, candidates, ctx);
            && multiset(Merged(s, last)) == multiset(Values(s.recorded)) && OncePerCandidate(Values(s.recorded))
            && AllFaithful(s.recorded, candidates)
            && forall i, j :: 0 <= i < j < |Merged(s, last)| ==> Merged(s, last)[i].increase >= Merged(s, last)[j].increase
  {
    InvAlways(events, candidates, ctx);
    var s := After(events, candidates, ctx);
    assert Fine(s.lists[last], s.recorded);
    MergedIsRecorded(s.recorded, s.lists[last], candidates);
    SortPermutes(s.lists[last] + Missing(s.recorded, s.lists[last]), LargerFirst);
    MergedOrdered(s.lists[last] + Missing(s.recorded, s.lists[last]));
    assert Ordered(Merged(s, last), LargerFirst);
  }

  lemma {:induction false} MergedOrdered(findings: seq<Finding>)
    ensures Ordered(Sort(findings, LargerFirst), LargerFirst)
  {
    if findings != [] {
      assert IsOrder(LargerFirst);
      SortIsStable(findings, findings[0], LargerFirst);
    }
  }

  /** What was recorded once stays, in its place, whatever later attempts do. */
  lemma {:induction false} RecordedStays(s: Session, e: Event, candidates: seq<Candidate>, ctx: Context)
    requires |s.lists| == |s.tools|
    ensures s.recorded <= Step(s, e, candidates, ctx).recorded
  {
  }

  // ---------------------------------------------------------------- finding ids

  function ValueOf(digits: string): int {
    if digits == "" then 0
    else ValueOf(digits[..|digits| - 1]) * 10 + (digits[|digits| - 1] as int - '0' as int)
  }

  lemma {:induction false} DigitsRoundTrip(n: nat)
    ensures ValueOf(Digits(n)) == n && (n < 10 ==> |Digits(n)| == 1) && Digits(n) != ""
  {
    if n < 10 {
      assert Digits(n)[..0] == "";
    } else {
      DigitsRoundTrip(n / 10);
      DigitsRoundTrip(n % 10);
      var digits := Digits(n);
      assert digits[..|digits| - 1] == Digits(n / 10) && Digits(n % 10)[..0] == "";
    }
  }

  lemma {:induction false} FindingIdsTellIndexesApart(tag: string, i: nat, j: nat)
    requires FindingId(tag, i) == FindingId(tag, j)
    ensures i == j
  {
    IndexOf(tag, i);
    IndexOf(tag, j);
  }

  lemma {:induction false} IndexOf(tag: string, i: nat)
    ensures |FindingId(tag, i)| >= |tag| + 2 && ValueOf(FindingId(tag, i)[|tag| + 2..]) == i
  {
    DigitsRoundTrip(i);
    var digits := (if i < 10 then "0" else "") + Digits(i);
    assert FindingId(tag, i)[|tag| + 2..] == digits;
    if i < 10 {
      assert digits[..1] == "0" && "0"[..0] == "" && Digits(i)[..0] == "";
      assert ValueOf(digits[..1]) == 0;
    } else {
      assert digits == Digits(i);
    }
  }

  predicate InOrder(s: Session, ctx: Context) {
    && (s.lists == [] ==> s.recorded == []) && (s.lists != [] ==> s.lists[0] == Values(s.recorded))
    && IdsInOrder(s.recorded, ctx)
  }

  predicate IdsInOrder(recorded: Recorded, ctx: Context) {
    forall i :: 0 <= i < |recorded| ==> recorded[i].1.id == FindingId(ctx.tag, i + 1)
  }

  lemma {:induction false} OneMoreInOrder(recorded: Recorded, entry: (string, Finding), ctx: Context)
    requires IdsInOrder(recorded, ctx) && entry.1.id == FindingId(ctx.tag, |recorded| + 1)
    ensures IdsInOrder(recorded + [entry], ctx)
  {
  }

  lemma {:induction false} AcceptedIsNumbered(
      call: Call, recorded: Recorded, held: nat, tools: Prepared, candidates: seq<Candidate>, ctx: Context)
    ensures var outcome := Judged(call, recorded, held, tools, candidates, ctx);
            outcome.Accepted? ==> outcome.finding.id == FindingId(ctx.tag, held + 1)
  {
  }

  lemma {:induction false} InOrderAccepted(s: Session, id: string, finding: Finding, ctx: Context)
    requires InOrder(s, ctx) && |s.lists| == 1 && finding.id == FindingId(ctx.tag, |s.recorded| + 1)
    ensures InOrder(Session(s.recorded + [(id, finding)], [s.lists[0] + [finding]], s.tools), ctx)
  {
    ValuesGrow(s.recorded, (id, finding));
    OneMoreInOrder(s.recorded, (id, finding), ctx);
  }

  lemma {:induction false} InOrderOutcome(s: Session, id: string, outcome: Outcome, ctx: Context)
    requires InOrder(s, ctx) && |s.lists| == |s.tools| == 1
    requires outcome.Accepted? ==> outcome.finding.id == FindingId(ctx.tag, |s.recorded| + 1)
    requires outcome.AlreadyRecorded? ==> outcome.finding in Values(s.recorded)
    ensures InOrder(Session(Kept(s.recorded, id, outcome), [Held(s.lists[0], outcome)], s.tools), ctx)
  {
    if outcome.Accepted? {
      InOrderAccepted(s, id, outcome.finding, ctx);
    }
  }

  lemma {:induction false} InOrderRecord(s: Session, call: Call, candidates: seq<Candidate>, ctx: Context)
    requires InOrder(s, ctx) && |s.lists| == |s.tools| == 1
    ensures InOrder(Step(s, Record(0, call), candidates, ctx), ctx)
  {
    var outcome := Judged(call, s.recorded, |s.lists[0]|, s.tools[0], candidates, ctx);
    AcceptedIsFaithful(call, s.recorded, |s.lists[0]|, s.tools[0], candidates, ctx);
    AcceptedIsNumbered(call, s.recorded, |s.lists[0]|, s.tools[0], candidates, ctx);
    InOrderOutcome(s, call.candidateId, outcome, ctx);
    assert s.lists[0 := Held(s.lists[0], outcome)] == [Held(s.lists[0], outcome)];
  }

  /** Within one attempt the findings are numbered as they are recorded, so ids differ. */
  lemma {:induction false} OneAttemptNumbersInOrder(events: seq<Event>, candidates: seq<Candidate>, ctx: Context)
    requires |After(events, candidates, ctx).lists| <= 1
    ensures InOrder(After(events, candidates, ctx), ctx)
  {
    if events != [] {
      var before, e := After(events[..|events| - 1], candidates, ctx), events[|events| - 1];
      OneAttemptNumbersInOrder(events[..|events| - 1], candidates, ctx);
      if e.Record? && e.attempt < |before.lists| {
        InOrderRecord(before, e.call, candidates, ctx);
      }
    }
  }

  lemma {:induction false} OneAttemptIdsDiffer(events: seq<Event>, candidates: seq<Candidate>, ctx: Context, i: nat, j: nat)
    requires |After(events, candidates, ctx).lists| <= 1 && i < j < |After(events, candidates, ctx).recorded|
    ensures var recorded := After(events, candidates, ctx).recorded; recorded[i].1.id != recorded[j].1.id
  {
    OneAttemptNumbersInOrder(events, candidates, ctx);
    if FindingId(ctx.tag, i + 1) == FindingId(ctx.tag, j + 1) {
      FindingIdsTellIndexesApart(ctx.tag, i + 1, j + 1);
    }
  }

  /** How many findings its attempt held when each recorded finding was accepted. */
  function HeldThen(events: seq<Event>, candidates: seq<Candidate>, ctx: Context): seq<nat> {
    if events == [] then []
    else
      var init, e := events[..|events| - 1], events[|events| - 1];
      var before := After(init, candidates, ctx);
      HeldThen(init, candidates, ctx) + NewlyHeld(before, e, candidates, ctx)
  }

  function NewlyHeld(s: Session, e: Event, candidates: seq<Candidate>, ctx: Context): seq<nat>
    requires |s.lists| == |s.tools|
  {
    if e.Record? && e.attempt < |s.lists|
       && Judged(e.call, s.recorded, |s.lists[e.attempt]|, s.tools[e.attempt], candidates, ctx).Accepted?
    then [|s.lists[e.attempt]|] else []
  }

  predicate NumberedBy(recorded: Recorded, held: seq<nat>, ctx: Context) {
    |held| == |recorded| && forall i :: 0 <= i < |held| ==> recorded[i].1.id == FindingId(ctx.tag, held[i] + 1)
  }

  lemma {:induction false} OneMoreNumbered(recorded: Recorded, held: seq<nat>, entry: (string, Finding), n: nat, ctx: Context)
    requires NumberedBy(recorded, held, ctx) && entry.1.id == FindingId(ctx.tag, n + 1)
    ensures NumberedBy(recorded + [entry], held + [n], ctx)
  {
  }

  lemma {:induction false} StepIsNumbered(s: Session, held: seq<nat>, e: Event, candidates: seq<Candidate>, ctx: Context)
    requires |s.lists| == |s.tools| && NumberedBy(s.recorded, held, ctx)
    ensures NumberedBy(Step(s, e, candidates, ctx).recorded, held + NewlyHeld(s, e, candidates, ctx), ctx)
  {
    if e.Record? && e.attempt < |s.lists| {
      var n := |s.lists[e.attempt]|;
      var outcome := Judged(e.call, s.recorded, n, s.tools[e.attempt], candidates, ctx);
      AcceptedIsNumbered(e.call, s.recorded, n, s.tools[e.attempt], candidates, ctx);
      if outcome.Accepted? {
        OneMoreNumbered(s.recorded, held, (e.call.candidateId, outcome.finding), n, ctx);
      } else {
        assert held + [] == held;
      }
    } else {
      assert held + [] == held;
    }
  }

  lemma {:induction false} IdsAreNumbers(events: seq<Event>, candidates: seq<Candidate>, ctx: Context)
    ensures NumberedBy(After(events, candidates, ctx).recorded, HeldThen(events, candidates, ctx), ctx)
  {
    if events != [] {
      var init, e := events[..|events| - 1], events[|events| - 1];
      IdsAreNumbers(init, candidates, ctx);
      StepIsNumbered(After(init, candidates, ctx), HeldThen(init, candidates, ctx), e, candidates, ctx);
    }
  }

  /** Main result, for every run: two recorded findings share an id if and only if their
      attempts held the same number of findings when each was recorded. */
  lemma {:induction false} SharedIdIff(events: seq<Event>, candidates: seq<Candidate>, ctx: Context, i: nat, j: nat)
    requires i < |After(events, candidates, ctx).recorded| && j < |After(events, candidates, ctx).recorded|
    ensures var recorded, held := After(events, candidates, ctx).recorded, HeldThen(events, candidates, ctx);
            && |held| == |recorded|
            && (recorded[i].1.id == recorded[j].1.id <==> held[i] == held[j])
  {
    IdsAreNumbers(events, candidates, ctx);
    var held := HeldThen(events, candidates, ctx);
    if FindingId(ctx.tag, held[i] + 1) == FindingId(ctx.tag, held[j] + 1) {
      FindingIdsTellIndexesApart(ctx.tag, held[i] + 1, held[j] + 1);
    }
  }

  predicate Recordable(call: Call, tools: Prepared, candidates: seq<Candidate>) {
    && FindCandidate(candidates, call.candidateId).Some? && call.candidateId in tools.selected
    && call.evidenceIds != [] && forall i :: 0 <= i < |call.evidenceIds| ==> call.evidenceIds[i] in tools.pool
  }

  /** A call that cites the first piece of evidence prepared for its candidate. */
  function CiteFirst(id: string, tools: Prepared, prose: Prose): Call
    requires id in tools.gathered && tools.gathered[id] != []
  {
    Call(id, "", [tools.gathered[id][0].id], prose, "low")
  }

  lemma {:induction false} CandidateIsFound(candidates: seq<Candidate>, i: nat)
    requires i < |candidates|
    ensures FindCandidate(candidates, candidates[i].id).Some?
  {
    if i > 0 {
      CandidateIsFound(candidates[1..], i - 1);
    }
  }

  lemma {:induction false} CiteFirstIsRecordable(
      id: string, tools: Prepared, prose: Prose, candidates: seq<Candidate>, specs: seq<Spec>, ctx: Context, first: nat, last: nat)
    requires Covers(tools, candidates, specs, ctx, first, last) && id in tools.gathered
    ensures tools.gathered[id] != [] && Recordable(CiteFirst(id, tools, prose), tools, candidates)
  {
    assert Citable(tools.gathered[id], tools.pool);
    var i := PreparedIsACandidate(tools.selected[id], tools.gathered[id], id, candidates, specs, ctx);
    CandidateIsFound(candidates, i);
    CiteOne(CiteFirst(id, tools, prose), tools, candidates);
  }

  lemma {:induction false} CiteOne(call: Call, tools: Prepared, candidates: seq<Candidate>)
    requires |call.evidenceIds| == 1 && call.evidenceIds[0] in tools.pool
    requires FindCandidate(candidates, call.candidateId).Some? && call.candidateId in tools.selected
    ensures Recordable(call, tools, candidates)
  {
  }

  lemma {:induction false} PreparedIsACandidate(
      spec: Spec, evidence: seq<Evidence>, id: string, candidates: seq<Candidate>, specs: seq<Spec>, ctx: Context) returns (i: nat)
    requires PreparedFor(spec, evidence, id, candidates, specs, ctx)
    ensures i < |candidates| && candidates[i].id == id
  {
    i :| 0 <= i < |candidates| && candidates[i].id == id && LastOfItsId(candidates, i);
  }

  /** A retry numbers from one again: whatever two attempts were prepared with, one after the
      other, when the first records one candidate and fails and the second starts with
      another, the two findings share an id. */
  lemma {:induction false} RetriesReuseIds(
      t1: Prepared, t2: Prepared, n0: nat, n1: nat, n2: nat, a: string, b: string, prose: Prose,
      candidates: seq<Candidate>, specs: seq<Spec>, ctx: Context)
    requires Covers(t1, candidates, specs, ctx, n0, n1) && Covers(t2, candidates, specs, ctx, n1, n2)
    requires a != b && a in t1.gathered && b in t2.gathered
    ensures t1.gathered[a] != [] && t2.gathered[b] != []
    ensures var events := [Start(t1), Record(0, CiteFirst(a, t1, prose)), Start(t2), Record(1, CiteFirst(b, t2, prose))];
            var s := After(events, candidates, ctx);
            && |s.recorded| == 2 && s.recorded[0].0 == a && s.recorded[1].0 == b
            && s.recorded[0].1.id == s.recorded[1].1.id
  {
    CiteFirstIsRecordable(a, t1, prose, candidates, specs, ctx, n0, n1);
    CiteFirstIsRecordable(b, t2, prose, candidates, specs, ctx, n1, n2);
    TwoAttempts(t1, t2, CiteFirst(a, t1, prose), CiteFirst(b, t2, prose), candidates, ctx);
  }

  lemma {:induction false} AfterOneMore(events: seq<Event>, e: Event, candidates: seq<Candidate>, ctx: Context)
    ensures After(events + [e], candidates, ctx) == Step(After(events, candidates, ctx), e, candidates, ctx)
  {
    assert (events + [e])[..|events|] == events;
  }

  /** An attempt that starts and records a candidate nobody has recorded yet. */
  lemma {:induction false} StartAndRecord(events: seq<Event>, t: Prepared, call: Call, candidates: seq<Candidate>, ctx: Context)
    requires Recordable(call, t, candidates) && Lookup(After(events, candidates, ctx).recorded, call.candidateId).None?
    ensures var before := After(events, candidates, ctx);
            var s := After(events + [Start(t)] + [Record(|before.lists|, call)], candidates, ctx);
            && |s.recorded| == |before.recorded| + 1 && s.recorded[..|before.recorded|] == before.recorded
            && s.recorded[|before.recorded|].0 == call.candidateId
            && s.recorded[|before.recorded|].1.id == FindingId(ctx.tag, 1)
            && |s.lists| == |before.lists| + 1
  {
    var before := After(events, candidates, ctx);
    AfterOneMore(events, Start(t), candidates, ctx);
    AfterOneMore(events + [Start(t)], Record(|before.lists|, call), candidates, ctx);
    RecordOnFresh(Step(before, Start(t), candidates, ctx), |before.lists|, call, candidates, ctx);
  }

  /** A first attempt that records one candidate. */
  lemma {:induction false} OneAttempt(t: Prepared, call: Call, candidates: seq<Candidate>, ctx: Context)
    returns (entry: (string, Finding))
    requires Recordable(call, t, candidates)
    ensures var s := After([] + [Start(t)] + [Record(0, call)], candidates, ctx); s.recorded == [entry] && |s.lists| == 1
    ensures entry.0 == call.candidateId && entry.1.id == FindingId(ctx.tag, 1)
  {
    StartAndRecord([], t, call, candidates, ctx);
    entry := After([] + [Start(t)] + [Record(0, call)], candidates, ctx).recorded[0];
  }

  lemma {:induction false} FourEvents(a: Event, b: Event, c: Event, d: Event)
    ensures [] + [a] + [b] + [c] + [d] == [a, b, c, d]
  {
  }

  lemma {:induction false} TwoAttempts(t1: Prepared, t2: Prepared, a: Call, b: Call, candidates: seq<Candidate>, ctx: Context)
    requires a.candidateId != b.candidateId && Recordable(a, t1, candidates) && Recordable(b, t2, candidates)
    ensures var s := After([Start(t1), Record(0, a), Start(t2), Record(1, b)], candidates, ctx);
            && |s.recorded| == 2 && s.recorded[0].0 == a.candidateId && s.recorded[1].0 == b.candidateId
            && s.recorded[0].1.id == s.recorded[1].1.id
  {
    var entry := OneAttempt(t1, a, candidates, ctx);
    NobodyElse(entry, b.candidateId);
    StartAndRecord([] + [Start(t1)] + [Record(0, a)], t2, b, candidates, ctx);
    FourEvents(Start(t1), Record(0, a), Start(t2), Record(1, b));
  }

  lemma {:induction false} NobodyElse(entry: (string, Finding), id: string)
    requires entry.0 != id
    ensures Lookup([entry], id).None?
  {
  }

  lemma {:induction false} RecordOnFresh(s: Session, attempt: nat, call: Call, candidates: seq<Candidate>, ctx: Context)
    requires |s.lists| == |s.tools| && attempt < |s.lists| && s.lists[attempt] == []
    requires Recordable(call, s.tools[attempt], candidates) && Lookup(s.recorded, call.candidateId).None?
    ensures var after := Step(s, Record(attempt, call), candidates, ctx);
            && |after.recorded| == |s.recorded| + 1 && after.recorded[..|s.recorded|] == s.recorded
            && after.recorded[|s.recorded|].0 == call.candidateId
            && after.recorded[|s.recorded|].1.id == FindingId(ctx.tag, 1)
            && |after.lists| == |s.lists| && after.tools == s.tools
  {
  }
}
