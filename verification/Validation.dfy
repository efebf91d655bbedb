/**
 The evidence gate: findings are claims, and what the evidence, the deterministic layer and
 the supplied sources cannot carry is lowered, rewritten or dropped before publication.
 */
module Validation {
  import opened Common
  import opened Maths
  import opened Strings
  import opened Findings
  import opened Sorting

  const HIGH_CONFIDENCE := 0.8
  const MIN_EVIDENCE := 3
  const MANUAL_REVIEW := "review manually or supply more sources"

  /** What the gate checks claims against; `sources` is absent when nobody asked. */
  datatype Known = Known(
    resources: map<string, set<string>>, changes: map<string, real>, sources: Option<map<string, set<Kind>>>)

  datatype Code =
    | MissingEvidence | EvidenceWithoutProvenance | UnsupportedResource | CostMismatch | UnknownCandidate
    | MissingRule | StaleRule(rule: string) | UndatedRule(rule: string) | RetroactiveRule(rule: string)
    | RuleWithoutSource(rule: string) | InsufficientCorroboration | UntrustedText
    | DuplicateResource(resource: string, previous: string) | CauseUnsupported

  datatype Issue = Issue(code: Code, findingId: string, provider: string)

  // ---------------------------------------------------------------- what each rule looks at

  function Corroborating(): set<Kind> { {Metric, Audit, Recommendation} }

  function CauseSources(): set<Kind> { {Metric, Audit, Inventory, Recommendation} }

  predicate Supported(provider: string, resource: string, k: Known) {
    || provider !in k.resources || k.resources[provider] == {}
    || resource in k.resources[provider] || StartsWith(resource, provider + ":")
  }

  function SupportedOnly(provider: string, resources: seq<string>, k: Known): seq<string> {
    if resources == [] then []
    else (if Supported(provider, resources[0], k) then [resources[0]] else []) + SupportedOnly(provider, resources[1..], k)
  }

  predicate AnyUnsupported(provider: string, resources: seq<string>, k: Known) {
    exists i :: 0 <= i < |resources| && !Supported(provider, resources[i], k)
  }

  predicate ClaimsUnsupported(f: Finding, k: Known) {
    AnyUnsupported(f.provider, f.resources, k)
  }

  predicate CitesKnown(f: Finding, k: Known) { f.candidateId.GetOr("") in k.changes }

  function Measured(f: Finding, k: Known): real {
    if CitesKnown(f, k) then k.changes[f.candidateId.GetOr("")] else 0.0
  }

  function Tolerance(expected: real): real { Max(0.01 * Max(Abs(expected), 1.0), 0.02) }

  predicate Mismatched(f: Finding, k: Known) {
    CitesKnown(f, k) && Abs(f.increase - Measured(f, k)) > Tolerance(Measured(f, k))
  }

  predicate Retroactive(c: Citation) {
    c.validFrom.Some? && c.selectedFor.Some? && c.selectedFor.value < c.validFrom.value
  }

  predicate Doubtful(c: Citation) { c.stale || c.validFrom.None? }

  predicate AnyDoubtful(rules: seq<Citation>) { exists i :: 0 <= i < |rules| && Doubtful(rules[i]) }

  predicate AnyRetroactive(rules: seq<Citation>) { exists i :: 0 <= i < |rules| && Retroactive(rules[i]) }

  predicate Corroborated(evidence: seq<Evidence>) {
    |evidence| >= MIN_EVIDENCE && exists i :: 0 <= i < |evidence| && evidence[i].kind in Corroborating()
  }

  predicate Untrusted(evidence: seq<Evidence>) { exists i :: 0 <= i < |evidence| && evidence[i].untrusted }

  predicate NoCauseSources(provider: string, k: Known) {
    k.sources.Some? && provider in k.sources.value && k.sources.value[provider] !! CauseSources()
  }

  // ---------------------------------------------------------------- the gate's meaning

  predicate Droppable(f: Finding) { f.evidence == [] || AnyRetroactive(f.rules) }

  /** The confidence the claim carries before corroboration is looked at. */
  function Lowered(f: Finding, k: Known): real {
    CapIf(CapIf(CapIf(f.confidence, ClaimsUnsupported(f, k), 0.4), f.rules == [], 0.45), AnyDoubtful(f.rules), 0.6)
  }

  function GatedConfidence(f: Finding, k: Known): real {
    var lowered := Lowered(f, k);
    CapIf(CapIf(lowered, lowered >= HIGH_CONFIDENCE && !Corroborated(f.evidence), 0.7), NoCauseSources(f.provider, k), 0.4)
  }

  function Target(f: Finding, resources: seq<string>): string {
    if resources != [] then resources[0] else if f.service.GetOr("") != "" then f.service.value else f.category
  }

  function UnexplainedCause(target: string): string { "unexplained cost increase on " + target }

  predicate Rewritten(f: Finding, k: Known) { NoCauseSources(f.provider, k) && f.category != FALLBACK_CATEGORY }

  /** What the gate turns a finding into, field by field. */
  function Gated(f: Finding, k: Known): Finding {
    var resources := SupportedOnly(f.provider, f.resources, k);
    var target := Target(f, resources);
    f.(resources := resources,
       confidence := GatedConfidence(f, k),
       increase := if Mismatched(f, k) then Cents(Measured(f, k)) else f.increase,
       uncertain := f.uncertain || ClaimsUnsupported(f, k) || Mismatched(f, k) || f.rules == [] || AnyDoubtful(f.rules)
                    || NoCauseSources(f.provider, k),
       category := if Rewritten(f, k) then FALLBACK_CATEGORY else f.category,
       rootCause := if Rewritten(f, k) then UnexplainedCause(target) else f.rootCause,
       recommendation := if Rewritten(f, k) then MANUAL_REVIEW else f.recommendation,
       warnings := f.warnings + (if NoCauseSources(f.provider, k) then [Unconfirmed(target)] else []))
  }

  /** The gated findings with the given verdict, in input order. */
  function Sifted(fs: seq<Finding>, k: Known, drop: bool): seq<Finding> {
    if fs == [] then []
    else
      var before, f := Sifted(fs[..|fs| - 1], k, drop), fs[|fs| - 1];
      if Droppable(f) == drop then before + [Gated(f, k)] else before
  }

  function RuleCodes(rules: seq<Citation>): seq<Code> {
    if rules == [] then [] else RuleCodes(rules[..|rules| - 1]) + CitationCodes(rules[|rules| - 1])
  }

  function CitationCodes(c: Citation): seq<Code> {
    (if c.stale then [StaleRule(c.ruleId)] else [])
    + (if c.validFrom.None? then [UndatedRule(c.ruleId)] else if Retroactive(c) then [RetroactiveRule(c.ruleId)] else [])
    + (if c.sourceUrl == "" then [RuleWithoutSource(c.ruleId)] else [])
  }

  function EvidenceCodes(f: Finding): seq<Code> {
    if f.evidence == [] then [MissingEvidence]
    else if exists i :: 0 <= i < |f.evidence| && f.evidence[i].reference == "" then [EvidenceWithoutProvenance]
    else []
  }

  function AttributionCodes(f: Finding, k: Known): seq<Code> {
    if CitesKnown(f, k) then (if Mismatched(f, k) then [CostMismatch] else [])
    else if f.candidateId.GetOr("") != "" then [UnknownCandidate] else []
  }

  function ClaimCodes(f: Finding, k: Known): seq<Code> {
    (if ClaimsUnsupported(f, k) then [UnsupportedResource] else []) + AttributionCodes(f, k)
  }

  type Seen = map<string, string>

  function DuplicateCodes(resources: seq<string>, id: string, seen: Seen): seq<Code> {
    if resources == [] then []
    else
      var init, r := resources[..|resources| - 1], resources[|resources| - 1];
      DuplicateCodes(init, id, seen)
      + (if r in seen && seen[r] != "" && seen[r] != id then [DuplicateResource(r, seen[r])] else [])
  }

  /** Who claimed a resource first. */
  function Claimed(resources: seq<string>, id: string, seen: Seen): Seen {
    seen + map r | r in resources && r !in seen :: id
  }

  function SeenAfter(fs: seq<Finding>, k: Known): Seen {
    if fs == [] then map[]
    else
      var f := fs[|fs| - 1];
      Claimed(SupportedOnly(f.provider, f.resources, k), f.id, SeenAfter(fs[..|fs| - 1], k))
  }

  function HeardCodes(f: Finding, k: Known): seq<Code> {
    EvidenceCodes(f) + ClaimCodes(f, k)
    + (if f.rules == [] then [MissingRule] else RuleCodes(f.rules))
    + (if Lowered(f, k) >= HIGH_CONFIDENCE && !Corroborated(f.evidence) then [InsufficientCorroboration] else [])
  }

  function Codes(f: Finding, k: Known, seen: Seen): seq<Code> {
    HeardCodes(f, k)
    + (if Untrusted(f.evidence) then [UntrustedText] else [])
    + DuplicateCodes(SupportedOnly(f.provider, f.resources, k), f.id, seen)
    + (if Rewritten(f, k) then [CauseUnsupported] else [])
  }

  function Stamped(codes: seq<Code>, f: Finding): (issues: seq<Issue>)
    ensures |issues| == |codes|
    ensures forall i :: 0 <= i < |codes| ==> issues[i] == Issue(codes[i], f.id, f.provider)
  {
    if codes == [] then [] else [Issue(codes[0], f.id, f.provider)] + Stamped(codes[1..], f)
  }

  function AllIssues(fs: seq<Finding>, k: Known): seq<Issue> {
    if fs == [] then []
    else
      var init, f := fs[..|fs| - 1], fs[|fs| - 1];
      AllIssues(init, k) + Stamped(Codes(f, k, SeenAfter(init, k)), f)
  }

  // ---------------------------------------------------------------- the gate, step by step

  method CheckRule(f: Finding, rule: Citation) returns (working: Finding, retroactive: bool)
    ensures retroactive == Retroactive(rule)
    ensures working == f.(confidence := CapIf(f.confidence, Doubtful(rule), 0.6), uncertain := f.uncertain || Doubtful(rule))
  {
    working, retroactive := f, false;
    if rule.stale {
      working := working.(uncertain := true, confidence := Min(working.confidence, 0.6));
    }
    if rule.validFrom.None? {
      working := working.(uncertain := true, confidence := Min(working.confidence, 0.6));
    } else if rule.selectedFor.Some? && rule.selectedFor.value < rule.validFrom.value {
      retroactive := true;
    }
  }

  lemma {:induction false} VerdictsGrow(rules: seq<Citation>, i: nat)
    requires i < |rules|
    ensures AnyRetroactive(rules[..i + 1]) == (AnyRetroactive(rules[..i]) || Retroactive(rules[i]))
    ensures AnyDoubtful(rules[..i + 1]) == (AnyDoubtful(rules[..i]) || Doubtful(rules[i]))
    ensures RuleCodes(rules[..i + 1]) == RuleCodes(rules[..i]) + CitationCodes(rules[i])
  {
    var after, init := rules[..i + 1], rules[..i];
    assert after[..i] == init && after[i] == rules[i];
    assert forall j :: 0 <= j < i ==> after[j] == init[j];
  }

  method CheckRules(f: Finding) returns (working: Finding, codes: seq<Code>, drop: bool)
    ensures codes == if f.rules == [] then [MissingRule] else RuleCodes(f.rules)
    ensures drop == AnyRetroactive(f.rules)
    ensures working == f.(confidence := CapIf(CapIf(f.confidence, f.rules == [], 0.45), AnyDoubtful(f.rules), 0.6),
                          uncertain := f.uncertain || f.rules == [] || AnyDoubtful(f.rules))
  {
    working, codes, drop := f, [], false;
    for i := 0 to |f.rules|
      invariant codes == RuleCodes(f.rules[..i]) && drop == AnyRetroactive(f.rules[..i])
      invariant working == f.(confidence := CapIf(f.confidence, AnyDoubtful(f.rules[..i]), 0.6),
                              uncertain := f.uncertain || AnyDoubtful(f.rules[..i]))
    {
      VerdictsGrow(f.rules, i);
      codes := codes + CitationCodes(f.rules[i]);
      var after, retroactive := CheckRule(working, f.rules[i]);
      working, drop := after, drop || retroactive;
    }
    assert f.rules[..|f.rules|] == f.rules;
    if f.rules == [] {
      working, codes := f.(uncertain := true, confidence := Min(f.confidence, 0.45)), [MissingRule];
    }
  }

  lemma {:induction false} ClaimedOneMore(resources: seq<string>, r: string, id: string, seen0: Seen)
    ensures var seen := Claimed(resources, id, seen0);
            && Claimed(resources + [r], id, seen0) == (if r in seen then seen else seen[r := id])
            && (r in seen && seen[r] != id <==> r in seen0 && seen0[r] != id)
            && (r in seen0 ==> r in seen && seen[r] == seen0[r])
  {
  }

  method NoteResources(resources: seq<string>, id: string, seen0: Seen) returns (seen: Seen, codes: seq<Code>)
    ensures seen == Claimed(resources, id, seen0) && codes == DuplicateCodes(resources, id, seen0)
  {
    seen, codes := seen0, [];
    for i := 0 to |resources|
      invariant seen == Claimed(resources[..i], id, seen0)
      invariant codes == DuplicateCodes(resources[..i], id, seen0)
    {
      var r := resources[i];
      PrefixGrows(resources, i);
      ClaimedOneMore(resources[..i], r, id, seen0);
      if r in seen && seen[r] != "" && seen[r] != id {
        codes := codes + [DuplicateResource(r, seen[r])];
      }
      if r !in seen {
        seen := seen[r := id];
      }
    }
    assert resources[..|resources|] == resources;
  }

  method CheckClaims(f: Finding, k: Known) returns (working: Finding, codes: seq<Code>)
    ensures codes == ClaimCodes(f, k)
    ensures working == f.(resources := SupportedOnly(f.provider, f.resources, k),
                          confidence := CapIf(f.confidence, ClaimsUnsupported(f, k), 0.4),
                          increase := if Mismatched(f, k) then Cents(Measured(f, k)) else f.increase,
                          uncertain := f.uncertain || ClaimsUnsupported(f, k) || Mismatched(f, k))
  {
    working, codes := f, [];
    if ClaimsUnsupported(f, k) {
      codes := [UnsupportedResource];
      working := working.(resources := SupportedOnly(f.provider, f.resources, k), uncertain := true,
                          confidence := Min(working.confidence, 0.4));
    } else {
      AllSupportedStay(f.provider, f.resources, k);
    }
    if working.candidateId.GetOr("") in k.changes {
      var expected := k.changes[working.candidateId.GetOr("")];
      if Abs(working.increase - expected) > Tolerance(expected) {
        codes := codes + [CostMismatch];
        working := working.(increase := Cents(expected), uncertain := true);
      }
    } else if working.candidateId.GetOr("") != "" {
      codes := codes + [UnknownCandidate];
    }
  }

  lemma {:induction false} AllSupportedStay(provider: string, resources: seq<string>, k: Known)
    requires !AnyUnsupported(provider, resources, k)
    ensures SupportedOnly(provider, resources, k) == resources
  {
    if resources != [] {
      AllSupportedStay(provider, resources[1..], k);
    }
  }

  method CheckCause(f: Finding, k: Known) returns (working: Finding, codes: seq<Code>, missing: bool)
    ensures missing == NoCauseSources(f.provider, k) && codes == if Rewritten(f, k) then [CauseUnsupported] else []
    ensures working == Confessed(f, k)
  {
    working, codes, missing := f, [], NoCauseSources(f.provider, k);
    if missing {
      var target := Target(f, f.resources);
      if working.category != FALLBACK_CATEGORY {
        codes := [CauseUnsupported];
        working := working.(category := FALLBACK_CATEGORY, rootCause := UnexplainedCause(target),
                            recommendation := MANUAL_REVIEW);
      }
      working := working.(uncertain := true, confidence := Min(working.confidence, 0.4),
                          warnings := working.warnings + [Unconfirmed(target)]);
    }
  }

  /** A finding whose resources are already filtered, after the rule on naming causes. */
  function Confessed(f: Finding, k: Known): Finding {
    var target := Target(f, f.resources);
    f.(category := if Rewritten(f, k) then FALLBACK_CATEGORY else f.category,
       rootCause := if Rewritten(f, k) then UnexplainedCause(target) else f.rootCause,
       recommendation := if Rewritten(f, k) then MANUAL_REVIEW else f.recommendation,
       uncertain := f.uncertain || NoCauseSources(f.provider, k),
       confidence := CapIf(f.confidence, NoCauseSources(f.provider, k), 0.4),
       warnings := f.warnings + (if NoCauseSources(f.provider, k) then [Unconfirmed(target)] else []))
  }

  /** A finding after every rule but the one on naming causes. */
  function Heard(f: Finding, k: Known): Finding {
    var lowered := Lowered(f, k);
    f.(resources := SupportedOnly(f.provider, f.resources, k),
       confidence := CapIf(lowered, lowered >= HIGH_CONFIDENCE && !Corroborated(f.evidence), 0.7),
       increase := if Mismatched(f, k) then Cents(Measured(f, k)) else f.increase,
       uncertain := f.uncertain || ClaimsUnsupported(f, k) || Mismatched(f, k) || f.rules == [] || AnyDoubtful(f.rules))
  }

  method Hear(f: Finding, k: Known) returns (working: Finding, codes: seq<Code>, drop: bool)
    ensures working == Heard(f, k) && drop == Droppable(f)
    ensures codes == HeardCodes(f, k)
  {
    var claimed, claimCodes := CheckClaims(f, k);
    var ruled, ruleCodes, retroactive := CheckRules(claimed);
    drop := f.evidence == [] || retroactive;
    working := ruled;
    codes := EvidenceCodes(f) + claimCodes + ruleCodes;
    assert ruled.confidence == Lowered(f, k);
    if ruled.confidence >= HIGH_CONFIDENCE && !Corroborated(ruled.evidence) {
      codes := codes + [InsufficientCorroboration];
      working := ruled.(confidence := Min(ruled.confidence, 0.7));
    }
  }

  /** The last rule applied to what the others leave is the whole gate. */
  lemma {:induction false} ConfessionCompletesTheGate(f: Finding, k: Known)
    ensures Confessed(Heard(f, k), k) == Gated(f, k) && (Rewritten(Heard(f, k), k) <==> Rewritten(f, k))
  {
  }

  lemma {:induction false} CodesInOrder(f: Finding, k: Known, seen: Seen, duplicates: seq<Code>, cause: seq<Code>)
    requires duplicates == DuplicateCodes(SupportedOnly(f.provider, f.resources, k), f.id, seen)
    requires cause == if Rewritten(f, k) then [CauseUnsupported] else []
    ensures HeardCodes(f, k) + (if Untrusted(f.evidence) then [UntrustedText] else []) + duplicates + cause == Codes(f, k, seen)
  {
  }

  method GateOne(f: Finding, k: Known, seen0: Seen)
    returns (working: Finding, codes: seq<Code>, drop: bool, seen: Seen, missing: bool)
    ensures working == Gated(f, k) && codes == Codes(f, k, seen0) && drop == Droppable(f)
    ensures seen == Claimed(SupportedOnly(f.provider, f.resources, k), f.id, seen0)
    ensures missing == NoCauseSources(f.provider, k)
  {
    var heard, heardCodes, duplicates, causeCodes;
    heard, heardCodes, drop := Hear(f, k);
    seen, duplicates := NoteResources(heard.resources, heard.id, seen0);
    working, causeCodes, missing := CheckCause(heard, k);
    ConfessionCompletesTheGate(f, k);
    CodesInOrder(f, k, seen0, duplicates, causeCodes);
    codes := heardCodes + (if Untrusted(f.evidence) then [UntrustedText] else []) + duplicates + causeCodes;
  }

  datatype Validated = Validated(
    findings: seq<Finding>, dropped: seq<Finding>, issues: seq<Issue>, missing: set<string>)

  function NoCauseProviders(fs: seq<Finding>, k: Known): set<string> {
    set f | f in fs && NoCauseSources(f.provider, k) :: f.provider
  }

  lemma {:induction false} NoCauseProvidersLast(fs: seq<Finding>, f: Finding, k: Known)
    ensures NoCauseProviders(fs + [f], k)
         == NoCauseProviders(fs, k) + (if NoCauseSources(f.provider, k) then {f.provider} else {})
  {
  }

  ghost predicate Done(r: Validated, seen: Seen, fs: seq<Finding>, k: Known) {
    && r.findings == Sifted(fs, k, false) && r.dropped == Sifted(fs, k, true)
    && r.issues == AllIssues(fs, k) && r.missing == NoCauseProviders(fs, k) && seen == SeenAfter(fs, k)
  }

  function Filed(r: Validated, f: Finding, codes: seq<Code>, working: Finding, drop: bool, missing: bool): Validated {
    Validated(if drop then r.findings else r.findings + [working],
              if drop then r.dropped + [working] else r.dropped,
              r.issues + Stamped(codes, f),
              r.missing + (if missing then {f.provider} else {}))
  }

  lemma {:induction false} DoneOneMore(r: Validated, seen: Seen, fs: seq<Finding>, f: Finding, k: Known)
    requires Done(r, seen, fs, k)
    ensures var after := Filed(r, f, Codes(f, k, seen), Gated(f, k), Droppable(f), NoCauseSources(f.provider, k));
            Done(after, Claimed(SupportedOnly(f.provider, f.resources, k), f.id, seen), fs + [f], k)
  {
    NoCauseProvidersLast(fs, f, k);
  }

  method ValidateFindings(fs: seq<Finding>, k: Known) returns (r: Validated)
    ensures r.findings == Sifted(fs, k, false) && r.dropped == Sifted(fs, k, true)
    ensures r.issues == AllIssues(fs, k)
    ensures r.missing == NoCauseProviders(fs, k)
  {
    var seen: Seen := map[];
    r := Validated([], [], [], {});
    for i := 0 to |fs|
      invariant Done(r, seen, fs[..i], k)
    {
      PrefixGrows(fs, i);
      DoneOneMore(r, seen, fs[..i], fs[i], k);
      var working, codes, drop, after, missing := GateOne(fs[i], k, seen);
      seen := after;
      r := Filed(r, fs[i], codes, working, drop, missing);
    }
    assert fs[..|fs|] == fs;
  }

  // ---------------------------------------------------------------- what publication guarantees

  /** The input positions with the given verdict. */
  function Positions(fs: seq<Finding>, drop: bool): seq<nat> {
    if fs == [] then []
    else
      var before := Positions(fs[..|fs| - 1], drop);
      if Droppable(fs[|fs| - 1]) == drop then before + [|fs| - 1] else before
  }

  /** The gated forms of the findings at these positions, in order, and at no others. */
  predicate IsPart(fs: seq<Finding>, k: Known, drop: bool, at: seq<nat>, out: seq<Finding>) {
    && |at| == |out|
    && (forall i :: 0 <= i < |at| ==> at[i] < |fs| && Droppable(fs[at[i]]) == drop && out[i] == Gated(fs[at[i]], k))
    && (forall i, j :: 0 <= i < j < |at| ==> at[i] < at[j])
    && (forall i :: 0 <= i < |fs| ==> (i in at <==> Droppable(fs[i]) == drop))
  }

  lemma {:induction false} PartGrows(fs: seq<Finding>, f: Finding, k: Known, drop: bool, at: seq<nat>, out: seq<Finding>)
    requires IsPart(fs, k, drop, at, out)
    ensures Droppable(f) == drop ==> IsPart(fs + [f], k, drop, at + [|fs|], out + [Gated(f, k)])
    ensures Droppable(f) != drop ==> IsPart(fs + [f], k, drop, at, out)
  {
    assert forall i :: 0 <= i < |fs| ==> (fs + [f])[i] == fs[i];
  }

  /** Main result: published and dropped findings split the input between them, each in
      input order, and each is the gated form of the finding at its own position. */
  lemma {:induction false} GatePartitions(fs: seq<Finding>, k: Known, drop: bool)
    ensures IsPart(fs, k, drop, Positions(fs, drop), Sifted(fs, k, drop))
  {
    if fs != [] {
      var init, f := fs[..|fs| - 1], fs[|fs| - 1];
      assert fs == init + [f];
      GatePartitions(init, k, drop);
      PartGrows(init, f, k, drop, Positions(init, drop), Sifted(init, k, drop));
    }
  }

  lemma {:induction false} GateKeepsCount(fs: seq<Finding>, k: Known)
    ensures |Sifted(fs, k, true)| + |Sifted(fs, k, false)| == |fs|
  {
    if fs != [] {
      GateKeepsCount(fs[..|fs| - 1], k);
    }
  }

  /** Main result: no confidence rises, and a confidence still high afterwards has three
      pieces of evidence with a corroborating one, trusted dated rules, no invented
      resource and a provider whose sources can show a cause. */
  lemma {:induction false} ConfidenceIsEarned(f: Finding, k: Known)
    ensures var g := Gated(f, k);
            && g.confidence <= f.confidence
            && (g.confidence >= HIGH_CONFIDENCE <==>
                  f.confidence >= HIGH_CONFIDENCE && Corroborated(f.evidence) && f.rules != [] && !AnyDoubtful(f.rules)
                  && !ClaimsUnsupported(f, k) && !NoCauseSources(f.provider, k))
            && (g.confidence < f.confidence ==> g.uncertain || (f.confidence >= HIGH_CONFIDENCE && !Corroborated(f.evidence)))
  {
  }

  lemma {:induction false} SupportedOnlyProperties(provider: string, resources: seq<string>, k: Known)
    ensures forall r :: r in SupportedOnly(provider, resources, k) <==> r in resources && Supported(provider, r, k)
    ensures !AnyUnsupported(provider, SupportedOnly(provider, resources, k), k)
  {
    if resources != [] {
      SupportedOnlyProperties(provider, resources[1..], k);
    }
  }

  lemma {:induction false} PublishedAmountIsNear(f: Finding, k: Known)
    requires CitesKnown(f, k)
    ensures CitesKnown(Gated(f, k), k) && Measured(Gated(f, k), k) == Measured(f, k)
    ensures Abs(Gated(f, k).increase - Measured(f, k)) <= Tolerance(Measured(f, k))
  {
    CentsAreNear(Measured(f, k));
  }

  /** Main result: what the gate lets out names only supported resources, stays within the
      tolerance of the measured change, and claims a cause only where a source can show one. */
  lemma {:induction false} PublishedIsSound(f: Finding, k: Known)
    requires !Droppable(f)
    ensures var g := Gated(f, k);
            && g.evidence != [] && !AnyRetroactive(g.rules) && !ClaimsUnsupported(g, k) && !Mismatched(g, k)
            && (forall r :: r in g.resources <==> r in f.resources && Supported(f.provider, r, k))
            && (g.rules == [] ==> g.uncertain && g.confidence <= 0.45)
            && (NoCauseSources(g.provider, k) ==> g.uncertain && g.confidence <= 0.4 && g.category == FALLBACK_CATEGORY)
  {
    SupportedOnlyProperties(f.provider, f.resources, k);
    var g := Gated(f, k);
    if CitesKnown(f, k) {
      PublishedAmountIsNear(f, k);
    }
  }

  function Quiet(f: Finding): Finding { f.(warnings := []) }

  /** Gating twice changes nothing but the warnings, to which it only adds. */
  lemma {:induction false} GatedTwice(f: Finding, k: Known)
    ensures var g := Gated(f, k);
            && Quiet(Gated(g, k)) == Quiet(g) && Droppable(g) == Droppable(f) && g.warnings <= Gated(g, k).warnings
  {
    var g := Gated(f, k);
    SupportedOnlyProperties(f.provider, f.resources, k);
    AllSupportedStay(g.provider, g.resources, k);
    if CitesKnown(f, k) {
      PublishedAmountIsNear(f, k);
    }
  }

  predicate SameButWarnings(a: seq<Finding>, b: seq<Finding>) {
    |a| == |b| && forall i :: 0 <= i < |a| ==> Quiet(a[i]) == Quiet(b[i]) && b[i].warnings <= a[i].warnings
  }

  /** Main result: validating what was published again drops nothing and changes only warnings. */
  lemma {:induction false} GateIsAFixedPoint(fs: seq<Finding>, k: Known)
    ensures var published := Sifted(fs, k, false);
            Sifted(published, k, true) == [] && SameButWarnings(Sifted(published, k, false), published)
  {
    if fs != [] {
      var f, init := fs[|fs| - 1], fs[..|fs| - 1];
      GateIsAFixedPoint(init, k);
      if !Droppable(f) {
        GatedTwice(f, k);
        var before := Sifted(init, k, false);
        assert (before + [Gated(f, k)])[..|before|] == before;
      }
    }
  }

  function Claims(fs: seq<Finding>, k: Known): real {
    if fs == [] then 0.0 else (if CitesKnown(fs[0], k) then fs[0].increase else 0.0) + Claims(fs[1..], k)
  }

  function Measures(fs: seq<Finding>, k: Known): real {
    if fs == [] then 0.0 else Measured(fs[0], k) + Measures(fs[1..], k)
  }

  function Tolerances(fs: seq<Finding>, k: Known): real {
    if fs == [] then 0.0
    else (if CitesKnown(fs[0], k) then Tolerance(Measured(fs[0], k)) else 0.0) + Tolerances(fs[1..], k)
  }

  predicate EachNear(fs: seq<Finding>, k: Known) {
    forall i :: 0 <= i < |fs| && CitesKnown(fs[i], k) ==>
      Abs(fs[i].increase - Measured(fs[i], k)) <= Tolerance(Measured(fs[i], k))
  }

  lemma {:induction false} TotalOfNear(fs: seq<Finding>, k: Known)
    requires EachNear(fs, k)
    ensures Abs(Claims(fs, k) - Measures(fs, k)) <= Tolerances(fs, k)
  {
    if fs != [] {
      assert EachNear(fs[1..], k);
      TotalOfNear(fs[1..], k);
    }
  }

  /** Main result: the published increases that cite known candidates total what was
      measured for them, within the sum of the per-finding tolerances. */
  lemma {:induction false} PublishedTotalIsMeasured(fs: seq<Finding>, k: Known)
    ensures var published := Sifted(fs, k, false);
            Abs(Claims(published, k) - Measures(published, k)) <= Tolerances(published, k)
  {
    GatePartitions(fs, k, false);
    var published, at := Sifted(fs, k, false), Positions(fs, false);
    forall i | 0 <= i < |published| && CitesKnown(published[i], k)
      ensures Abs(published[i].increase - Measured(published[i], k)) <= Tolerance(Measured(published[i], k))
    {
      PublishedAmountIsNear(fs[at[i]], k);
    }
    TotalOfNear(published, k);
  }

  /** Every change the gate makes leaves an issue or a warning behind. */
  lemma {:induction false} EveryChangeIsReported(f: Finding, k: Known, seen: Seen)
    ensures Gated(f, k) != f ==> Codes(f, k, seen) != [] || Gated(f, k).warnings != f.warnings
    ensures Droppable(f) ==> Codes(f, k, seen) != []
  {
    if !ClaimsUnsupported(f, k) {
      AllSupportedStay(f.provider, f.resources, k);
    }
    if f.rules != [] {
      RuleCodesReport(f.rules);
    }
  }

  lemma {:induction false} RuleCodesReport(rules: seq<Citation>)
    ensures forall i :: 0 <= i < |rules| && (Doubtful(rules[i]) || Retroactive(rules[i])) ==> RuleCodes(rules) != []
  {
    if rules != [] {
      RuleCodesReport(rules[..|rules| - 1]);
    }
  }

  // ---------------------------------------------------------------- ranking

  /** Certain before uncertain, then the larger increase, then the higher confidence. */
  predicate RankedBefore(a: Finding, b: Finding) {
    if a.uncertain != b.uncertain then b.uncertain
    else if a.increase != b.increase then a.increase > b.increase
    else a.confidence >= b.confidence
  }

  function RankFindings(fs: seq<Finding>): seq<Finding> { Sort(fs, RankedBefore) }

  /** Ranking rearranges, puts uncertain findings last, and leaves ties in their order. */
  lemma {:induction false} RankingIsStable(fs: seq<Finding>, f: Finding)
    ensures var ranked := RankFindings(fs);
            && multiset(ranked) == multiset(fs) && Ordered(ranked, RankedBefore)
            && Ties(ranked, f, RankedBefore) == Ties(fs, f, RankedBefore)
            && forall i, j :: 0 <= i < j < |ranked| ==>
                 && (ranked[i].uncertain ==> ranked[j].uncertain)
                 && (ranked[i].uncertain == ranked[j].uncertain ==> ranked[i].increase >= ranked[j].increase)
                 && (ranked[i].uncertain == ranked[j].uncertain && ranked[i].increase == ranked[j].increase ==>
                       ranked[i].confidence >= ranked[j].confidence)
  {
    SortPermutes(fs, RankedBefore);
    assert IsOrder(RankedBefore);
    SortIsStable(fs, f, RankedBefore);
    var ranked := RankFindings(fs);
    assert forall i, j :: 0 <= i < j < |ranked| ==> RankedBefore(ranked[i], ranked[j]);
  }
}
