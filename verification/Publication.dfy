/**
 What the gate lets out, in terms of what went in: which claims survive, by how much a
 confidence falls and why, what is dropped, and which issue tells of which fault.
 */
module Publication {
  import opened Common
  import opened Maths
  import opened Strings
  import opened Findings
  import opened Validation

  // ---------------------------------------------------------------- faults of a claim

  /** Somebody said what was supplied for the provider, and none of it can show a cause. */
  predicate Blind(provider: string, k: Known) {
    && k.sources.Some? && provider in k.sources.value
    && Metric !in k.sources.value[provider] && Audit !in k.sources.value[provider]
    && Inventory !in k.sources.value[provider] && Recommendation !in k.sources.value[provider]
  }

  /** A resource the provider's data knows, or one named by the provider itself; every one of a
      provider whose data names none. */
  predicate Backed(provider: string, resource: string, k: Known) {
    || provider !in k.resources || k.resources[provider] == {}
    || resource in k.resources[provider] || provider + ":" <= resource
  }

  predicate Unbacked(f: Finding, k: Known) {
    exists i :: 0 <= i < |f.resources| && !Backed(f.provider, f.resources[i], k)
  }

  predicate Unruled(f: Finding) { |f.rules| == 0 }

  /** Cites a stale rule, or one that does not say since when it holds. */
  predicate Shaky(f: Finding) {
    exists i :: 0 <= i < |f.rules| && (f.rules[i].stale || f.rules[i].validFrom.None?)
  }

  /** Fewer than three pieces of evidence, or none from outside the bill. */
  predicate Thin(f: Finding) {
    || |f.evidence| < 3
    || forall i :: 0 <= i < |f.evidence| ==> !f.evidence[i].kind.Metric? && !f.evidence[i].kind.Audit? && !f.evidence[i].kind.Recommendation?
  }

  /** No evidence, or a rule cited for a day before it held. */
  predicate Unpublishable(f: Finding) {
    || |f.evidence| == 0
    || exists i :: 0 <= i < |f.rules| && f.rules[i].validFrom.Some? && f.rules[i].selectedFor.Some?
                   && f.rules[i].selectedFor.value < f.rules[i].validFrom.value
  }

  /** The measured change of a candidate the comparison knows. */
  predicate Measurable(f: Finding, k: Known) { f.candidateId.GetOr("") in k.changes }

  /** Off by more than a hundredth of the measured change, and by more than two cents. */
  predicate Off(claimed: real, measured: real) {
    Abs(claimed - measured) > 0.01 * Abs(measured) && Abs(claimed - measured) > 0.02
  }

  predicate Misstated(f: Finding, k: Known) {
    Measurable(f, k) && Off(f.increase, k.changes[f.candidateId.GetOr("")])
  }

  lemma {:induction false} OffMeans(claimed: real, measured: real)
    ensures Abs(claimed - measured) > Tolerance(measured) <==> Off(claimed, measured)
  {
  }

  lemma {:induction false} FaultsMean(f: Finding, k: Known)
    ensures NoCauseSources(f.provider, k) == Blind(f.provider, k)
    ensures ClaimsUnsupported(f, k) == Unbacked(f, k)
    ensures Mismatched(f, k) == Misstated(f, k)
    ensures AnyDoubtful(f.rules) == Shaky(f) && Corroborated(f.evidence) == !Thin(f)
    ensures Droppable(f) == Unpublishable(f)
  {
    if Measurable(f, k) {
      OffMeans(f.increase, Measured(f, k));
    }
  }

  // ---------------------------------------------------------------- what becomes of a claim

  /** What an unexplained cost is reported on: the first resource kept, else the service, else
      what was claimed. */
  function Subject(g: Finding, f: Finding): string {
    if |g.resources| > 0 then g.resources[0]
    else if f.service.Some? && f.service.value != "" then f.service.value else f.category
  }

  /** A cause is named only where a source can show one; a provider that cannot has the cost
      movement reported as unexplained, doubtful, and said to be unconfirmed. */
  predicate CauseTold(g: Finding, f: Finding, k: Known) {
    if !Blind(f.provider, k) then
      g.category == f.category && g.rootCause == f.rootCause && g.recommendation == f.recommendation && g.warnings == f.warnings
    else
      && g.category == "unexplained_increase" && g.uncertain && g.confidence <= 0.4
      && g.warnings == f.warnings + [Unconfirmed(Subject(g, f))]
      && if f.category == "unexplained_increase" then g.rootCause == f.rootCause && g.recommendation == f.recommendation
         else g.rootCause == "unexplained cost increase on " + Subject(g, f)
              && g.recommendation == "review manually or supply more sources"
  }

  /** A confidence is what was claimed, or the lowest cap of a fault that the claim has. */
  predicate ConfidenceTold(g: Finding, f: Finding, k: Known) {
    && g.confidence <= f.confidence
    && (Unbacked(f, k) || Blind(f.provider, k) ==> g.confidence <= 0.4) && (Unruled(f) ==> g.confidence <= 0.45)
    && (Shaky(f) ==> g.confidence <= 0.6) && (Thin(f) ==> g.confidence < 0.8 && (f.confidence >= 0.8 ==> g.confidence <= 0.7))
    && (|| g.confidence == f.confidence || (g.confidence == 0.4 && (Unbacked(f, k) || Blind(f.provider, k)))
        || (g.confidence == 0.45 && Unruled(f)) || (g.confidence == 0.6 && Shaky(f))
        || (g.confidence == 0.7 && Thin(f) && f.confidence >= 0.8))
  }

  predicate AmountTold(g: Finding, f: Finding, k: Known) {
    if Misstated(f, k) then Abs(g.increase - k.changes[f.candidateId.GetOr("")]) <= 0.005 else g.increase == f.increase
  }

  ghost predicate ClaimsTold(g: Finding, f: Finding, k: Known) {
    && (forall r :: r in g.resources <==> r in f.resources && Backed(f.provider, r, k))
    && (g.uncertain <==> f.uncertain || Unbacked(f, k) || Misstated(f, k) || Unruled(f) || Shaky(f) || Blind(f.provider, k))
    && g.id == f.id && g.provider == f.provider && g.evidence == f.evidence && g.rules == f.rules
    && g.candidateId == f.candidateId && g.service == f.service
  }

  ghost predicate Told(g: Finding, f: Finding, k: Known) {
    CauseTold(g, f, k) && ConfidenceTold(g, f, k) && AmountTold(g, f, k) && ClaimsTold(g, f, k)
  }

  lemma {:induction false} CauseIsTold(f: Finding, k: Known)
    ensures CauseTold(Gated(f, k), f, k)
  {
    FaultsMean(f, k);
  }

  lemma {:induction false} ConfidenceIsTold(f: Finding, k: Known)
    ensures ConfidenceTold(Gated(f, k), f, k)
  {
    FaultsMean(f, k);
  }

  lemma {:induction false} AmountIsTold(f: Finding, k: Known)
    ensures AmountTold(Gated(f, k), f, k)
  {
    FaultsMean(f, k);
    if Measurable(f, k) {
      CentsAreNear(Measured(f, k));
    }
  }

  lemma {:induction false} ClaimsAreTold(f: Finding, k: Known)
    ensures ClaimsTold(Gated(f, k), f, k)
  {
    FaultsMean(f, k);
    SupportedOnlyProperties(f.provider, f.resources, k);
  }

  // ---------------------------------------------------------------- the whole list

  /** `told` are what became of the findings at these positions, in order, and the findings at no
      other position have this verdict. */
  ghost predicate Sorted(told: seq<Finding>, at: seq<nat>, fs: seq<Finding>, k: Known, dropped: bool) {
    && |at| == |told|
    && (forall i :: 0 <= i < |at| ==> at[i] < |fs| && Told(told[i], fs[at[i]], k))
    && (forall i, j :: 0 <= i < j < |at| ==> at[i] < at[j])
    && forall i :: 0 <= i < |fs| ==> (i in at <==> Unpublishable(fs[i]) == dropped)
  }

  /** Main result: published are, in order, exactly the findings with evidence and no rule cited
      before its time, and dropped the others; each is told as its faults demand, and the
      providers that cannot show a cause are named. */
  lemma {:induction false} PublicationTells(fs: seq<Finding>, k: Known) returns (published: seq<nat>, dropped: seq<nat>)
    ensures Sorted(Sifted(fs, k, false), published, fs, k, false)
    ensures Sorted(Sifted(fs, k, true), dropped, fs, k, true)
    ensures forall provider :: provider in NoCauseProviders(fs, k) <==>
              Blind(provider, k) && exists i :: 0 <= i < |fs| && fs[i].provider == provider
  {
    published, dropped := Positions(fs, false), Positions(fs, true);
    SideTells(fs, k, false);
    SideTells(fs, k, true);
    forall f | f in fs
      ensures NoCauseSources(f.provider, k) == Blind(f.provider, k)
    {
      FaultsMean(f, k);
    }
  }

  lemma {:induction false} SideTells(fs: seq<Finding>, k: Known, drop: bool)
    ensures Sorted(Sifted(fs, k, drop), Positions(fs, drop), fs, k, drop)
  {
    GatePartitions(fs, k, drop);
    var at, told := Positions(fs, drop), Sifted(fs, k, drop);
    forall i | 0 <= i < |at|
      ensures Told(told[i], fs[at[i]], k)
    {
      GatedIsTold(fs[at[i]], k);
    }
    forall i | 0 <= i < |fs|
      ensures i in at <==> Unpublishable(fs[i]) == drop
    {
      FaultsMean(fs[i], k);
    }
  }

  lemma {:induction false} GatedIsTold(f: Finding, k: Known)
    ensures Told(Gated(f, k), f, k)
  {
    CauseIsTold(f, k);
    ConfidenceIsTold(f, k);
    AmountIsTold(f, k);
    ClaimsAreTold(f, k);
  }

  // ---------------------------------------------------------------- the issues

  /** Which fault of a finding each issue stands for; `seen` says who claimed a resource before. */
  ghost predicate Deserves(f: Finding, k: Known, seen: Seen, code: Code) {
    match code
    case MissingEvidence => |f.evidence| == 0
    case EvidenceWithoutProvenance => exists i :: 0 <= i < |f.evidence| && f.evidence[i].reference == ""
    case UnsupportedResource => Unbacked(f, k)
    case CostMismatch => Misstated(f, k)
    case UnknownCandidate => !Measurable(f, k) && f.candidateId.Some? && f.candidateId.value != ""
    case MissingRule => Unruled(f)
    case StaleRule(rule) => exists i :: 0 <= i < |f.rules| && f.rules[i].ruleId == rule && f.rules[i].stale
    case UndatedRule(rule) => exists i :: 0 <= i < |f.rules| && f.rules[i].ruleId == rule && f.rules[i].validFrom.None?
    case RetroactiveRule(rule) =>
      exists i :: 0 <= i < |f.rules| && f.rules[i].ruleId == rule && f.rules[i].validFrom.Some? && f.rules[i].selectedFor.Some?
                  && f.rules[i].selectedFor.value < f.rules[i].validFrom.value
    case RuleWithoutSource(rule) => exists i :: 0 <= i < |f.rules| && f.rules[i].ruleId == rule && f.rules[i].sourceUrl == ""
    case InsufficientCorroboration => Thin(f) && f.confidence >= 0.8 && !Unbacked(f, k) && !Unruled(f) && !Shaky(f)
    case UntrustedText => exists i :: 0 <= i < |f.evidence| && f.evidence[i].untrusted
    case DuplicateResource(r, previous) =>
      r in f.resources && Backed(f.provider, r, k) && r in seen && seen[r] == previous && previous != "" && previous != f.id
    case CauseUnsupported => Blind(f.provider, k) && f.category != "unexplained_increase"
  }

  predicate OfRule(code: Code) { code.StaleRule? || code.UndatedRule? || code.RetroactiveRule? || code.RuleWithoutSource? }

  lemma {:induction false} RuleCodesMean(f: Finding, k: Known, seen: Seen, code: Code)
    ensures code in RuleCodes(f.rules) <==> OfRule(code) && Deserves(f, k, seen, code)
  {
    CodesOfCitations(f.rules, code);
    if OfRule(code) && Deserves(f, k, seen, code) {
      var i :| 0 <= i < |f.rules| && Faults(f.rules[i], code);
      assert AnyFaulty(f.rules, code);
    }
  }

  predicate AnyFaulty(rules: seq<Citation>, code: Code) { exists i :: 0 <= i < |rules| && Faults(rules[i], code) }

  lemma {:induction false} FaultyLast(init: seq<Citation>, last: Citation, code: Code)
    ensures AnyFaulty(init + [last], code) <==> AnyFaulty(init, code) || Faults(last, code)
  {
    var rules := init + [last];
    assert rules[|init|] == last && forall i :: 0 <= i < |init| ==> rules[i] == init[i];
  }

  /** The fault of a citation that each issue about a rule stands for. */
  predicate Faults(rule: Citation, code: Code) {
    match code
    case StaleRule(id) => rule.ruleId == id && rule.stale
    case UndatedRule(id) => rule.ruleId == id && rule.validFrom.None?
    case RetroactiveRule(id) =>
      rule.ruleId == id && rule.validFrom.Some? && rule.selectedFor.Some? && rule.selectedFor.value < rule.validFrom.value
    case RuleWithoutSource(id) => rule.ruleId == id && rule.sourceUrl == ""
    case _ => false
  }

  lemma {:induction false} CodesOfOne(rule: Citation, code: Code)
    ensures code in CitationCodes(rule) <==> Faults(rule, code)
  {
  }

  lemma {:induction false} CodesOfCitations(rules: seq<Citation>, code: Code)
    ensures code in RuleCodes(rules) <==> AnyFaulty(rules, code)
  {
    if rules != [] {
      var init, last := rules[..|rules| - 1], rules[|rules| - 1];
      assert rules == init + [last];
      CodesOfCitations(init, code);
      CodesOfOne(last, code);
      FaultyLast(init, last, code);
    }
  }

  lemma {:induction false} DuplicateCodesMean(resources: seq<string>, id: string, seen: Seen, code: Code)
    ensures code in DuplicateCodes(resources, id, seen) <==>
              code.DuplicateResource? && code.resource in resources && code.resource in seen
              && seen[code.resource] == code.previous && code.previous != "" && code.previous != id
  {
    if resources != [] {
      assert resources == resources[..|resources| - 1] + [resources[|resources| - 1]];
      DuplicateCodesMean(resources[..|resources| - 1], id, seen, code);
    }
  }

  lemma {:induction false} CodesInParts(f: Finding, k: Known, seen: Seen, code: Code)
    ensures code in Codes(f, k, seen) <==>
              || code in EvidenceCodes(f) || code in ClaimCodes(f, k) || (f.rules == [] && code == MissingRule) || code in RuleCodes(f.rules)
              || (Lowered(f, k) >= HIGH_CONFIDENCE && !Corroborated(f.evidence) && code == InsufficientCorroboration)
              || (Untrusted(f.evidence) && code == UntrustedText)
              || code in DuplicateCodes(SupportedOnly(f.provider, f.resources, k), f.id, seen)
              || (Rewritten(f, k) && code == CauseUnsupported)
  {
  }

  lemma {:induction false} LoweredStaysHigh(f: Finding, k: Known)
    ensures Lowered(f, k) >= 0.8 <==> f.confidence >= 0.8 && !ClaimsUnsupported(f, k) && f.rules != [] && !AnyDoubtful(f.rules)
  {
  }

  /** Each part of the list holds its own kind of issue. */
  lemma {:induction false} KindsOfCodes(f: Finding, k: Known, seen: Seen, code: Code)
    ensures code in EvidenceCodes(f) || code in ClaimCodes(f, k) ==> !OfRule(code) && !code.DuplicateResource?
    ensures code in RuleCodes(f.rules) ==> OfRule(code)
    ensures code in DuplicateCodes(SupportedOnly(f.provider, f.resources, k), f.id, seen) ==> code.DuplicateResource?
  {
    PlainCodesMean(f, k, code);
    RuleCodesMean(f, k, seen, code);
    DuplicateCodesMean(SupportedOnly(f.provider, f.resources, k), f.id, seen, code);
  }

  lemma {:induction false} CodesByKind(f: Finding, k: Known, seen: Seen, code: Code)
    ensures OfRule(code) ==> (code in Codes(f, k, seen) <==> code in RuleCodes(f.rules))
    ensures code.DuplicateResource? ==>
              (code in Codes(f, k, seen) <==> code in DuplicateCodes(SupportedOnly(f.provider, f.resources, k), f.id, seen))
    ensures !OfRule(code) && !code.DuplicateResource? ==>
              (code in Codes(f, k, seen) <==>
                || code in EvidenceCodes(f) || code in ClaimCodes(f, k) || (f.rules == [] && code == MissingRule)
                || (Lowered(f, k) >= 0.8 && !Corroborated(f.evidence) && code == InsufficientCorroboration)
                || (Untrusted(f.evidence) && code == UntrustedText)
                || (Rewritten(f, k) && code == CauseUnsupported))
  {
    CodesInParts(f, k, seen, code);
    KindsOfCodes(f, k, seen, code);
  }

  lemma {:induction false} DuplicateIssues(f: Finding, k: Known, seen: Seen, code: Code)
    requires code.DuplicateResource?
    ensures code in Codes(f, k, seen) <==> Deserves(f, k, seen, code)
  {
    CodesByKind(f, k, seen, code);
    SupportedOnlyProperties(f.provider, f.resources, k);
    DuplicateCodesMean(SupportedOnly(f.provider, f.resources, k), f.id, seen, code);
  }

  lemma {:induction false} EvidenceIssues(f: Finding, k: Known, seen: Seen, code: Code)
    requires code.MissingEvidence? || code.EvidenceWithoutProvenance? || code.UntrustedText?
    ensures code in Codes(f, k, seen) <==> Deserves(f, k, seen, code)
  {
    CodesByKind(f, k, seen, code);
    PlainCodesMean(f, k, code);
  }

  lemma {:induction false} ClaimIssues(f: Finding, k: Known, seen: Seen, code: Code)
    requires !OfRule(code) && !code.DuplicateResource?
    requires !code.MissingEvidence? && !code.EvidenceWithoutProvenance? && !code.UntrustedText?
    ensures code in Codes(f, k, seen) <==> Deserves(f, k, seen, code)
  {
    CodesByKind(f, k, seen, code);
    PlainCodesMean(f, k, code);
    FaultsMean(f, k);
    LoweredStaysHigh(f, k);
  }

  /** Main result: a finding is given exactly the issues it deserves. */
  lemma {:induction false} IssuesAreDeserved(f: Finding, k: Known, seen: Seen, code: Code)
    ensures code in Codes(f, k, seen) <==> Deserves(f, k, seen, code)
  {
    if OfRule(code) {
      CodesByKind(f, k, seen, code);
      RuleCodesMean(f, k, seen, code);
    } else if code.DuplicateResource? {
      DuplicateIssues(f, k, seen, code);
    } else if code.MissingEvidence? || code.EvidenceWithoutProvenance? || code.UntrustedText? {
      EvidenceIssues(f, k, seen, code);
    } else {
      ClaimIssues(f, k, seen, code);
    }
  }

  lemma {:induction false} PlainCodesMean(f: Finding, k: Known, code: Code)
    ensures code in EvidenceCodes(f) <==>
              (code == MissingEvidence && |f.evidence| == 0)
              || (code == EvidenceWithoutProvenance && exists i :: 0 <= i < |f.evidence| && f.evidence[i].reference == "")
    ensures code in ClaimCodes(f, k) <==>
              || (code == UnsupportedResource && ClaimsUnsupported(f, k)) || (code == CostMismatch && Mismatched(f, k))
              || (code == UnknownCandidate && !Measurable(f, k) && f.candidateId.Some? && f.candidateId.value != "")
  {
  }

  /** Who claimed a resource first among these findings, if anybody did. */
  lemma {:induction false} FirstClaimIsRemembered(fs: seq<Finding>, k: Known, r: string, i: nat)
    requires i < |fs| && r in fs[i].resources && Backed(fs[i].provider, r, k)
    requires forall j :: 0 <= j < i ==> !(r in fs[j].resources && Backed(fs[j].provider, r, k))
    ensures r in SeenAfter(fs, k) && SeenAfter(fs, k)[r] == fs[i].id
  {
    var init, f := fs[..|fs| - 1], fs[|fs| - 1];
    SupportedOnlyProperties(f.provider, f.resources, k);
    if i < |init| {
      FirstClaimIsRemembered(init, k, r, i);
    } else {
      NobodyClaimed(init, k, r);
    }
  }

  lemma {:induction false} NobodyClaimed(fs: seq<Finding>, k: Known, r: string)
    requires forall j :: 0 <= j < |fs| ==> !(r in fs[j].resources && Backed(fs[j].provider, r, k))
    ensures r !in SeenAfter(fs, k)
  {
    if fs != [] {
      var f := fs[|fs| - 1];
      SupportedOnlyProperties(f.provider, f.resources, k);
      NobodyClaimed(fs[..|fs| - 1], k, r);
    }
  }

  ghost predicate Reportable(fs: seq<Finding>, k: Known, issue: Issue, i: nat)
    requires i < |fs|
  {
    && issue.findingId == fs[i].id && issue.provider == fs[i].provider
    && Deserves(fs[i], k, SeenAfter(fs[..i], k), issue.code)
  }

  lemma {:induction false} ReportableInit(fs: seq<Finding>, f: Finding, k: Known, issue: Issue, i: nat)
    requires i < |fs|
    ensures Reportable(fs + [f], k, issue, i) == Reportable(fs, k, issue, i)
  {
    assert (fs + [f])[..i] == fs[..i];
  }

  /** Every issue reported is some finding's own, deserved in view of those before it, and every
      one deserved is reported. */
  lemma {:induction false} ReportedAreDeserved(fs: seq<Finding>, k: Known, issue: Issue)
    ensures issue in AllIssues(fs, k) <==> exists i :: 0 <= i < |fs| && Reportable(fs, k, issue, i)
  {
    if fs != [] {
      var init, f := fs[..|fs| - 1], fs[|fs| - 1];
      assert fs == init + [f];
      ReportedAreDeserved(init, k, issue);
      LastReports(init, f, k, issue);
      forall i | 0 <= i < |init|
        ensures Reportable(fs, k, issue, i) == Reportable(init, k, issue, i)
      {
        ReportableInit(init, f, k, issue, i);
      }
    }
  }

  lemma {:induction false} LastReports(init: seq<Finding>, f: Finding, k: Known, issue: Issue)
    ensures issue in AllIssues(init + [f], k) <==> issue in AllIssues(init, k) || Reportable(init + [f], k, issue, |init|)
  {
    var fs := init + [f];
    assert fs[..|init|] == init && fs[..|fs| - 1] == init;
    IssuesAreDeserved(f, k, SeenAfter(init, k), issue.code);
    StampedMeans(Codes(f, k, SeenAfter(init, k)), f, issue);
  }

  lemma {:induction false} StampedMeans(codes: seq<Code>, f: Finding, issue: Issue)
    ensures issue in Stamped(codes, f) <==> issue.code in codes && issue.findingId == f.id && issue.provider == f.provider
  {
    if codes != [] {
      StampedMeans(codes[1..], f, issue);
    }
  }
}
