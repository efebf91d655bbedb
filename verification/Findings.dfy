/** The values the finding gate, the playbooks and the retry merge pass around. */
module Findings {
  import opened Common
  import opened Maths

  /** The source types that matter; any other is carried along by name. */
  datatype Kind = Cost | Usage | Inventory | Metric | Audit | Recommendation | Freshness | Other(name: string)

  /** `id` is the number in the evidence id. */
  datatype Evidence = Evidence(id: nat, kind: Kind, reference: string, untrusted: bool)

  datatype Citation = Citation(
    ruleId: string, stale: bool, validFrom: Option<Day>, selectedFor: Option<Day>, sourceUrl: string)

  /** What a finding is published with a word of caution about. */
  datatype Warning =
    | NoRule | GenericRule | NoEffectiveDate(rule: string) | NothingInEffect | OverdueReview(rule: string)
    | DeprecatedRule(rule: string) | Provisional | RateMayExplain | IncompleteData | Unconfirmed(target: string)

  datatype Mode = Stub | Live

  datatype Finding = Finding(
    id: string, provider: string, category: string, rootCause: string, resources: seq<string>,
    evidence: seq<Evidence>, confidence: real, increase: real, monthlyImpact: real, recommendation: string,
    risk: string, candidateId: Option<string>, service: Option<string>, region: Option<string>,
    rules: seq<Citation>, uncertain: bool, warnings: seq<Warning>, mode: Mode, needsApproval: bool)

  const FALLBACK_CATEGORY := "unexplained_increase"

  /** Rounded to two places, ties to the even cent. */
  function Cents(amount: real): real { RoundHalfEven(amount * 100.0) as real / 100.0 }

  lemma {:induction false} CentsAreNear(amount: real)
    ensures Abs(Cents(amount) - amount) <= 0.005
  {
    RoundError(amount * 100.0);
  }

  function CapIf(c: real, applies: bool, cap: real): real { if applies then Min(c, cap) else c }

  /** Rounded to three places, as a finding stores its confidence. */
  function Thousandths(x: real): real { RoundHalfEven(x * 1000.0) as real / 1000.0 }

  lemma {:induction false} ThousandthsMonotone(x: real, y: real)
    requires x <= y
    ensures Thousandths(x) <= Thousandths(y)
  {
    RoundMonotone(x * 1000.0, y * 1000.0);
  }

  lemma {:induction false} ThousandthsOf(n: int)
    ensures Thousandths(n as real / 1000.0) == n as real / 1000.0
  {
    RoundInteger(n);
  }

  lemma {:induction false} ReachesHigh(x: real)
    ensures Thousandths(x) >= 0.8 <==> x >= 0.7995
  {
  }
}
