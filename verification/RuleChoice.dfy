/** Which billing rule a lookup prefers, and for which days, in the rules' own fields. */
module RuleChoice {
  import opened Common
  import opened Strings
  import opened Findings
  import opened Knowledge

  predicate SameSubject(r: Rule, q: Query) { r.provider == q.provider && r.ruleType == q.ruleType }

  /** Lists the investigation's category. */
  predicate ByCategory(r: Rule, q: Query) { q.category.Some? && q.category.value != "" && q.category.value in r.categories }

  /** Is about the very service. */
  predicate ByService(r: Rule, q: Query) {
    q.service.Some? && q.service.value != "" && r.service.Some? && r.service.value != ""
    && q.lower(r.service.value) == q.lower(q.service.value)
  }

  /** Has a pattern that is part of the service's name, or the other way round. */
  predicate ByPattern(r: Rule, q: Query) {
    && q.service.Some? && q.service.value != ""
    && (exists i :: 0 <= i < |r.services| && (Overlap(q.lower(q.service.value), q.lower(r.services[i]))))
  }

  predicate Overlap(a: string, b: string) { Contains(a, b) || Contains(b, a) }

  predicate ForEverything(r: Rule) { r.services == [] && r.categories == [] }

  predicate AnyCategory(rules: seq<Rule>, q: Query) { exists i :: 0 <= i < |rules| && SameSubject(rules[i], q) && ByCategory(rules[i], q) }

  predicate AnyService(rules: seq<Rule>, q: Query) { exists i :: 0 <= i < |rules| && SameSubject(rules[i], q) && ByService(rules[i], q) }

  predicate AnyPattern(rules: seq<Rule>, q: Query) { exists i :: 0 <= i < |rules| && SameSubject(rules[i], q) && ByPattern(rules[i], q) }

  /** The closest match any rule offers is the one asked of a candidate: by category, else by
      service, else by pattern, else a rule for everything. */
  predicate Closest(r: Rule, rules: seq<Rule>, q: Query) {
    && SameSubject(r, q)
    && if AnyCategory(rules, q) then ByCategory(r, q)
       else if AnyService(rules, q) then ByService(r, q)
       else if AnyPattern(rules, q) then ByPattern(r, q)
       else ForEverything(r)
  }

  lemma {:induction false} ScoreMeans(r: Rule, q: Query)
    ensures MatchScore(r, q) <= 3 && (MatchScore(r, q) == 3 <==> ByCategory(r, q))
    ensures !ByCategory(r, q) ==> (MatchScore(r, q) == 2 <==> ByService(r, q))
    ensures !ByCategory(r, q) && !ByService(r, q) && Present(q.service) ==> (MatchScore(r, q) == 1 <==> ByPattern(r, q))
    ensures !ByCategory(r, q) && !Present(q.service) ==> !ByPattern(r, q) && MatchScore(r, q) <= 1
    ensures MatchScore(r, q) == 1 && !Present(q.service) ==> ForEverything(r)
    ensures !Present(q.service) && !Present(q.category) ==> (MatchScore(r, q) == 1 <==> ForEverything(r))
  {
  }

  lemma {:induction false} BestMeans(rules: seq<Rule>, q: Query)
    ensures AnyCategory(rules, q) <==> Best(rules, q) == 3
    ensures !AnyCategory(rules, q) ==> (AnyService(rules, q) <==> Best(rules, q) == 2)
    ensures !AnyCategory(rules, q) && !AnyService(rules, q) && Present(q.service) ==> (AnyPattern(rules, q) <==> Best(rules, q) == 1)
    ensures Best(rules, q) <= 3 && (!Present(q.service) ==> !AnyService(rules, q) && !AnyPattern(rules, q))
  {
    BestIsHighest(rules, q);
    forall r: Rule
      ensures MatchScore(r, q) <= 3 && (MatchScore(r, q) == 3 <==> ByCategory(r, q))
      ensures !ByCategory(r, q) ==> (MatchScore(r, q) == 2 <==> ByService(r, q))
      ensures !ByCategory(r, q) && !ByService(r, q) && Present(q.service) ==> (MatchScore(r, q) == 1 <==> ByPattern(r, q))
    {
      ScoreMeans(r, q);
    }
  }

  lemma {:induction false} EligibleMeans(rules: seq<Rule>, q: Query, r: Rule)
    requires r in rules
    ensures Eligible(r, q, Best(rules, q)) <==> Closest(r, rules, q)
  {
    BestMeans(rules, q);
    BestIsHighest(rules, q);
    ScoreMeans(r, q);
  }

  /** In effect on a day, both ends included. */
  predicate Holds(r: Rule, day: Day) {
    r.validFrom.Some? && r.validFrom.value <= day && (r.validTo.None? || day <= r.validTo.value)
  }

  /** Main result: for a day, the answer is a closest rule that holds on it, and no closest rule
      holding on it starts later; a closest rule without a date stands in, and says so, only
      when none holds; and nothing is found only when no closest rule holds or is undated. */
  lemma {:induction false} LookupMeans(rules: seq<Rule>, q: Query, day: Day)
    ensures match Select(rules, q, Some(day))
            case Found(rule, generic, undated) =>
              && rule in rules && Closest(rule, rules, q)
              && (if undated then rule.validFrom.None? else Holds(rule, day))
              && (forall r :: r in rules && Closest(r, rules, q) && Holds(r, day) ==>
                    !undated && r.validFrom.value <= rule.validFrom.value)
              && (generic ==> ForEverything(rule) && !AnyCategory(rules, q) && !AnyService(rules, q) && !AnyPattern(rules, q))
            case NotFound =>
              forall r :: r in rules && Closest(r, rules, q) ==> !Holds(r, day) && r.validFrom.Some?
  {
    SelectionMeans(rules, q, day);
    BestMeans(rules, q);
    forall r | r in rules
      ensures Eligible(r, q, Best(rules, q)) <==> Closest(r, rules, q)
    {
      EligibleMeans(rules, q, r);
    }
  }

  /** A lookup for no day in particular is answered by a closest rule that starts last, and finds
      nothing only when no rule comes close. */
  lemma {:induction false} DaylessLookupMeans(rules: seq<Rule>, q: Query)
    ensures match Select(rules, q, None)
            case Found(rule, _, undated) =>
              && rule in rules && Closest(rule, rules, q) && !undated
              && forall r :: r in rules && Closest(r, rules, q) && r.validFrom.Some? ==>
                   rule.validFrom.Some? && r.validFrom.value <= rule.validFrom.value
            case NotFound => !AnyClosest(rules, q)
  {
    var pool := Pool(rules, q, Best(rules, q));
    PoolMeans(rules, q);
    PoolMembers(rules, q, Best(rules, q));
    forall r | r in rules
      ensures Eligible(r, q, Best(rules, q)) <==> Closest(r, rules, q)
    {
      EligibleMeans(rules, q, r);
    }
    if pool != [] {
      LatestIsLatest(pool);
    }
  }

  lemma {:induction false} LatestIsFirst(rules: seq<Rule>, q: Query, best: nat, day: Day) returns (at: nat)
    requires Answering(rules, q, best, day) != []
    ensures at < |rules| && rules[at] == Latest(Answering(rules, q, best, day))
    ensures forall j :: 0 <= j < at && Eligible(rules[j], q, best) && rules[j].EffectiveOn(day) ==> Later(rules[at], rules[j])
  {
    var first, rest := rules[0], rules[1..];
    var answering := Answering(rest, q, best, day);
    assert rules == [first] + rest;
    AnsweringFirst(first, rest, q, best, day);
    AnsweringMembers(rest, q, best, day);
    var starts := Eligible(first, q, best) && first.EffectiveOn(day);
    assert [] + answering == answering && [first] + [] == [first];
    assert ([first] + answering)[1..] == answering;
    if starts && (answering == [] || !Later(Latest(answering), first)) {
      at := 0;
    } else {
      at := LatestIsFirst(rest, q, best, day);
      at := at + 1;
      assert Latest(Answering(rules, q, best, day)) == Latest(answering);
    }
  }

  lemma {:induction false} UndatedIsFirst(rules: seq<Rule>, q: Query, best: nat) returns (at: nat)
    requires Undated(Pool(rules, q, best)) != []
    ensures at < |rules| && rules[at] == Undated(Pool(rules, q, best))[0]
    ensures forall j :: 0 <= j < at && Eligible(rules[j], q, best) ==> rules[j].validFrom.Some?
  {
    var first, rest := rules[0], rules[1..];
    var pool := Pool(rest, q, best);
    assert ([first] + pool)[1..] == pool && [] + pool == pool;
    if Eligible(first, q, best) && first.validFrom.None? {
      at := 0;
    } else {
      at := UndatedIsFirst(rest, q, best);
      at := at + 1;
    }
  }

  /** Of several closest rules that start on the same day, or that have no date, the first stands. */
  lemma {:induction false} TheFirstStands(rules: seq<Rule>, q: Query, day: Day) returns (at: nat)
    requires Select(rules, q, Some(day)).Found?
    ensures var a := Select(rules, q, Some(day));
            && at < |rules| && rules[at] == a.rule
            && forall j :: 0 <= j < at && Closest(rules[j], rules, q) ==>
                 if a.undated then rules[j].validFrom.Some?
                 else Holds(rules[j], day) ==> a.rule.validFrom.Some? && rules[j].validFrom.value < a.rule.validFrom.value
  {
    var best := Best(rules, q);
    if Answering(rules, q, best, day) != [] {
      at := LatestIsFirst(rules, q, best, day);
    } else {
      at := UndatedIsFirst(rules, q, best);
    }
    forall j | 0 <= j < |rules|
      ensures Closest(rules[j], rules, q) == Eligible(rules[j], q, best)
    {
      EligibleMeans(rules, q, rules[j]);
    }
  }

  /** A citation names the rule, the day it was looked up for and since when it holds, and is stale
      when nobody reviewed the rule within the allowed days. */
  lemma {:induction false} CitationMeans(r: Rule, day: Option<Day>, asOf: Day, maxAge: nat)
    ensures var c := Cite(r, day, asOf, maxAge);
            && c.ruleId == r.id && c.validFrom == r.validFrom && c.selectedFor == day && c.sourceUrl == r.sourceUrl
            && (c.stale <==> r.reviewedAt.None? || r.reviewedAt.value + maxAge < asOf)
  {
  }

  predicate AnyClosest(rules: seq<Rule>, q: Query) { exists i :: 0 <= i < |rules| && Closest(rules[i], rules, q) }

  lemma {:induction false} PoolMeans(rules: seq<Rule>, q: Query)
    ensures Pool(rules, q, Best(rules, q)) == [] <==> !AnyClosest(rules, q)
  {
    var pool := Pool(rules, q, Best(rules, q));
    PoolMembers(rules, q, Best(rules, q));
    if pool != [] {
      assert pool[0] in pool;
      EligibleMeans(rules, q, pool[0]);
      var i :| 0 <= i < |rules| && rules[i] == pool[0];
      assert Closest(rules[i], rules, q);
    } else {
      forall i | 0 <= i < |rules|
        ensures !Closest(rules[i], rules, q)
      {
        EligibleMeans(rules, q, rules[i]);
      }
    }
  }

  /** What is doubtful about a rule: no start, a review that is due or was never done, or withdrawn from use. */
  predicate Doubts(w: Warning, rule: Rule, undated: bool, asOf: Day, maxAge: nat) {
    || (w == NoEffectiveDate(rule.id) && undated)
    || (w == OverdueReview(rule.id) && (rule.reviewedAt.None? || rule.reviewedAt.value + maxAge < asOf))
    || (w == DeprecatedRule(rule.id) && rule.deprecated)
  }

  lemma {:induction false} RuleWarningsMean(rule: Rule, undated: bool, asOf: Day, maxAge: nat, w: Warning)
    ensures w in RuleWarnings(rule, undated, asOf, maxAge) <==> Doubts(w, rule, undated, asOf, maxAge)
  {
  }

  /** What a lookup's warnings say: that nothing matches, that only a rule for everything does, that
      nothing that matches holds on the day, or what is doubtful about the rule found. */
  lemma {:induction false} WarningsMean(rules: seq<Rule>, q: Query, day: Day, asOf: Day, maxAge: nat, w: Warning)
    ensures w in Warnings(rules, q, day, asOf, maxAge) <==>
              var a := Select(rules, q, Some(day));
              || (w == NoRule && !AnyClosest(rules, q))
              || (w == GenericRule && AnyClosest(rules, q) && Best(rules, q) == 0)
              || (w == NothingInEffect && AnyClosest(rules, q) && a.NotFound?)
              || (a.Found? && Doubts(w, a.rule, a.undated, asOf, maxAge))
  {
    var a := Select(rules, q, Some(day));
    PoolMeans(rules, q);
    if a.Found? {
      RuleWarningsMean(a.rule, a.undated, asOf, maxAge, w);
    }
  }
}
