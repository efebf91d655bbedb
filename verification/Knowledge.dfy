/** Choosing the billing rule for a usage date: match, then the latest rule in effect. */
module Knowledge {
  import opened Common
  import opened Strings
  import opened Findings

  datatype Rule = Rule(
    id: string, provider: string, ruleType: string, service: Option<string>,
    validFrom: Option<Day>, validTo: Option<Day>, services: seq<string>, categories: seq<string>,
    reviewedAt: Option<Day>, sourceUrl: string, deprecated: bool)
  {
    predicate EffectiveOn(day: Day) {
      validFrom.Some? && validFrom.value <= day && (validTo.Some? ==> day <= validTo.value)
    }
    predicate Generic() { services == [] && categories == [] }
  }

  /** `lower` is the case folding strings are compared under. */
  datatype Query = Query(
    provider: string, ruleType: string, service: Option<string>, category: Option<string>, lower: string -> string)

  predicate MatchesPattern(r: Rule, q: Query)
    requires Present(q.service)
  {
    var name := q.lower(q.service.value);
    exists i :: 0 <= i < |r.services| &&
      (Contains(name, q.lower(r.services[i])) || Contains(q.lower(r.services[i]), name))
  }

  function MatchScore(r: Rule, q: Query): nat {
    if Present(q.category) && q.category.value in r.categories then 3
    else if Present(q.service) then
      if Present(r.service) && q.lower(r.service.value) == q.lower(q.service.value) then 2
      else if MatchesPattern(r, q) then 1 else 0
    else if Present(q.category) then 0
    else if r.Generic() then 1 else 0
  }

  predicate Relevant(r: Rule, q: Query) { r.provider == q.provider && r.ruleType == q.ruleType }

  function Best(rules: seq<Rule>, q: Query): nat {
    if rules == [] then 0
    else
      var rest, r := Best(rules[1..], q), rules[0];
      if Relevant(r, q) && MatchScore(r, q) > rest then MatchScore(r, q) else rest
  }

  /** In the pool at a best score; when nothing scores, the generic rules are. */
  predicate Eligible(r: Rule, q: Query, best: nat) {
    Relevant(r, q) && if best > 0 then MatchScore(r, q) == best else r.Generic()
  }

  function Pool(rules: seq<Rule>, q: Query, best: nat): seq<Rule> {
    if rules == [] then []
    else (if Eligible(rules[0], q, best) then [rules[0]] else []) + Pool(rules[1..], q, best)
  }

  function EffectiveRules(pool: seq<Rule>, day: Day): seq<Rule> {
    if pool == [] then []
    else (if pool[0].EffectiveOn(day) then [pool[0]] else []) + EffectiveRules(pool[1..], day)
  }

  function Undated(pool: seq<Rule>): seq<Rule> {
    if pool == [] then [] else (if pool[0].validFrom.None? then [pool[0]] else []) + Undated(pool[1..])
  }

  predicate Later(a: Rule, b: Rule) {
    a.validFrom.Some? && (b.validFrom.None? || a.validFrom.value > b.validFrom.value)
  }

  /** The rule that starts last; the first of several. */
  function Latest(rules: seq<Rule>): Rule
    requires rules != []
  {
    if |rules| == 1 then rules[0]
    else
      var rest := Latest(rules[1..]);
      if Later(rest, rules[0]) then rest else rules[0]
  }

  datatype Answer = Found(rule: Rule, generic: bool, undated: bool) | NotFound

  function Select(rules: seq<Rule>, q: Query, day: Option<Day>): Answer {
    var best := Best(rules, q);
    var pool := Pool(rules, q, best);
    if pool == [] then NotFound
    else if day.None? then Found(Latest(pool), best == 0, false)
    else
      var effective := EffectiveRules(pool, day.value);
      if effective != [] then Found(Latest(effective), best == 0, false)
      else if Undated(pool) != [] then Found(Undated(pool)[0], best == 0, true)
      else NotFound
  }

  predicate IsStale(r: Rule, asOf: Day, maxAge: nat) { r.reviewedAt.None? || asOf - r.reviewedAt.value > maxAge }

  function Cite(r: Rule, day: Option<Day>, asOf: Day, maxAge: nat): Citation {
    Citation(r.id, IsStale(r, asOf, maxAge), r.validFrom, day, r.sourceUrl)
  }

  /** What an answer for a day is qualified by. */
  function Warnings(rules: seq<Rule>, q: Query, day: Day, asOf: Day, maxAge: nat): seq<Warning> {
    var best := Best(rules, q);
    if Pool(rules, q, best) == [] then [NoRule]
    else
      (if best == 0 then [GenericRule] else [])
      + match Select(rules, q, Some(day))
        case NotFound => [NothingInEffect]
        case Found(rule, _, undated) => RuleWarnings(rule, undated, asOf, maxAge)
  }

  function RuleWarnings(rule: Rule, undated: bool, asOf: Day, maxAge: nat): seq<Warning> {
    (if undated then [NoEffectiveDate(rule.id)] else [])
    + (if IsStale(rule, asOf, maxAge) then [OverdueReview(rule.id)] else [])
    + (if rule.deprecated then [DeprecatedRule(rule.id)] else [])
  }

  // ---------------------------------------------------------------- what selection means

  lemma {:induction false} BestIsHighest(rules: seq<Rule>, q: Query)
    ensures forall r :: r in rules && Relevant(r, q) ==> MatchScore(r, q) <= Best(rules, q)
    ensures Best(rules, q) > 0 ==> exists r :: r in rules && Relevant(r, q) && MatchScore(r, q) == Best(rules, q)
  {
    if rules != [] {
      BestIsHighest(rules[1..], q);
      if Relevant(rules[0], q) && MatchScore(rules[0], q) > Best(rules[1..], q) {
        assert rules[0] in rules;
      }
    }
  }

  lemma {:induction false} PoolMembers(rules: seq<Rule>, q: Query, best: nat)
    ensures forall r :: r in Pool(rules, q, best) <==> r in rules && Eligible(r, q, best)
  {
    if rules != [] {
      PoolMembers(rules[1..], q, best);
    }
  }

  lemma {:induction false} EffectiveMembers(pool: seq<Rule>, day: Day)
    ensures forall r :: r in EffectiveRules(pool, day) <==> r in pool && r.EffectiveOn(day)
  {
    if pool != [] {
      EffectiveMembers(pool[1..], day);
    }
  }

  lemma {:induction false} UndatedMembers(pool: seq<Rule>)
    ensures forall r :: r in Undated(pool) <==> r in pool && r.validFrom.None?
  {
    if pool != [] {
      UndatedMembers(pool[1..]);
    }
  }

  lemma {:induction false} LatestIsLatest(rules: seq<Rule>)
    requires rules != []
    ensures Latest(rules) in rules && forall r :: r in rules ==> !Later(r, Latest(rules))
  {
    if |rules| > 1 {
      LatestIsLatest(rules[1..]);
      assert rules == [rules[0]] + rules[1..];
    }
  }

  /** A dated answer is in effect on the date and no eligible rule in effect starts later;
      only an undated rule stands in, flagged, when no eligible rule is in effect. */
  lemma {:induction false} SelectionMeans(rules: seq<Rule>, q: Query, day: Day)
    ensures var best, a := Best(rules, q), Select(rules, q, Some(day));
            && (a.Found? ==>
                  && a.rule in rules && Eligible(a.rule, q, best)
                  && (a.undated <==> !a.rule.EffectiveOn(day)) && (a.undated ==> a.rule.validFrom.None?)
                  && forall r :: r in rules && Eligible(r, q, best) && r.EffectiveOn(day) ==> !a.undated && !Later(r, a.rule))
            && (a.NotFound? ==> forall r :: r in rules && Eligible(r, q, best) ==> !r.EffectiveOn(day) && r.validFrom.Some?)
  {
    var best := Best(rules, q);
    var pool := Pool(rules, q, best);
    PoolMembers(rules, q, best);
    EffectiveMembers(pool, day);
    UndatedMembers(pool);
    if EffectiveRules(pool, day) != [] {
      LatestIsLatest(EffectiveRules(pool, day));
    } else if Undated(pool) != [] {
      assert Undated(pool)[0] in Undated(pool);
    }
  }

  // ---------------------------------------------------------------- adding a rule that starts later

  lemma {:induction false} BestWithOneMore(left: seq<Rule>, added: Rule, right: seq<Rule>, q: Query)
    ensures Best(left + [added] + right, q)
         == if Relevant(added, q) && MatchScore(added, q) > Best(left + right, q) then MatchScore(added, q)
            else Best(left + right, q)
  {
    if left == [] {
      assert left + [added] + right == [added] + right && left + right == right;
    } else {
      BestWithOneMore(left[1..], added, right, q);
      assert (left + [added] + right)[1..] == left[1..] + [added] + right && (left + right)[1..] == left[1..] + right;
    }
  }

  lemma {:induction false} PoolWithOneMore(left: seq<Rule>, added: Rule, right: seq<Rule>, q: Query, best: nat, day: Day)
    requires added.validFrom.Some? && day < added.validFrom.value
    ensures var before, after := Pool(left + right, q, best), Pool(left + [added] + right, q, best);
            && EffectiveRules(after, day) == EffectiveRules(before, day) && Undated(after) == Undated(before)
  {
    if left == [] {
      assert left + [added] + right == [added] + right && left + right == right;
      assert ([added] + right)[1..] == right;
      var rest := Pool(right, q, best);
      assert ([added] + rest)[1..] == rest && [] + rest == rest;
    } else {
      PoolWithOneMore(left[1..], added, right, q, best, day);
      var before, after := Pool(left[1..] + right, q, best), Pool(left[1..] + [added] + right, q, best);
      assert (left + [added] + right)[1..] == left[1..] + [added] + right && (left + right)[1..] == left[1..] + right;
      assert ([left[0]] + before)[1..] == before && ([left[0]] + after)[1..] == after;
      assert [] + before == before && [] + after == after;
    }
  }

  /** Main result: adding, anywhere in the store, a rule that starts after the usage date
      leaves that date's answer unchanged exactly when the rule is for something else, or
      scores no higher than the best match, or there was no answer to lose. */
  lemma {:induction false} LaterRuleIsNotRetroactive(left: seq<Rule>, added: Rule, right: seq<Rule>, q: Query, day: Day)
    requires added.validFrom.Some? && day < added.validFrom.value
    ensures var before, after := Select(left + right, q, Some(day)), Select(left + [added] + right, q, Some(day));
            && (after == before <==>
                  !Relevant(added, q) || MatchScore(added, q) <= Best(left + right, q) || before == NotFound)
            && (after != before ==> after == NotFound)
  {
    var rules, more, best := left + right, left + [added] + right, Best(left + right, q);
    BestWithOneMore(left, added, right, q);
    if Relevant(added, q) && MatchScore(added, q) > best {
      BestIsHighest(rules, q);
      SelectionMeans(more, q, day);
      assert forall r :: r in more && Eligible(r, q, Best(more, q)) ==> r == added;
    } else {
      PoolWithOneMore(left, added, right, q, best, day);
    }
  }

  /** An answer really is lost: a generic rule in effect answers, until a rule that starts later
      and names the queried category is added. */
  lemma {:induction false} LaterRuleLosesAnAnswer(generic: Rule, added: Rule, q: Query, category: string, day: Day)
    requires Relevant(generic, q) && generic.Generic() && generic.EffectiveOn(day)
    requires q.service == None && q.category == Some(category) && category != ""
    requires Relevant(added, q) && added.categories == [category] && added.validFrom == Some(day + 1)
    ensures Select([generic], q, Some(day)) == Found(generic, true, false)
    ensures Select([generic, added], q, Some(day)) == NotFound
  {
    assert MatchScore(generic, q) == 0 && MatchScore(added, q) == 3;
    assert Best([generic][1..], q) == 0 && Pool([generic][1..], q, 0) == [];
    assert Best([generic], q) == 0 && Pool([generic], q, 0) == [generic] && EffectiveRules([generic], day) == [generic];
    assert [generic] + [added] + [] == [generic, added] && [generic] + [] == [generic];
    LaterRuleIsNotRetroactive([generic], added, [], q, day);
  }

  // ---------------------------------------------------------------- succession

  /** Two rules no query can tell apart on a day. */
  predicate Alike(a: Rule, b: Rule, day: Day) {
    && a.id == b.id && a.provider == b.provider && a.ruleType == b.ruleType && a.service == b.service
    && a.services == b.services && a.categories == b.categories && a.validFrom == b.validFrom
    && a.EffectiveOn(day) == b.EffectiveOn(day)
  }

  predicate AllAlike(a: seq<Rule>, b: seq<Rule>, day: Day) {
    |a| == |b| && forall i :: 0 <= i < |a| ==> Alike(a[i], b[i], day)
  }

  lemma {:induction false} BestAlike(a: seq<Rule>, b: seq<Rule>, q: Query, day: Day)
    requires AllAlike(a, b, day)
    ensures Best(a, q) == Best(b, q)
  {
    if a != [] {
      assert AllAlike(a[1..], b[1..], day);
      BestAlike(a[1..], b[1..], q, day);
      assert Alike(a[0], b[0], day);
    }
  }

  lemma {:induction false} PoolAlike(a: seq<Rule>, b: seq<Rule>, q: Query, best: nat, day: Day)
    requires AllAlike(a, b, day)
    ensures AllAlike(Pool(a, q, best), Pool(b, q, best), day)
  {
    if a != [] {
      assert AllAlike(a[1..], b[1..], day);
      PoolAlike(a[1..], b[1..], q, best, day);
      assert Alike(a[0], b[0], day);
    }
  }

  lemma {:induction false} EffectiveAlike(a: seq<Rule>, b: seq<Rule>, day: Day)
    requires AllAlike(a, b, day)
    ensures AllAlike(EffectiveRules(a, day), EffectiveRules(b, day), day)
  {
    if a != [] {
      assert AllAlike(a[1..], b[1..], day);
      EffectiveAlike(a[1..], b[1..], day);
      assert Alike(a[0], b[0], day);
    }
  }

  lemma {:induction false} UndatedAlike(a: seq<Rule>, b: seq<Rule>, day: Day)
    requires AllAlike(a, b, day)
    ensures AllAlike(Undated(a), Undated(b), day)
  {
    if a != [] {
      assert AllAlike(a[1..], b[1..], day);
      UndatedAlike(a[1..], b[1..], day);
      assert Alike(a[0], b[0], day);
    }
  }

  lemma {:induction false} LatestAlike(a: seq<Rule>, b: seq<Rule>, day: Day)
    requires AllAlike(a, b, day) && a != []
    ensures Alike(Latest(a), Latest(b), day)
  {
    assert Alike(a[0], b[0], day);
    if |a| > 1 {
      assert AllAlike(a[1..], b[1..], day);
      LatestAlike(a[1..], b[1..], day);
    }
  }

  predicate SameAnswer(a: Answer, b: Answer) {
    if a.Found? then b.Found? && a.rule.id == b.rule.id && a.generic == b.generic && a.undated == b.undated else b.NotFound?
  }

  lemma {:induction false} SelectAlike(a: seq<Rule>, b: seq<Rule>, q: Query, day: Day)
    requires AllAlike(a, b, day)
    ensures SameAnswer(Select(a, q, Some(day)), Select(b, q, Some(day)))
  {
    BestAlike(a, b, q, day);
    var best := Best(a, q);
    var pa, pb := Pool(a, q, best), Pool(b, q, best);
    PoolAlike(a, b, q, best, day);
    EffectiveAlike(pa, pb, day);
    UndatedAlike(pa, pb, day);
    if EffectiveRules(pa, day) != [] {
      LatestAlike(EffectiveRules(pa, day), EffectiveRules(pb, day), day);
    } else if Undated(pa) != [] {
      assert Alike(Undated(pa)[0], Undated(pb)[0], day);
    }
  }

  /** The store in which rule `i` ends the day before its successor starts, the successor
      standing anywhere. */
  ghost predicate Succeeds(rules: seq<Rule>, i: nat, next: Rule, left: seq<Rule>, right: seq<Rule>) {
    && i < |rules| && next.validFrom.Some? && next.validTo.None?
    && rules[i].validTo.None? && rules[i].validFrom.Some? && rules[i].validFrom.value < next.validFrom.value
    && next.provider == rules[i].provider && next.ruleType == rules[i].ruleType && next.service == rules[i].service
    && next.services == rules[i].services && next.categories == rules[i].categories
    && left + right == rules[i := Closed(rules[i], next.validFrom.value - 1)]
  }

  function Closed(r: Rule, last: Day): Rule { r.(validTo := Some(last)) }

  lemma {:induction false} SuccessorScores(rules: seq<Rule>, i: nat, next: Rule, left: seq<Rule>, right: seq<Rule>, q: Query)
    requires Succeeds(rules, i, next, left, right)
    ensures Best(left + right, q) == Best(rules, q) == Best(left + [next] + right, q)
    ensures Relevant(next, q) ==> MatchScore(next, q) <= Best(rules, q)
    ensures forall best: nat :: Eligible(next, q, best) == Eligible(rules[i], q, best)
  {
    assert AllAlike(rules, left + right, rules[i].validFrom.value);
    BestAlike(rules, left + right, q, rules[i].validFrom.value);
    BestIsHighest(rules, q);
    assert rules[i] in rules && MatchScore(next, q) == MatchScore(rules[i], q);
    BestWithOneMore(left, next, right, q);
  }

  /** Main result: closing an open-ended rule and adding its successor changes no answer for
      a date before the successor starts. */
  lemma {:induction false} SuccessionKeepsThePast(
      rules: seq<Rule>, i: nat, next: Rule, left: seq<Rule>, right: seq<Rule>, q: Query, day: Day)
    requires Succeeds(rules, i, next, left, right) && day < next.validFrom.value
    ensures SameAnswer(Select(rules, q, Some(day)), Select(left + [next] + right, q, Some(day)))
  {
    assert AllAlike(rules, left + right, day);
    SelectAlike(rules, left + right, q, day);
    SuccessorScores(rules, i, next, left, right, q);
    LaterRuleIsNotRetroactive(left, next, right, q, day);
  }

  /** The rules of a list that answer for a day. */
  function Answering(rules: seq<Rule>, q: Query, best: nat, day: Day): seq<Rule> {
    EffectiveRules(Pool(rules, q, best), day)
  }

  lemma {:induction false} AnsweringMembers(rules: seq<Rule>, q: Query, best: nat, day: Day)
    ensures forall r :: r in Answering(rules, q, best, day) <==> r in rules && Eligible(r, q, best) && r.EffectiveOn(day)
  {
    PoolMembers(rules, q, best);
    EffectiveMembers(Pool(rules, q, best), day);
  }

  lemma {:induction false} AnsweringFirst(r: Rule, rules: seq<Rule>, q: Query, best: nat, day: Day)
    ensures Answering([r] + rules, q, best, day)
         == (if Eligible(r, q, best) && r.EffectiveOn(day) then [r] else []) + Answering(rules, q, best, day)
  {
    var rest := Pool(rules, q, best);
    assert ([r] + rules)[1..] == rules && ([r] + rest)[1..] == rest && [] + rest == rest;
  }

  lemma {:induction false} AnsweringAppend(left: seq<Rule>, right: seq<Rule>, q: Query, best: nat, day: Day)
    ensures Answering(left + right, q, best, day) == Answering(left, q, best, day) + Answering(right, q, best, day)
  {
    if left == [] {
      assert left + right == right;
    } else {
      AnsweringAppend(left[1..], right, q, best, day);
      AnsweringFirst(left[0], left[1..], q, best, day);
      AnsweringFirst(left[0], left[1..] + right, q, best, day);
      assert left == [left[0]] + left[1..] && left + right == [left[0]] + (left[1..] + right);
    }
  }

  lemma {:induction false} AnsweringAround(left: seq<Rule>, r: Rule, right: seq<Rule>, q: Query, best: nat, day: Day)
    ensures Answering(left + [r] + right, q, best, day)
         == Answering(left, q, best, day) + (if Eligible(r, q, best) && r.EffectiveOn(day) then [r] else [])
            + Answering(right, q, best, day)
  {
    assert left + [r] + right == left + ([r] + right);
    AnsweringAppend(left, [r] + right, q, best, day);
    AnsweringFirst(r, right, q, best, day);
  }

  /** Starting later than the rule that answers now, or together with it and before every
      rule that starts that day. */
  predicate Displaces(next: Rule, now: Rule, ahead: seq<Rule>) {
    Later(next, now) || (!Later(now, next) && forall r :: r in ahead ==> Later(next, r))
  }

  lemma {:induction false} LatestWithOneMore(left: seq<Rule>, added: Rule, right: seq<Rule>)
    requires added.validFrom.Some? && forall r :: r in left + right ==> r.validFrom.Some?
    ensures Latest(left + [added] + right)
         == if left + right == [] || Displaces(added, Latest(left + right), left) then added else Latest(left + right)
  {
    if left == [] {
      assert left + [added] + right == [added] + right && left + right == right;
    } else {
      var first, rest := left[0], left[1..];
      assert (left + [added] + right)[1..] == rest + [added] + right && (left + right)[1..] == rest + right;
      assert left == [first] + rest;
      LatestWithOneMore(rest, added, right);
      if rest + right != [] {
        LatestIsLatest(rest + right);
      } else {
        assert rest + [added] + right == [added];
      }
    }
  }

  /** The rules that answer after the succession are those that did, less the old rule, and
      the successor. */
  lemma {:induction false} AnsweringMovesOn(
      rules: seq<Rule>, i: nat, next: Rule, left: seq<Rule>, right: seq<Rule>, q: Query, day: Day)
    requires Succeeds(rules, i, next, left, right) && next.validFrom.value <= day
    requires Eligible(rules[i], q, Best(rules, q))
    ensures var best := Best(rules, q);
            var before, behind := Answering(rules[..i], q, best, day), Answering(rules[i + 1..], q, best, day);
            var ahead, after := Answering(left, q, best, day), Answering(right, q, best, day);
            && Answering(rules, q, best, day) == before + [rules[i]] + behind
            && Answering(left + [next] + right, q, best, day) == ahead + [next] + after
            && before + behind == ahead + after
  {
    var best, closed := Best(rules, q), Closed(rules[i], next.validFrom.value - 1);
    var before, behind := Answering(rules[..i], q, best, day), Answering(rules[i + 1..], q, best, day);
    SuccessorScores(rules, i, next, left, right, q);
    SplitAt(rules, i, closed);
    AnsweringAround(rules[..i], rules[i], rules[i + 1..], q, best, day);
    AnsweringAround(rules[..i], closed, rules[i + 1..], q, best, day);
    AnsweringAppend(left, right, q, best, day);
    AnsweringAround(left, next, right, q, best, day);
    assert before + [] + behind == before + behind;
  }

  lemma {:induction false} LatestMovesOn(
      before: seq<Rule>, former: Rule, behind: seq<Rule>, ahead: seq<Rule>, next: Rule, after: seq<Rule>)
    requires before + behind == ahead + after && forall r :: r in ahead + after ==> r.validFrom.Some?
    requires next.validFrom.Some? && former.validFrom.Some? && former.validFrom.value < next.validFrom.value
    ensures var now := Latest(before + [former] + behind);
            Latest(ahead + [next] + after) == if Displaces(next, now, ahead) then next else now
  {
    LatestWithOneMore(before, former, behind);
    LatestWithOneMore(ahead, next, after);
    if ahead + after != [] {
      LatestIsLatest(ahead + after);
    }
  }

  /** Main result: from its start on, wherever the old rule was a candidate, the successor
      answers exactly when it starts later than the rule that answers now, or on the same
      day and stands first; otherwise that rule goes on answering. */
  lemma {:induction false} SuccessionFromItsStart(
      rules: seq<Rule>, i: nat, next: Rule, left: seq<Rule>, right: seq<Rule>, q: Query, day: Day)
    requires Succeeds(rules, i, next, left, right) && next.validFrom.value <= day
    requires Eligible(rules[i], q, Best(rules, q))
    ensures var now, best := Select(rules, q, Some(day)), Best(rules, q);
            && now.Found? && !now.undated
            && Select(left + [next] + right, q, Some(day))
               == if Displaces(next, now.rule, Answering(left, q, best, day)) then Found(next, best == 0, false) else now
  {
    var best := Best(rules, q);
    var ahead, after := Answering(left, q, best, day), Answering(right, q, best, day);
    SuccessorScores(rules, i, next, left, right, q);
    AnsweringMovesOn(rules, i, next, left, right, q, day);
    AnsweringAppend(left, right, q, best, day);
    AnsweringMembers(left + right, q, best, day);
    LatestMovesOn(Answering(rules[..i], q, best, day), rules[i], Answering(rules[i + 1..], q, best, day), ahead, next, after);
    SomeoneAnswers(rules, q, day);
    SomeoneAnswers(left + [next] + right, q, day);
  }

  lemma {:induction false} SomeoneAnswers(rules: seq<Rule>, q: Query, day: Day)
    requires Answering(rules, q, Best(rules, q), day) != []
    ensures Select(rules, q, Some(day)) == Found(Latest(Answering(rules, q, Best(rules, q), day)), Best(rules, q) == 0, false)
  {
  }

  /** In particular the successor answers wherever the old rule did. */
  lemma {:induction false} SuccessionTakesOver(
      rules: seq<Rule>, i: nat, next: Rule, left: seq<Rule>, right: seq<Rule>, q: Query, day: Day)
    requires Succeeds(rules, i, next, left, right) && next.validFrom.value <= day
    requires var a := Select(rules, q, Some(day)); a.Found? && a.rule == rules[i]
    ensures var a := Select(left + [next] + right, q, Some(day));
            a.Found? && a.rule == next && a.generic == Select(rules, q, Some(day)).generic && !a.undated
  {
    SelectionMeans(rules, q, day);
    SuccessionFromItsStart(rules, i, next, left, right, q, day);
  }

  lemma {:induction false} PoolSkips(left: seq<Rule>, r: Rule, right: seq<Rule>, q: Query, best: nat)
    requires !Eligible(r, q, best)
    ensures Pool(left + [r] + right, q, best) == Pool(left + right, q, best)
  {
    if left == [] {
      assert left + [r] + right == [r] + right && left + right == right && ([r] + right)[1..] == right;
    } else {
      PoolSkips(left[1..], r, right, q, best);
      assert (left + [r] + right)[1..] == left[1..] + [r] + right && (left + right)[1..] == left[1..] + right;
    }
  }

  lemma {:induction false} SplitAt(rules: seq<Rule>, i: nat, r: Rule)
    requires i < |rules|
    ensures rules[i := r] == rules[..i] + [r] + rules[i + 1..]
    ensures rules == rules[..i] + [rules[i]] + rules[i + 1..]
  {
  }

  /** A query the old rule was no candidate for keeps its answer on every date. */
  lemma {:induction false} SuccessionElsewhere(
      rules: seq<Rule>, i: nat, next: Rule, left: seq<Rule>, right: seq<Rule>, q: Query, day: Option<Day>)
    requires Succeeds(rules, i, next, left, right) && !Eligible(rules[i], q, Best(rules, q))
    ensures Select(left + [next] + right, q, day) == Select(rules, q, day)
  {
    var best, closed := Best(rules, q), Closed(rules[i], next.validFrom.value - 1);
    SuccessorScores(rules, i, next, left, right, q);
    PoolSkips(left, next, right, q, best);
    SplitAt(rules, i, closed);
    assert MatchScore(closed, q) == MatchScore(rules[i], q);
    PoolSkips(rules[..i], closed, rules[i + 1..], q, best);
    PoolSkips(rules[..i], rules[i], rules[i + 1..], q, best);
  }
}
