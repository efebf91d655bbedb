/**
 What an allocation says in terms of the audit trail: which names meet which resources, who
 is given what part of a record, and by which weighting.
 */
module Attribution {
  import opened Common
  import opened Maths
  import opened Strings
  import opened Costs
  import opened Comparison
  import opened Actors

  // ---------------------------------------------------------------- which names meet

  predicate Arn(id: string) { StartsWith(id, "arn:") }

  predicate InstanceArn(id: string) { Arn(id) && Contains(id, ":ec2:") && Contains(id, ":instance/") }

  predicate BucketArn(id: string) { Arn(id) && Contains(id, ":s3:::") }

  lemma {:induction false} AfterLastMeans(head: string, separator: char, tail: string)
    requires separator !in tail
    ensures AfterLast(head + [separator] + tail, separator) == tail
  {
    var whole := head + [separator] + tail;
    if head == "" {
      assert whole[1..] == tail;
    } else {
      AfterLastMeans(head[1..], separator, tail);
      assert whole[1..] == head[1..] + [separator] + tail;
      assert separator in whole[1..] by {
        assert whole[1..][|head| - 1] == separator;
      }
    }
  }

  /** An instance's long name also goes by what follows its last slash, a bucket's by what follows
      its last colon; every other name stands for itself alone, so no suffix is ever guessed. */
  lemma {:induction false} LongNamesMean(head: string, tail: string, id: string)
    ensures id in Aliases(id)
    ensures !InstanceArn(id) && !BucketArn(id) ==> Aliases(id) == [id]
    ensures id == head + "/" + tail && '/' !in tail && tail != "" && InstanceArn(id) ==> Aliases(id) == [id, tail]
    ensures id == head + ":" + tail && ':' !in tail && tail != "" && BucketArn(id) && !InstanceArn(id) ==> Aliases(id) == [id, tail]
  {
    if id == head + "/" + tail && '/' !in tail {
      AfterLastMeans(head, '/', tail);
    }
    if id == head + ":" + tail && ':' !in tail {
      AfterLastMeans(head, ':', tail);
    }
  }

  /** An event that names an instance's or a bucket's long name meets a record under the short
      one, on the same day. */
  lemma {:induction false} ShortNamesMeet(head: string, tail: string, e: Event, r: Record)
    requires e.resourceIds == [head + "/" + tail] && '/' !in tail && tail != "" && InstanceArn(head + "/" + tail)
    requires r.resourceId == Some(tail) && e.day == r.day
    ensures Meets(e, r)
  {
    var id := head + "/" + tail;
    LongNamesMean(head, tail, id);
    LongNamesMean(head, tail, tail);
    assert AllAliases(e.resourceIds[..0]) == [] && AllAliases(e.resourceIds) == Aliases(id);
    assert Aliases(id)[1] == tail;
  }

  // ---------------------------------------------------------------- who is behind an event

  /** The event's principal, or nobody known. */
  predicate By(e: Event, actor: string) {
    if e.actor.Some? && e.actor.value != "" then actor == e.actor.value else actor == UNATTRIBUTED
  }

  function TokensOf(e: Event): real { if e.tokens.Some? then e.tokens.value else 0.0 }

  predicate AllCounted(events: seq<Event>) {
    forall i :: 0 <= i < |events| ==> events[i].tokens.Some? && events[i].tokens.value > 0.0
  }

  /** Tokens, or events, of one principal. */
  function OwnTokens(events: seq<Event>, actor: string): real {
    if events == [] then 0.0 else (if By(events[0], actor) then TokensOf(events[0]) else 0.0) + OwnTokens(events[1..], actor)
  }

  function OwnEvents(events: seq<Event>, actor: string): nat {
    if events == [] then 0 else (if By(events[0], actor) then 1 else 0) + OwnEvents(events[1..], actor)
  }

  function AllTokensOf(events: seq<Event>): real {
    if events == [] then 0.0 else TokensOf(events[0]) + AllTokensOf(events[1..])
  }

  lemma {:induction false} OwnLast(events: seq<Event>, e: Event, actor: string)
    ensures OwnTokens(events + [e], actor) == OwnTokens(events, actor) + (if By(e, actor) then TokensOf(e) else 0.0)
    ensures OwnEvents(events + [e], actor) == OwnEvents(events, actor) + (if By(e, actor) then 1 else 0)
    ensures AllTokensOf(events + [e]) == AllTokensOf(events) + TokensOf(e)
  {
    if events == [] {
      assert [] + [e] == [e] && [e][1..] == [];
    } else {
      OwnLast(events[1..], e, actor);
      assert (events + [e])[1..] == events[1..] + [e];
    }
  }

  /** The share of a principal: of the tokens where every event counts them, else of the events. */
  function TrailShare(events: seq<Event>, actor: string): real
    requires events != [] && (AllCounted(events) ==> AllTokensOf(events) != 0.0)
  {
    if AllCounted(events) then OwnTokens(events, actor) / AllTokensOf(events)
    else OwnEvents(events, actor) as real / |events| as real
  }

  /** The weights are the trail's own sums. */
  lemma {:induction false} WeightsFollowTheTrail(events: seq<Event>, byTokens: bool, actor: string)
    requires byTokens ==> AllCounted(events)
    ensures var ws := Accumulated(events, byTokens);
            && AmountOf(ws, actor) == (if byTokens then OwnTokens(events, actor) else OwnEvents(events, actor) as real)
            && Total(ws) == (if byTokens then AllTokensOf(events) else |events| as real)
            && PositiveWeights(ws)
            && forall i :: 0 <= i < |ws| ==> Behind(events, ws[i].actor)
  {
    if events != [] {
      var init, e := events[..|events| - 1], events[|events| - 1];
      assert events == init + [e];
      WeightsFollowTheTrail(init, byTokens, actor);
      OwnLast(init, e, actor);
      WeighedAdds(Accumulated(init, byTokens), Principal(e), One(e, byTokens), actor);
      WeighedNames(Accumulated(init, byTokens), e, byTokens, init);
    }
  }

  /** The principal of some event. */
  predicate Behind(events: seq<Event>, actor: string) { exists j :: 0 <= j < |events| && By(events[j], actor) }

  lemma {:induction false} BehindMore(events: seq<Event>, e: Event, actor: string)
    requires Behind(events, actor) || By(e, actor)
    ensures Behind(events + [e], actor)
  {
    var more := events + [e];
    if By(e, actor) {
      assert By(more[|events|], actor);
    } else {
      var j :| 0 <= j < |events| && By(events[j], actor);
      assert By(more[j], actor);
    }
  }

  lemma {:induction false} WeighedNames(ws: seq<Weight>, e: Event, byTokens: bool, init: seq<Event>)
    requires forall i :: 0 <= i < |ws| ==> Behind(init, ws[i].actor)
    ensures var after := Weighed(ws, Principal(e), One(e, byTokens));
            forall i :: 0 <= i < |after| ==> Behind(init + [e], after[i].actor)
  {
    var after := Weighed(ws, Principal(e), One(e, byTokens));
    forall i | 0 <= i < |after|
      ensures Behind(init + [e], after[i].actor)
    {
      WeighedActor(ws, Principal(e), One(e, byTokens), i);
      BehindMore(init, e, after[i].actor);
    }
  }

  lemma {:induction false} WeighedActor(ws: seq<Weight>, actor: string, amount: real, i: nat)
    requires i < |Weighed(ws, actor, amount)|
    ensures var w := Weighed(ws, actor, amount)[i]; w.actor == actor || exists k :: 0 <= k < |ws| && ws[k].actor == w.actor
  {
    if ws != [] && ws[0].actor != actor && i > 0 {
      WeighedActor(ws[1..], actor, amount, i - 1);
      var w := Weighed(ws[1..], actor, amount)[i - 1];
      if w.actor != actor {
        var k :| 0 <= k < |ws[1..]| && ws[1..][k].actor == w.actor;
        assert ws[k + 1].actor == w.actor;
      }
    }
  }

  // ---------------------------------------------------------------- what each actor is given

  lemma {:induction false} AmountIsOwn(ws: seq<Weight>, i: nat)
    requires DistinctActors(ws) && i < |ws|
    ensures AmountOf(ws, ws[i].actor) == ws[i].amount
  {
    if i == 0 {
      NoneOf(ws[1..], ws[0].actor);
    } else {
      AmountIsOwn(ws[1..], i - 1);
    }
  }

  lemma {:induction false} NoneOf(ws: seq<Weight>, actor: string)
    requires forall i :: 0 <= i < |ws| ==> ws[i].actor != actor
    ensures AmountOf(ws, actor) == 0.0
  {
    if ws != [] {
      NoneOf(ws[1..], actor);
    }
  }

  lemma {:induction false} PositiveOwns(ws: seq<Weight>, actor: string)
    requires AmountOf(ws, actor) > 0.0
    ensures exists i :: 0 <= i < |ws| && ws[i].actor == actor
  {
    if ws[0].actor != actor {
      PositiveOwns(ws[1..], actor);
      var i :| 0 <= i < |ws[1..]| && ws[1..][i].actor == actor;
      assert ws[i + 1].actor == actor;
    }
  }

  lemma {:induction false} SortedWeight(ws: seq<Weight>, i: nat)
    requires DistinctActors(ws) && i < |ws|
    ensures var w := HeaviestFirst(ws)[i];
            w.amount == AmountOf(ws, w.actor) && exists j :: 0 <= j < |ws| && ws[j] == w
  {
    var w := HeaviestFirst(ws)[i];
    HeaviestFirstProperties(ws);
    assert w in multiset(HeaviestFirst(ws));
    assert w in ws;
    var j :| 0 <= j < |ws| && ws[j] == w;
    AmountIsOwn(ws, j);
  }

  function OwnWeight(events: seq<Event>, actor: string): real {
    if AllCounted(events) then OwnTokens(events, actor) else OwnEvents(events, actor) as real
  }

  function AllWeight(events: seq<Event>): real { if AllCounted(events) then AllTokensOf(events) else |events| as real }

  ghost predicate FollowTrail(ws: seq<Weight>, events: seq<Event>) {
    && ws != [] && PositiveWeights(ws) && DistinctActors(ws) && Total(ws) == AllWeight(events)
    && (forall actor :: AmountOf(ws, actor) == OwnWeight(events, actor))
    && (forall i :: 0 <= i < |ws| ==> Behind(events, ws[i].actor))
  }

  lemma {:induction false} SplitByTrail(r: Record, events: seq<Event>) returns (ws: seq<Weight>)
    requires Matching(events, r) != []
    ensures AllocatedOne(r, events) == Split(r, ws) && FollowTrail(ws, Matching(events, r))
  {
    var matches := Matching(events, r);
    ws := Accumulated(matches, AllCounted(matches));
    assert AllTokens(matches) == AllCounted(matches);
    WeightsAreSums(matches, AllCounted(matches), "");
    EachActorWeighsOnce(matches, AllCounted(matches));
    forall actor
      ensures AmountOf(ws, actor) == OwnWeight(matches, actor)
    {
      WeightsFollowTheTrail(matches, AllCounted(matches), actor);
    }
    WeightsFollowTheTrail(matches, AllCounted(matches), "");
  }

  lemma {:induction false} PartOfItsActor(r: Record, ws: seq<Weight>, events: seq<Event>, a: Amount, i: nat)
    requires FollowTrail(ws, events) && i < |ws|
    ensures var parts := Split(r, ws);
            && |parts| == |ws| && AllWeight(events) > 0.0 && Behind(events, ActorOf(parts[i]))
            && Abs(Of(parts[i], a) as real - Share(Of(r, a), OwnWeight(events, ActorOf(parts[i])), AllWeight(events)))
               <= (if i == 0 then (|parts| - 1) as real / 2.0 else 0.5)
  {
    SplitIsFair(r, ws, a, i);
    SplitNamesEachActor(r, ws, i);
    SortedWeight(ws, i);
  }

  /** Of n parts, the first within (n - 1) / 2 micro-units of its principal's share of the
      amount, every other within a half. */
  predicate FairPart(part: Record, r: Record, a: Amount, events: seq<Event>, i: nat, n: nat)
    requires events != [] && (AllCounted(events) ==> AllTokensOf(events) > 0.0)
  {
    Abs(Of(part, a) as real - Of(r, a) as real * TrailShare(events, ActorOf(part)))
    <= (if i == 0 then (n - 1) as real / 2.0 else 0.5)
  }

  lemma {:induction false} FairByTrail(part: Record, r: Record, a: Amount, events: seq<Event>, i: nat, n: nat)
    requires events != [] && AllWeight(events) > 0.0
    requires Abs(Of(part, a) as real - Share(Of(r, a), OwnWeight(events, ActorOf(part)), AllWeight(events)))
             <= (if i == 0 then (n - 1) as real / 2.0 else 0.5)
    ensures AllCounted(events) ==> AllTokensOf(events) > 0.0
    ensures FairPart(part, r, a, events, i, n)
  {
  }

  /** Main result: a record is shared out by the trail. Each part belongs to a principal of a
      matching event and is within a rounding of the record's amount times that principal's
      share, by tokens when every event that meets the record counts them, and otherwise by
      the number of events. */
  lemma {:induction false} SharesFollowTheTrail(r: Record, events: seq<Event>, a: Amount, i: nat)
    requires Matching(events, r) != [] && i < |AllocatedOne(r, events)|
    ensures AllCounted(Matching(events, r)) ==> AllTokensOf(Matching(events, r)) > 0.0
    ensures Behind(Matching(events, r), ActorOf(AllocatedOne(r, events)[i]))
    ensures FairPart(AllocatedOne(r, events)[i], r, a, Matching(events, r), i, |AllocatedOne(r, events)|)
  {
    var ws := SplitByTrail(r, events);
    SplitLength(r, ws);
    PartOfItsActor(r, ws, Matching(events, r), a, i);
    FairByTrail(Split(r, ws)[i], r, a, Matching(events, r), i, |ws|);
  }

  lemma {:induction false} SplitLength(r: Record, ws: seq<Weight>)
    requires ws != [] && PositiveWeights(ws)
    ensures |Split(r, ws)| == |ws|
  {
    SplitNamesEachActor(r, ws, 0);
  }

  /** Every principal of a matching event is given a part, and no principal two. */
  lemma {:induction false} NobodyIsForgotten(r: Record, events: seq<Event>, e: Event, actor: string) returns (i: nat)
    requires e in Matching(events, r) && By(e, actor)
    ensures i < |AllocatedOne(r, events)| && ActorOf(AllocatedOne(r, events)[i]) == actor
    ensures forall j :: 0 <= j < |AllocatedOne(r, events)| && j != i ==> ActorOf(AllocatedOne(r, events)[j]) != actor
  {
    var ws := SplitByTrail(r, events);
    OwnIsPositive(Matching(events, r), e, actor);
    SplitLength(r, ws);
    i := PartOfActor(r, ws, actor);
  }

  lemma {:induction false} PartOfActor(r: Record, ws: seq<Weight>, actor: string) returns (i: nat)
    requires ws != [] && PositiveWeights(ws) && DistinctActors(ws) && AmountOf(ws, actor) > 0.0
    ensures |Split(r, ws)| == |ws| && i < |ws| && ActorOf(Split(r, ws)[i]) == actor
    ensures forall j :: 0 <= j < |ws| && j != i ==> ActorOf(Split(r, ws)[j]) != actor
  {
    var sorted := HeaviestFirst(ws);
    HeaviestFirstProperties(ws);
    SplitLength(r, ws);
    PositiveOwns(ws, actor);
    var k :| 0 <= k < |ws| && ws[k].actor == actor;
    assert ws[k] in multiset(sorted);
    assert ws[k] in sorted;
    i :| 0 <= i < |sorted| && sorted[i] == ws[k];
    forall j | 0 <= j < |ws|
      ensures ActorOf(Split(r, ws)[j]) == sorted[j].actor
    {
      SplitNamesEachActor(r, ws, j);
    }
    SortedDistinct(ws, sorted);
  }

  lemma {:induction false} SortedDistinct(ws: seq<Weight>, sorted: seq<Weight>)
    requires DistinctActors(ws) && multiset(sorted) == multiset(ws)
    ensures DistinctActors(sorted)
  {
    forall i, j | 0 <= i < j < |sorted|
      ensures sorted[i].actor != sorted[j].actor
    {
      if sorted[i].actor == sorted[j].actor {
        assert sorted[i] in multiset(ws) && sorted[j] in multiset(ws);
        var p :| 0 <= p < |ws| && ws[p] == sorted[i];
        var q :| 0 <= q < |ws| && ws[q] == sorted[j];
        TwiceInMultiset(sorted, i, j);
        OnlyOnce(ws, p);
      }
    }
  }

  lemma {:induction false} OnlyOnce(ws: seq<Weight>, p: nat)
    requires DistinctActors(ws) && p < |ws|
    ensures multiset(ws)[ws[p]] == 1
  {
    assert ws == ws[..p] + [ws[p]] + ws[p + 1..];
    assert ws[p] !in ws[..p] && ws[p] !in ws[p + 1..];
  }

  lemma {:induction false} OwnIsPositive(events: seq<Event>, e: Event, actor: string)
    requires e in events && By(e, actor)
    ensures OwnEvents(events, actor) > 0
    ensures AllCounted(events) ==> OwnTokens(events, actor) > 0.0
  {
    if e in events[1..] {
      OwnIsPositive(events[1..], e, actor);
    } else {
      assert events[0] == e;
      OwnIsNonNegative(events[1..], actor);
    }
  }

  lemma {:induction false} OwnIsNonNegative(events: seq<Event>, actor: string)
    ensures AllCounted(events) ==> OwnTokens(events, actor) >= 0.0
  {
    if events != [] {
      OwnIsNonNegative(events[1..], actor);
    }
  }

  // ---------------------------------------------------------------- the method reported

  /** Some event that meets the record names a principal. */
  predicate Identified(events: seq<Event>) { exists j :: 0 <= j < |events| && !By(events[j], UNATTRIBUTED) }

  lemma {:induction false} DecidingMeans(matches: seq<Event>)
    ensures Deciding(ActorWeights(matches))
         == if matches == [] || !Identified(matches) then {} else if AllCounted(matches) then {TokenCount} else {InvocationCount}
  {
    if matches != [] {
      var ws := Accumulated(matches, AllCounted(matches));
      assert AllTokens(matches) == AllCounted(matches);
      WeightsFollowTheTrail(matches, AllCounted(matches), "");
      if Identified(matches) {
        var j :| 0 <= j < |matches| && !By(matches[j], UNATTRIBUTED);
        var actor := matches[j].actor.value;
        WeightsFollowTheTrail(matches, AllCounted(matches), actor);
        OwnIsPositive(matches, matches[j], actor);
        PositiveOwns(ws, actor);
      } else {
        forall i | 0 <= i < |ws|
          ensures ws[i].actor == UNATTRIBUTED
        {
          var j :| 0 <= j < |matches| && By(matches[j], ws[i].actor);
        }
      }
    }
  }

  /** A record some identified principal has a share of, weighed by tokens or not. */
  predicate Decides(r: Record, events: seq<Event>, byTokens: bool) {
    Identified(Matching(events, r)) && AllCounted(Matching(events, r)) == byTokens
  }

  predicate SomeDecides(rows: seq<Record>, events: seq<Event>, byTokens: bool) {
    exists i :: 0 <= i < |rows| && Decides(rows[i], events, byTokens)
  }

  lemma {:induction false} SomeLast(rows: seq<Record>, r: Record, events: seq<Event>, byTokens: bool)
    ensures SomeDecides(rows + [r], events, byTokens) <==> SomeDecides(rows, events, byTokens) || Decides(r, events, byTokens)
  {
    var more := rows + [r];
    assert forall i :: 0 <= i < |rows| ==> more[i] == rows[i];
    assert more[|rows|] == r;
  }

  lemma {:induction false} MethodsMean(rows: seq<Record>, events: seq<Event>)
    ensures TokenCount in Methods(rows, events) <==> SomeDecides(rows, events, true)
    ensures InvocationCount in Methods(rows, events) <==> SomeDecides(rows, events, false)
    ensures Methods(rows, events) <= {TokenCount, InvocationCount}
  {
    if rows != [] {
      var init, r := rows[..|rows| - 1], rows[|rows| - 1];
      assert rows == init + [r];
      MethodsMean(init, events);
      DecidingMeans(Matching(events, r));
      SomeLast(init, r, events, true);
      SomeLast(init, r, events, false);
    }
  }

  /** Main result: the method reported is that of the records an identified principal has a share
      of: tokens when all of them are weighed by tokens, events when none is, mixed when some
      are, none when there are none. */
  lemma {:induction false} MethodMeans(rows: seq<Record>, events: seq<Event>)
    ensures var tokens, counts := SomeDecides(rows, events, true), SomeDecides(rows, events, false);
            Actors.Overall(Methods(rows, events))
            == if tokens && counts then Mixed else if tokens then TokenCount else if counts then InvocationCount else NoWeight
  {
    MethodsMean(rows, events);
  }

  /** What is taken into an actor view: the provider's own records and events of either period. */
  lemma {:induction false} ScopeMeans(rows: seq<Record>, events: seq<Event>, provider: string, g: Grouping)
    ensures forall r :: r in InScope(rows, provider, g) <==>
              r in rows && r.provider == provider && (g.current.Contains(r.day) || g.baseline.Contains(r.day))
    ensures forall e :: e in Relevant(events, provider, g) <==>
              e in events && e.provider == provider && (g.current.Contains(e.day) || g.baseline.Contains(e.day))
    decreases |rows| + |events|
  {
    if rows != [] {
      assert rows == rows[..|rows| - 1] + [rows[|rows| - 1]];
      ScopeMeans(rows[..|rows| - 1], events, provider, g);
    } else if events != [] {
      assert events == events[..|events| - 1] + [events[|events| - 1]];
      ScopeMeans(rows, events[..|events| - 1], provider, g);
    }
  }

  /** What a reader is cautioned about: that events are a poor proxy for cost where only they were
      counted, that shares do not compare where both were, and what part is nobody's. */
  lemma {:induction false} CautionsMean(how: Method, owners: Owners)
    ensures InvocationsArePoorProxy in Cautions(how, owners) <==> how == InvocationCount
    ensures SharesNotComparable in Cautions(how, owners) <==> how == Mixed
    ensures forall share :: SomeUnattributed(share) in Cautions(how, owners) <==>
              owners.unattributedSize > 0 && share == owners.UnattributedShare()
    ensures owners.attributedSize + owners.unattributedSize > 0 ==>
              Abs(owners.UnattributedShare() - owners.unattributedSize as real / (owners.attributedSize + owners.unattributedSize) as real)
              <= 0.0000005
  {
    var whole := owners.attributedSize + owners.unattributedSize;
    if whole > 0 {
      RoundError(owners.unattributedSize as real / whole as real * 1000000.0);
    }
  }
}
