/**
 Allocating cost to the principals an audit trail names: joining events to records by
 resource and day, weighting actors, and splitting each record without losing a micro-unit.
 */
module Actors {
  import opened Common
  import opened Maths
  import opened Strings
  import opened Costs
  import opened Comparison
  import opened Sorting

  datatype Event = Event(provider: string, id: string, day: Day, actor: Option<string>, resourceIds: seq<string>, tokens: Option<real>)

  datatype Weight = Weight(actor: string, amount: real)

  datatype Method = NoWeight | TokenCount | InvocationCount | Mixed

  // ---------------------------------------------------------------- joining by resource and day

  /** The forms one resource takes on a bill and in an audit trail. */
  function Aliases(id: string): seq<string> {
    var instance := Contains(id, ":ec2:") && Contains(id, ":instance/");
    var bucket := Contains(id, ":s3:::");
    if !StartsWith(id, "arn:") || !(instance || bucket) then [id]
    else
      var tail := AfterLast(id, if instance then '/' else ':');
      if tail == "" || tail == id then [id] else [id, tail]
  }

  type Index = map<(string, Day), seq<Event>>

  function Under(index: Index, alias: string, day: Day): seq<Event> {
    if (alias, day) in index then index[(alias, day)] else []
  }

  function Times(aliases: seq<string>, alias: string, e: Event): seq<Event> {
    if aliases == [] then []
    else Times(aliases[..|aliases| - 1], alias, e) + (if aliases[|aliases| - 1] == alias then [e] else [])
  }

  function AllAliases(ids: seq<string>): seq<string> {
    if ids == [] then [] else AllAliases(ids[..|ids| - 1]) + Aliases(ids[|ids| - 1])
  }

  /** The events filed under one alias and day, in trail order. */
  function Filed(events: seq<Event>, alias: string, day: Day): seq<Event> {
    if events == [] then []
    else
      var e := events[|events| - 1];
      Filed(events[..|events| - 1], alias, day) + Adds(e, AllAliases(e.resourceIds), alias, day)
  }

  method CollectAliases(ids: seq<string>) returns (aliases: seq<string>)
    ensures aliases == AllAliases(ids)
  {
    aliases := [];
    for i := 0 to |ids|
      invariant aliases == AllAliases(ids[..i])
    {
      assert ids[..i + 1][..i] == ids[..i];
      aliases := aliases + Aliases(ids[i]);
    }
    assert ids[..|ids|] == ids;
  }

  /** What one event adds under an alias and a day. */
  function Adds(e: Event, aliases: seq<string>, alias: string, day: Day): seq<Event> {
    if e.day == day then Times(aliases, alias, e) else []
  }

  method FileOne(index0: Index, key: string, day: Day, e: Event) returns (index: Index)
    ensures forall a, d :: Under(index, a, d) == if a == key && d == day then Under(index0, a, d) + [e] else Under(index0, a, d)
  {
    index := index0[(key, day) := Under(index0, key, day) + [e]];
  }

  lemma {:induction false} AddsOneMore(e: Event, aliases: seq<string>, j: nat, a: string, d: Day)
    requires j < |aliases|
    ensures Adds(e, aliases[..j + 1], a, d)
         == if a == aliases[j] && d == e.day then Adds(e, aliases[..j], a, d) + [e] else Adds(e, aliases[..j], a, d)
  {
    assert aliases[..j + 1][..j] == aliases[..j];
  }

  lemma {:induction false} FiledOneMore(
      filed: seq<Event>, before: seq<Event>, after: seq<Event>, e: Event, aliases: seq<string>, j: nat, a: string, d: Day)
    requires j < |aliases| && before == filed + Adds(e, aliases[..j], a, d)
    requires after == if a == aliases[j] && d == e.day then before + [e] else before
    ensures after == filed + Adds(e, aliases[..j + 1], a, d)
  {
    AddsOneMore(e, aliases, j, a, d);
  }

  method FileEvent(index0: Index, e: Event) returns (index: Index)
    ensures forall a, d :: Under(index, a, d) == Under(index0, a, d) + Adds(e, AllAliases(e.resourceIds), a, d)
  {
    index := index0;
    var aliases := CollectAliases(e.resourceIds);
    for j := 0 to |aliases|
      invariant forall a, d :: Under(index, a, d) == Under(index0, a, d) + Adds(e, aliases[..j], a, d)
    {
      ghost var before := index;
      index := FileOne(index, aliases[j], e.day, e);
      forall a, d
        ensures Under(index, a, d) == Under(index0, a, d) + Adds(e, aliases[..j + 1], a, d)
      {
        FiledOneMore(Under(index0, a, d), Under(before, a, d), Under(index, a, d), e, aliases, j, a, d);
      }
    }
    assert aliases[..|aliases|] == aliases;
  }

  method BuildIndex(events: seq<Event>) returns (index: Index)
    ensures forall alias, day :: Under(index, alias, day) == Filed(events, alias, day)
  {
    index := map[];
    for i := 0 to |events|
      invariant forall alias, day :: Under(index, alias, day) == Filed(events[..i], alias, day)
    {
      assert events[..i + 1][..i] == events[..i];
      index := FileEvent(index, events[i]);
    }
    assert events[..|events|] == events;
  }

  predicate Seen(matches: seq<Event>, id: string) { exists i :: 0 <= i < |matches| && matches[i].id == id }

  function OncePerId(found: seq<Event>): seq<Event> {
    if found == [] then []
    else
      var before, e := OncePerId(found[..|found| - 1]), found[|found| - 1];
      if Seen(before, e.id) then before else before + [e]
  }

  function FiledUnder(events: seq<Event>, aliases: seq<string>, day: Day): seq<Event> {
    if aliases == [] then []
    else FiledUnder(events, aliases[..|aliases| - 1], day) + Filed(events, aliases[|aliases| - 1], day)
  }

  /** Every event naming the record's resource on its day, once each. */
  function Matching(events: seq<Event>, r: Record): seq<Event> {
    if Present(r.resourceId) then OncePerId(FiledUnder(events, Aliases(r.resourceId.value), r.day)) else []
  }

  method AddUnseen(found: seq<Event>, matches0: seq<Event>, ghost before: seq<Event>) returns (matches: seq<Event>)
    requires matches0 == OncePerId(before)
    ensures matches == OncePerId(before + found)
  {
    matches := matches0;
    assert before + found[..0] == before;
    for i := 0 to |found|
      invariant matches == OncePerId(before + found[..i])
    {
      assert (before + found[..i + 1])[..|before| + i] == before + found[..i];
      if !Seen(matches, found[i].id) {
        matches := matches + [found[i]];
      }
    }
    assert before + found[..|found|] == before + found;
  }

  method MatchingEvents(index: Index, r: Record, ghost events: seq<Event>) returns (matches: seq<Event>)
    requires forall alias, day :: Under(index, alias, day) == Filed(events, alias, day)
    ensures matches == Matching(events, r)
  {
    matches := [];
    if !Present(r.resourceId) {
      return;
    }
    var aliases := Aliases(r.resourceId.value);
    for i := 0 to |aliases|
      invariant matches == OncePerId(FiledUnder(events, aliases[..i], r.day))
    {
      assert aliases[..i + 1][..i] == aliases[..i];
      matches := AddUnseen(Under(index, aliases[i], r.day), matches, FiledUnder(events, aliases[..i], r.day));
    }
    assert aliases[..|aliases|] == aliases;
  }

  /** An event and a record meet when they share a day and some alias. */
  predicate Meets(e: Event, r: Record) {
    && Present(r.resourceId) && e.day == r.day
    && exists a :: a in Aliases(r.resourceId.value) && a in AllAliases(e.resourceIds)
  }

  lemma {:induction false} TimesMembers(aliases: seq<string>, alias: string, e: Event)
    ensures forall x :: x in Times(aliases, alias, e) ==> x == e
    ensures e in Times(aliases, alias, e) <==> alias in aliases
  {
    if aliases != [] {
      TimesMembers(aliases[..|aliases| - 1], alias, e);
    }
  }

  lemma {:induction false} FiledMembers(events: seq<Event>, alias: string, day: Day, e: Event)
    ensures e in Filed(events, alias, day) <==> e in events && e.day == day && alias in AllAliases(e.resourceIds)
  {
    if events != [] {
      var last := events[|events| - 1];
      FiledMembers(events[..|events| - 1], alias, day, e);
      TimesMembers(AllAliases(last.resourceIds), alias, last);
      assert events == events[..|events| - 1] + [last];
    }
  }

  lemma {:induction false} FiledUnderMembers(events: seq<Event>, aliases: seq<string>, day: Day, e: Event)
    ensures e in FiledUnder(events, aliases, day)
       <==> e in events && e.day == day && exists a :: a in aliases && a in AllAliases(e.resourceIds)
  {
    if aliases != [] {
      var init, last := aliases[..|aliases| - 1], aliases[|aliases| - 1];
      FiledUnderMembers(events, init, day, e);
      FiledMembers(events, last, day, e);
      assert aliases == init + [last];
    }
  }

  lemma {:induction false} OncePerIdProperties(found: seq<Event>)
    ensures var once := OncePerId(found);
            && (forall i, j :: 0 <= i < j < |once| ==> once[i].id != once[j].id)
            && (forall e :: e in once ==> e in found)
            && (forall e :: e in found ==> Seen(once, e.id))
  {
    if found != [] {
      var init, last := found[..|found| - 1], found[|found| - 1];
      var before, once := OncePerId(init), OncePerId(found);
      OncePerIdProperties(init);
      assert found == init + [last];
      forall e | e in found
        ensures Seen(once, e.id)
      {
        if e in init {
          var i :| 0 <= i < |before| && before[i].id == e.id;
          assert once[i].id == e.id;
        } else if !Seen(before, last.id) {
          assert once[|before|].id == e.id;
        }
      }
    }
  }

  /** Main result: an audit event weighs on a record once, however many of their aliases
      agree, exactly when they share a day and an alias; nothing else weighs on it. */
  lemma {:induction false} EachEventCountsOnce(events: seq<Event>, r: Record)
    ensures var matches := Matching(events, r);
            && (forall i, j :: 0 <= i < j < |matches| ==> matches[i].id != matches[j].id)
            && (forall e :: e in matches ==> e in events && Meets(e, r))
            && (forall e :: e in events && Meets(e, r) ==> Seen(matches, e.id))
  {
    if Present(r.resourceId) {
      var aliases := Aliases(r.resourceId.value);
      OncePerIdProperties(FiledUnder(events, aliases, r.day));
      forall e
        ensures e in FiledUnder(events, aliases, r.day) <==> e in events && Meets(e, r)
      {
        FiledUnderMembers(events, aliases, r.day, e);
      }
    }
  }

  // ---------------------------------------------------------------- weights

  function Principal(e: Event): string { if Present(e.actor) then e.actor.value else UNATTRIBUTED }

  predicate AllTokens(events: seq<Event>) {
    forall i :: 0 <= i < |events| ==> events[i].tokens.Some? && events[i].tokens.value > 0.0
  }

  function Weighed(ws: seq<Weight>, actor: string, amount: real): seq<Weight> {
    if ws == [] then [Weight(actor, amount)]
    else if ws[0].actor == actor then [Weight(actor, ws[0].amount + amount)] + ws[1..]
    else [ws[0]] + Weighed(ws[1..], actor, amount)
  }

  function One(e: Event, byTokens: bool): real {
    if byTokens && e.tokens.Some? then e.tokens.value else 1.0
  }

  function Accumulated(events: seq<Event>, byTokens: bool): seq<Weight> {
    if events == [] then []
    else
      var e := events[|events| - 1];
      Weighed(Accumulated(events[..|events| - 1], byTokens), Principal(e), One(e, byTokens))
  }

  function ActorWeights(events: seq<Event>): (seq<Weight>, Method) {
    if events == [] then ([], NoWeight)
    else (Accumulated(events, AllTokens(events)), if AllTokens(events) then TokenCount else InvocationCount)
  }

  method WeighEvents(events: seq<Event>) returns (weights: seq<Weight>, how: Method)
    ensures (weights, how) == ActorWeights(events)
  {
    weights := [];
    if events == [] {
      return weights, NoWeight;
    }
    var byTokens := AllTokens(events);
    for i := 0 to |events|
      invariant weights == Accumulated(events[..i], byTokens)
    {
      assert events[..i + 1][..i] == events[..i];
      weights := AddWeight(weights, Principal(events[i]), One(events[i], byTokens));
    }
    assert events[..|events|] == events;
    how := if byTokens then TokenCount else InvocationCount;
  }

  lemma {:induction false} WeighedAt(ws: seq<Weight>, actor: string, amount: real, at: nat)
    requires at <= |ws| && forall j :: 0 <= j < at ==> ws[j].actor != actor
    ensures at == |ws| ==> Weighed(ws, actor, amount) == ws + [Weight(actor, amount)]
    ensures at < |ws| && ws[at].actor == actor ==>
              Weighed(ws, actor, amount) == ws[at := Weight(actor, ws[at].amount + amount)]
  {
    if at > 0 {
      WeighedAt(ws[1..], actor, amount, at - 1);
    }
  }

  method AddWeight(ws: seq<Weight>, actor: string, amount: real) returns (after: seq<Weight>)
    ensures after == Weighed(ws, actor, amount)
  {
    var at := 0;
    while at < |ws| && ws[at].actor != actor
      invariant 0 <= at <= |ws| && forall j :: 0 <= j < at ==> ws[j].actor != actor
    {
      at := at + 1;
    }
    WeighedAt(ws, actor, amount, at);
    after := if at == |ws| then ws + [Weight(actor, amount)] else ws[at := Weight(actor, ws[at].amount + amount)];
  }

  function Total(ws: seq<Weight>): real { if ws == [] then 0.0 else ws[0].amount + Total(ws[1..]) }

  function AmountOf(ws: seq<Weight>, actor: string): real {
    if ws == [] then 0.0 else (if ws[0].actor == actor then ws[0].amount else 0.0) + AmountOf(ws[1..], actor)
  }

  predicate PositiveWeights(ws: seq<Weight>) { forall i :: 0 <= i < |ws| ==> ws[i].amount > 0.0 }

  function OwnAmount(events: seq<Event>, byTokens: bool, actor: string): real {
    if events == [] then 0.0
    else
      var e := events[|events| - 1];
      OwnAmount(events[..|events| - 1], byTokens, actor) + (if Principal(e) == actor then One(e, byTokens) else 0.0)
  }

  lemma {:induction false} WeighedAdds(ws: seq<Weight>, actor: string, amount: real, other: string)
    requires PositiveWeights(ws) && amount > 0.0
    ensures var after := Weighed(ws, actor, amount);
            && PositiveWeights(after) && after != [] && Total(after) == Total(ws) + amount
            && AmountOf(after, other) == AmountOf(ws, other) + (if other == actor then amount else 0.0)
  {
    var after := Weighed(ws, actor, amount);
    if ws != [] {
      if ws[0].actor == actor {
        assert after[1..] == ws[1..];
      } else {
        WeighedAdds(ws[1..], actor, amount, other);
        assert after[1..] == Weighed(ws[1..], actor, amount);
      }
    }
  }

  /** Each principal's weight is the sum of its own events' tokens, or their number. */
  lemma {:induction false} WeightsAreSums(events: seq<Event>, byTokens: bool, actor: string)
    requires byTokens ==> AllTokens(events)
    ensures PositiveWeights(Accumulated(events, byTokens))
    ensures events != [] ==> Accumulated(events, byTokens) != []
    ensures AmountOf(Accumulated(events, byTokens), actor) == OwnAmount(events, byTokens, actor)
  {
    if events != [] {
      var init, e := events[..|events| - 1], events[|events| - 1];
      WeightsAreSums(init, byTokens, actor);
      WeighedAdds(Accumulated(init, byTokens), Principal(e), One(e, byTokens), actor);
    }
  }

  predicate DistinctActors(ws: seq<Weight>) { forall i, j :: 0 <= i < j < |ws| ==> ws[i].actor != ws[j].actor }

  lemma {:induction false} WeighedStaysDistinct(ws: seq<Weight>, actor: string, amount: real)
    requires DistinctActors(ws)
    ensures DistinctActors(Weighed(ws, actor, amount))
    ensures forall w :: w in Weighed(ws, actor, amount) ==> w.actor == actor || exists v :: v in ws && v.actor == w.actor
  {
    if ws != [] && ws[0].actor != actor {
      WeighedStaysDistinct(ws[1..], actor, amount);
      assert ws == [ws[0]] + ws[1..];
    }
  }

  /** A principal has one weight, however many events it is behind. */
  lemma {:induction false} EachActorWeighsOnce(events: seq<Event>, byTokens: bool)
    ensures DistinctActors(Accumulated(events, byTokens))
  {
    if events != [] {
      EachActorWeighsOnce(events[..|events| - 1], byTokens);
      var e := events[|events| - 1];
      WeighedStaysDistinct(Accumulated(events[..|events| - 1], byTokens), Principal(e), One(e, byTokens));
    }
  }

  // ---------------------------------------------------------------- splitting one record

  predicate Heavier(a: Weight, b: Weight) {
    a.amount > b.amount || (a.amount == b.amount && StringAtMost(a.actor, b.actor))
  }

  lemma {:induction false} HeavierIsOrder()
    ensures IsOrder(Heavier)
  {
    forall a: Weight, b: Weight
      ensures Heavier(a, b) || Heavier(b, a)
    {
      StringAtMostTotal(a.actor, b.actor);
    }
    forall a: Weight, b: Weight, c: Weight | Heavier(a, b) && Heavier(b, c)
      ensures Heavier(a, c)
    {
      if a.amount == b.amount == c.amount {
        StringAtMostTransitive(a.actor, b.actor, c.actor);
      }
    }
  }

  /** Heaviest first, ties by name. */
  function HeaviestFirst(ws: seq<Weight>): (r: seq<Weight>)
    ensures |r| == |ws|
  {
    SortPermutes(ws, Heavier);
    assert |multiset(ws)| == |ws|;
    Sort(ws, Heavier)
  }

  function Share(x: int, w: real, total: real): real
    requires total > 0.0
  {
    x as real * (w / total)
  }

  function Tagged(r: Record, actor: string, billed: int, effective: int, quantity: int): Record {
    r.(billed := billed, effective := effective, quantity := quantity, tags := r.tags[ACTOR_TAG := actor])
  }

  function Part(r: Record, w: Weight, total: real): Record
    requires total > 0.0
  {
    Tagged(r, w.actor, RoundHalfEven(Share(r.billed, w.amount, total)),
           RoundHalfEven(Share(r.effective, w.amount, total)), RoundHalfEven(Share(r.quantity, w.amount, total)))
  }

  function Parts(r: Record, ordered: seq<Weight>, total: real): (parts: seq<Record>)
    requires total > 0.0
    ensures |parts| == |ordered|
  {
    if ordered == [] then [] else [Part(r, ordered[0], total)] + Parts(r, ordered[1..], total)
  }

  function Amounts(a: Amount): Record -> int { (r: Record) => Of(r, a) }

  /** The heaviest actor's part takes up whatever rounding left over, field by field. */
  function Settled(r: Record, parts: seq<Record>): (settled: seq<Record>)
    requires parts != []
    ensures |settled| == |parts|
  {
    var first := parts[0];
    [first.(billed := first.billed + (r.billed - Sum(parts, Amounts(Billed))),
            effective := first.effective + (r.effective - Sum(parts, Amounts(Effective))),
            quantity := first.quantity + (r.quantity - Sum(parts, Amounts(Quantity))))] + parts[1..]
  }

  function Split(r: Record, ws: seq<Weight>): seq<Record> {
    if Total(ws) <= 0.0 || ws == [] then [Tagged(r, UNATTRIBUTED, r.billed, r.effective, r.quantity)]
    else
      Settled(r, Parts(r, HeaviestFirst(ws), Total(ws)))
  }

  lemma {:induction false} TotalInserted(w: Weight, ws: seq<Weight>)
    ensures Total(Insert(w, ws, Heavier)) == w.amount + Total(ws)
  {
    if ws == [] || Heavier(w, ws[0]) {
      assert ([w] + ws)[1..] == ws;
    } else {
      var rest := Insert(w, ws[1..], Heavier);
      TotalInserted(w, ws[1..]);
      assert ([ws[0]] + rest)[1..] == rest;
    }
  }

  lemma {:induction false} TotalSorted(ws: seq<Weight>)
    ensures Total(HeaviestFirst(ws)) == Total(ws)
  {
    if ws != [] {
      TotalSorted(ws[1..]);
      TotalInserted(ws[0], HeaviestFirst(ws[1..]));
    }
  }

  lemma {:induction false} HeaviestFirstProperties(ws: seq<Weight>)
    ensures multiset(HeaviestFirst(ws)) == multiset(ws) && Total(HeaviestFirst(ws)) == Total(ws)
    ensures PositiveWeights(ws) ==> PositiveWeights(HeaviestFirst(ws))
    ensures Ordered(HeaviestFirst(ws), Heavier)
    ensures forall i :: 0 <= i < |ws| ==> HeaviestFirst(ws)[0].amount >= HeaviestFirst(ws)[i].amount
  {
    var sorted := HeaviestFirst(ws);
    SortPermutes(ws, Heavier);
    TotalSorted(ws);
    HeavierIsOrder();
    if ws != [] {
      SortIsStable(ws, ws[0], Heavier);
    }
    if PositiveWeights(ws) {
      forall i | 0 <= i < |sorted|
        ensures sorted[i].amount > 0.0
      {
        assert sorted[i] in multiset(sorted);
        assert sorted[i] in ws;
      }
    }
  }

  lemma {:induction false} SumFirst(first: Record, rest: seq<Record>, f: Record -> int)
    ensures Sum([first] + rest, f) == f(first) + Sum(rest, f)
  {
  }

  /** Main result: the parts of a record add up to it exactly, in every field. */
  lemma {:induction false} SplitIsLossless(r: Record, ws: seq<Weight>, a: Amount)
    ensures Sum(Split(r, ws), Amounts(a)) == Of(r, a)
  {
  }

  lemma {:induction false} PartsAt(r: Record, ordered: seq<Weight>, total: real, i: nat)
    requires total > 0.0 && i < |ordered|
    ensures |Parts(r, ordered, total)| == |ordered| && Parts(r, ordered, total)[i] == Part(r, ordered[i], total)
  {
    if i > 0 {
      PartsAt(r, ordered[1..], total, i - 1);
    } else if |ordered| > 1 {
      PartsAt(r, ordered[1..], total, 0);
    }
  }

  lemma {:induction false} RoundedParts(r: Record, ordered: seq<Weight>, total: real, a: Amount)
    requires total > 0.0
    ensures Abs(Sum(Parts(r, ordered, total), Amounts(a)) as real - Share(Of(r, a), Total(ordered), total))
         <= |ordered| as real / 2.0
  {
    if ordered != [] {
      var rest := ordered[1..];
      RoundedParts(r, rest, total, a);
      SumFirst(Part(r, ordered[0], total), Parts(r, rest, total), Amounts(a));
      RoundError(Share(Of(r, a), ordered[0].amount, total));
      ShareAdds(Of(r, a), ordered[0].amount, Total(rest), total);
    } else {
      assert Share(Of(r, a), 0.0, total) == 0.0;
    }
  }

  lemma {:induction false} ShareAdds(x: int, v: real, w: real, total: real)
    requires total > 0.0
    ensures Share(x, v + w, total) == Share(x, v, total) + Share(x, w, total)
  {
    assert (v + w) / total == v / total + w / total;
  }

  lemma {:induction false} ShareOfAll(x: int, total: real)
    requires total > 0.0
    ensures Share(x, total, total) == x as real
  {
    assert total / total == 1.0;
  }

  predicate AtLeastNth(share: real, x: int, n: nat) { share * n as real >= x as real }

  /** The heaviest of n shares is at least one n-th. */
  lemma {:induction false} HeaviestShare(x: nat, ordered: seq<Weight>, total: real)
    requires ordered != [] && total > 0.0 && total == Total(ordered)
    requires forall i :: 0 <= i < |ordered| ==> ordered[0].amount >= ordered[i].amount
    ensures AtLeastNth(Share(x, ordered[0].amount, total), x, |ordered|)
  {
    TotalAtMost(ordered, ordered[0].amount);
    NthOf(x as real, ordered[0].amount, |ordered| as real, total);
  }

  lemma {:induction false} NthOf(x: real, top: real, n: real, total: real)
    requires x >= 0.0 && total > 0.0 && top * n >= total
    ensures x * (top / total) * n >= x
  {
    var share := top / total;
    OneNth(top, n, total);
    ProductMonotone(1.0, share * n, x);
  }

  lemma {:induction false} OneNth(top: real, n: real, total: real)
    requires total > 0.0 && top * n >= total
    ensures (top / total) * n >= 1.0
  {
    var share := top / total;
    assert share * total == top;
    ProductCancel(share * n, 1.0, total);
  }

  lemma {:induction false} TotalAtMost(ws: seq<Weight>, top: real)
    requires forall i :: 0 <= i < |ws| ==> ws[i].amount <= top
    ensures Total(ws) <= top * |ws| as real
  {
    if ws != [] {
      TotalAtMost(ws[1..], top);
      assert top * |ws| as real == top + top * (|ws| - 1) as real;
    }
  }

  /** Main result: of n parts, the heaviest is within (n - 1) / 2 micro-units of its exact
      proportion and every other within one half; an amount of at least n (n - 1) / 2
      micro-units never yields a negative part. */
  lemma {:induction false} SplitIsFair(r: Record, ws: seq<Weight>, a: Amount, i: nat)
    requires ws != [] && PositiveWeights(ws) && i < |ws|
    ensures Total(ws) > 0.0
    ensures var parts, n := Split(r, ws), |ws|;
            var exact := Share(Of(r, a), HeaviestFirst(ws)[i].amount, Total(ws));
            && |HeaviestFirst(ws)| == |parts| == n
            && Abs(Of(parts[i], a) as real - exact) <= (if i == 0 then (n - 1) as real / 2.0 else 0.5)
            && (2 * Of(r, a) >= n * (n - 1) ==> Of(parts[i], a) >= 0)
  {
    PositiveTotal(ws);
    HeaviestFirstProperties(ws);
    var ordered := HeaviestFirst(ws);
    if i == 0 {
      FirstPartIsFair(r, ordered, Total(ws), a);
    } else {
      OtherPartIsFair(r, ordered, Total(ws), a, i);
    }
  }

  lemma {:induction false} FirstPartIsFair(r: Record, ordered: seq<Weight>, total: real, a: Amount)
    requires ordered != [] && PositiveWeights(ordered) && total == Total(ordered) > 0.0
    requires forall i :: 0 <= i < |ordered| ==> ordered[0].amount >= ordered[i].amount
    ensures var part, n := Settled(r, Parts(r, ordered, total))[0], |ordered|;
            && Abs(Of(part, a) as real - Share(Of(r, a), ordered[0].amount, total)) <= (n - 1) as real / 2.0
            && (2 * Of(r, a) >= n * (n - 1) ==> Of(part, a) >= 0)
  {
    var part := Settled(r, Parts(r, ordered, total))[0];
    FirstPartIsNear(r, ordered, total, a);
    if 2 * Of(r, a) >= |ordered| * (|ordered| - 1) {
      HeaviestShare(Of(r, a), ordered, total);
      HeaviestNonNegative(Of(part, a), Share(Of(r, a), ordered[0].amount, total), Of(r, a), |ordered|);
    }
  }

  lemma {:induction false} FirstPartIsNear(r: Record, ordered: seq<Weight>, total: real, a: Amount)
    requires ordered != [] && total == Total(ordered) > 0.0
    ensures Abs(Of(Settled(r, Parts(r, ordered, total))[0], a) as real - Share(Of(r, a), ordered[0].amount, total))
         <= (|ordered| - 1) as real / 2.0
  {
    var rest, x := ordered[1..], Of(r, a);
    var parts := Parts(r, ordered, total);
    assert Of(Settled(r, parts)[0], a) == x - Sum(Parts(r, rest, total), Amounts(a)) by {
      SumFirst(parts[0], parts[1..], Amounts(a));
      assert parts == [parts[0]] + parts[1..];
    }
    RoundedParts(r, rest, total, a);
    ShareAdds(x, ordered[0].amount, Total(rest), total);
    ShareOfAll(x, total);
  }

  lemma {:induction false} OtherPartIsFair(r: Record, ordered: seq<Weight>, total: real, a: Amount, i: nat)
    requires 0 < i < |ordered| && PositiveWeights(ordered) && total > 0.0
    ensures |Parts(r, ordered, total)| == |ordered|
    ensures var part, n := Settled(r, Parts(r, ordered, total))[i], |ordered|;
            && Abs(Of(part, a) as real - Share(Of(r, a), ordered[i].amount, total)) <= 0.5
            && (2 * Of(r, a) >= n * (n - 1) ==> Of(part, a) >= 0)
  {
    PartsAt(r, ordered, total, i);
    var exact := Share(Of(r, a), ordered[i].amount, total);
    assert Of(Settled(r, Parts(r, ordered, total))[i], a) == RoundHalfEven(exact);
    RoundError(exact);
    if 2 * Of(r, a) >= |ordered| * (|ordered| - 1) {
      ShareNonNegative(Of(r, a), ordered[i].amount, total);
    }
  }

  lemma {:induction false} ShareNonNegative(x: int, w: real, total: real)
    requires x >= 0 && w >= 0.0 && total > 0.0
    ensures Share(x, w, total) >= 0.0
  {
    assert w / total >= 0.0;
    ProductMonotone(0.0, x as real, w / total);
  }

  lemma {:induction false} HeaviestNonNegative(part: int, exact: real, x: nat, n: nat)
    requires n > 0 && AtLeastNth(exact, x, n) && 2 * x >= n * (n - 1)
    requires Abs(part as real - exact) <= (n - 1) as real / 2.0
    ensures part >= 0
  {
    HalfOfPairs(n, n * (n - 1), (n - 1) as real / 2.0, n as real);
    Outweighs(exact, (n - 1) as real / 2.0, n as real, x as real);
  }

  lemma {:induction false} Outweighs(exact: real, half: real, m: real, x: real)
    requires m > 0.0 && exact * m >= x && 2.0 * x >= 2.0 * (half * m)
    ensures exact >= half
  {
    ProductCancel(exact, half, m);
  }

  lemma {:induction false} HalfOfPairs(n: nat, pairs: int, half: real, m: real)
    requires pairs == n * (n - 1) && half == (n - 1) as real / 2.0 && m == n as real
    ensures 2.0 * (half * m) == pairs as real
  {
    RealProduct(n, n - 1);
    assert half * m == (n - 1) as real * m / 2.0;
  }

  lemma {:induction false} RealProduct(a: int, b: int)
    ensures (a * b) as real == a as real * b as real
  {
  }

  lemma {:induction false} PositiveTotal(ws: seq<Weight>)
    requires PositiveWeights(ws)
    ensures Total(ws) >= 0.0 && (ws != [] ==> Total(ws) > 0.0)
  {
    if ws != [] {
      PositiveTotal(ws[1..]);
    }
  }

  function Equals(n: nat): (ws: seq<Weight>)
    requires n <= 5
  {
    if n == 0 then [] else [Weight(["e", "d", "c", "b", "a"][n - 1], 1.0)] + Equals(n - 1)
  }

  /** The floor is needed: five equal actors sharing three micro-units leave the first at -1. */
  lemma {:induction false} SmallSplitGoesNegative(r: Record)
    requires r.effective == 3
    ensures var parts := Split(r, Equals(5));
            |parts| == 5 && parts[0].effective == -1 && forall i :: 1 <= i < 5 ==> parts[i].effective == 1
  {
    var ws := Equals(5);
    assert Equals(0) == [] && Equals(1) == [Weight("e", 1.0)] && Equals(2) == [Weight("d", 1.0), Weight("e", 1.0)];
    assert Equals(3) == [Weight("c", 1.0)] + Equals(2) && Equals(4) == [Weight("b", 1.0)] + Equals(3);
    assert HeaviestFirst(Equals(1)) == Equals(1) && HeaviestFirst(Equals(2)) == Equals(2) && HeaviestFirst(Equals(3)) == Equals(3);
    assert HeaviestFirst(Equals(4)) == Equals(4) && HeaviestFirst(ws) == ws;
    assert Total(Equals(0)) == 0.0 && Total(Equals(1)) == 1.0 && Total(Equals(2)) == 2.0 && Total(Equals(3)) == 3.0;
    assert Total(Equals(4)) == 4.0 && Total(ws) == 5.0;
    assert Share(3, 1.0, 5.0) == 0.6 && RoundHalfEven(0.6) == 1;
    EqualParts(r, 5);
  }

  lemma {:induction false} EqualParts(r: Record, n: nat)
    requires n <= 5 && r.effective == 3
    ensures var parts := Parts(r, Equals(n), 5.0);
            && Sum(parts, Amounts(Effective)) == n && |parts| == n
            && forall i :: 0 <= i < n ==> parts[i].effective == 1
  {
    assert Share(3, 1.0, 5.0) == 0.6 && RoundHalfEven(0.6) == 1;
    if n > 0 {
      EqualParts(r, n - 1);
      assert Equals(n)[1..] == Equals(n - 1);
      SumFirst(Part(r, Equals(n)[0], 5.0), Parts(r, Equals(n - 1), 5.0), Amounts(Effective));
    }
  }

  // ---------------------------------------------------------------- allocating a period

  function AllocatedOne(r: Record, events: seq<Event>): seq<Record> {
    var ws := ActorWeights(Matching(events, r)).0;
    if ws == [] then [Tagged(r, UNATTRIBUTED, r.billed, r.effective, r.quantity)] else Split(r, ws)
  }

  function Allocated(rows: seq<Record>, events: seq<Event>): seq<Record> {
    if rows == [] then []
    else Allocated(rows[..|rows| - 1], events) + AllocatedOne(rows[|rows| - 1], events)
  }

  predicate NamesSomebody(ws: seq<Weight>) {
    exists i :: 0 <= i < |ws| && ws[i].actor != UNATTRIBUTED
  }

  function Deciding(weighed: (seq<Weight>, Method)): set<Method> {
    if NamesSomebody(weighed.0) then {weighed.1} else {}
  }

  /** The weightings that decided some identified principal's share. */
  function Methods(rows: seq<Record>, events: seq<Event>): set<Method> {
    if rows == [] then {}
    else
      Methods(rows[..|rows| - 1], events) + Deciding(ActorWeights(Matching(events, rows[|rows| - 1])))
  }

  function Overall(methods: set<Method>): Method {
    if methods == {} then NoWeight
    else if TokenCount in methods && InvocationCount in methods then Mixed
    else if TokenCount in methods then TokenCount else InvocationCount
  }

  function ActorOf(r: Record): string { if ACTOR_TAG in r.tags then r.tags[ACTOR_TAG] else UNATTRIBUTED }

  function Attributed(r: Record): int { if ActorOf(r) == UNATTRIBUTED then 0 else r.effective }

  function Unattributed(r: Record): int { if ActorOf(r) == UNATTRIBUTED then r.effective else 0 }

  /** The same amounts without their signs, so that a refund cannot cancel a cost. */
  function AttributedSize(r: Record): int { if ActorOf(r) == UNATTRIBUTED then 0 else AbsInt(r.effective) }

  function UnattributedSize(r: Record): int { if ActorOf(r) == UNATTRIBUTED then AbsInt(r.effective) else 0 }

  function ActorsOf(records: seq<Record>): set<string> { set r | r in records :: ActorOf(r) }

  datatype Caution = InvocationsArePoorProxy | SharesNotComparable | SomeUnattributed(share: real)

  datatype Owners = Owners(
    attributed: int, unattributed: int, attributedSize: int, unattributedSize: int, actors: set<string>)
  {
    /** The part of the unsigned cost no principal answers for, to six places. */
    function UnattributedShare(): real {
      if attributedSize + unattributedSize <= 0 then 0.0
      else RoundHalfEven(unattributedSize as real / (attributedSize + unattributedSize) as real * 1000000.0) as real / 1000000.0
    }
  }

  function OwnersOf(records: seq<Record>): Owners {
    Owners(Sum(records, Attributed), Sum(records, Unattributed), Sum(records, AttributedSize),
           Sum(records, UnattributedSize), ActorsOf(records))
  }

  function Cautions(how: Method, owners: Owners): seq<Caution> {
    (if how == InvocationCount then [InvocationsArePoorProxy] else if how == Mixed then [SharesNotComparable] else [])
    + (if owners.unattributedSize > 0 then [SomeUnattributed(owners.UnattributedShare())] else [])
  }

  datatype Allocation = Allocation(
    records: seq<Record>, how: Method, owners: Owners, actors: seq<string>, cautions: seq<Caution>)

  /** Every one of the names, once, in order. */
  ghost predicate Lists(names: set<string>, listed: seq<string>) {
    && (forall x :: x in listed <==> x in names) && Ordered(listed, StringAtMost)
    && forall i, j :: 0 <= i < j < |listed| ==> listed[i] != listed[j]
  }

  method AllocateRecord(index: Index, r: Record, ghost events: seq<Event>) returns (parts: seq<Record>, how: set<Method>)
    requires forall alias, day :: Under(index, alias, day) == Filed(events, alias, day)
    ensures parts == AllocatedOne(r, events)
    ensures how == Deciding(ActorWeights(Matching(events, r)))
  {
    var matches := MatchingEvents(index, r, events);
    var weights, rule := WeighEvents(matches);
    how := Deciding((weights, rule));
    parts := if weights == [] then [Tagged(r, UNATTRIBUTED, r.billed, r.effective, r.quantity)] else Split(r, weights);
  }

  lemma {:induction false} OwnersGrow(records: seq<Record>, r: Record)
    ensures var before, after := OwnersOf(records), OwnersOf(records + [r]);
            && after.attributed == before.attributed + Attributed(r)
            && after.unattributed == before.unattributed + Unattributed(r)
            && after.attributedSize == before.attributedSize + AttributedSize(r)
            && after.unattributedSize == before.unattributedSize + UnattributedSize(r)
            && after.actors == before.actors + {ActorOf(r)}
  {
    SumLast(records, r, Attributed);
    SumLast(records, r, Unattributed);
    SumLast(records, r, AttributedSize);
    SumLast(records, r, UnattributedSize);
  }

  method TotalByOwner(records: seq<Record>) returns (owners: Owners)
    ensures owners == OwnersOf(records)
  {
    owners := Owners(0, 0, 0, 0, {});
    for i := 0 to |records|
      invariant owners == OwnersOf(records[..i])
    {
      var r := records[i];
      assert records[..i + 1] == records[..i] + [r];
      OwnersGrow(records[..i], r);
      owners := owners.(actors := owners.actors + {ActorOf(r)});
      if ActorOf(r) == UNATTRIBUTED {
        owners := owners.(unattributed := owners.unattributed + r.effective,
                          unattributedSize := owners.unattributedSize + AbsInt(r.effective));
      } else {
        owners := owners.(attributed := owners.attributed + r.effective,
                          attributedSize := owners.attributedSize + AbsInt(r.effective));
      }
    }
    assert records[..|records|] == records;
  }

  /** The unattributed share is a share, and nothing is unattributed exactly when no record
      with a cost lacks a principal. */
  lemma {:induction false} UnattributedIsAShare(records: seq<Record>)
    ensures var owners := OwnersOf(records);
            && AbsInt(owners.attributed) <= owners.attributedSize && AbsInt(owners.unattributed) <= owners.unattributedSize
            && 0.0 <= owners.UnattributedShare() <= 1.0
            && (owners.unattributedSize == 0 <==> forall r :: r in records && ActorOf(r) == UNATTRIBUTED ==> r.effective == 0)
  {
    UnattributedSizes(records);
    var owners := OwnersOf(records);
    var whole := owners.attributedSize + owners.unattributedSize;
    if whole > 0 {
      ShareBound(owners.unattributedSize, whole);
    }
  }

  lemma {:induction false} ShareBound(part: int, whole: int)
    requires 0 <= part <= whole && whole > 0
    ensures 0.0 <= RoundHalfEven(part as real / whole as real * 1000000.0) as real / 1000000.0 <= 1.0
  {
    var x := part as real / whole as real;
    assert 0.0 <= x <= 1.0;
    RoundMonotone(0.0, x * 1000000.0);
    RoundMonotone(x * 1000000.0, 1000000.0);
    RoundInteger(0);
    RoundInteger(1000000);
  }

  lemma {:induction false} UnattributedSizes(records: seq<Record>)
    ensures AbsInt(Sum(records, Attributed)) <= Sum(records, AttributedSize)
    ensures AbsInt(Sum(records, Unattributed)) <= Sum(records, UnattributedSize)
    ensures Sum(records, UnattributedSize) == 0 <==> forall r :: r in records && ActorOf(r) == UNATTRIBUTED ==> r.effective == 0
  {
    if records != [] {
      var first, rest := records[0], records[1..];
      assert records == [first] + rest;
      UnattributedSizes(rest);
    }
  }

  lemma {:induction false} AllocatedGrows(rows: seq<Record>, i: nat, events: seq<Event>)
    requires i < |rows|
    ensures Allocated(rows[..i + 1], events) == Allocated(rows[..i], events) + AllocatedOne(rows[i], events)
    ensures Methods(rows[..i + 1], events) == Methods(rows[..i], events) + Deciding(ActorWeights(Matching(events, rows[i])))
  {
    PrefixGrows(rows, i);
  }

  method AllocateRecords(index: Index, rows: seq<Record>, ghost events: seq<Event>)
    returns (records: seq<Record>, methods: set<Method>)
    requires forall alias, day :: Under(index, alias, day) == Filed(events, alias, day)
    ensures records == Allocated(rows, events) && methods == Methods(rows, events)
  {
    records, methods := [], {};
    for i := 0 to |rows|
      invariant records == Allocated(rows[..i], events)
      invariant methods == Methods(rows[..i], events)
    {
      AllocatedGrows(rows, i, events);
      var parts, how := AllocateRecord(index, rows[i], events);
      records, methods := records + parts, methods + how;
    }
    assert rows[..|rows|] == rows;
  }

  lemma {:induction false} StringsAreOrdered()
    ensures IsOrder(StringAtMost)
  {
    forall a: string, b: string
      ensures StringAtMost(a, b) || StringAtMost(b, a)
    {
      StringAtMostTotal(a, b);
    }
    forall a: string, b: string, c: string | StringAtMost(a, b) && StringAtMost(b, c)
      ensures StringAtMost(a, c)
    {
      StringAtMostTransitive(a, b, c);
    }
  }

  lemma {:induction false} ListedOnce(names: set<string>, listed: seq<string>)
    requires multiset(listed) == multiset(names)
    ensures forall x :: x in listed <==> x in names
    ensures forall i, j :: 0 <= i < j < |listed| ==> listed[i] != listed[j]
  {
    assert forall x :: x in listed <==> x in multiset(listed);
    forall i, j | 0 <= i < j < |listed|
      ensures listed[i] != listed[j]
    {
      if listed[i] == listed[j] {
        TwiceInMultiset(listed, i, j);
      }
    }
  }

  lemma {:induction false} ListedSorted(names: set<string>, listed: seq<string>)
    requires multiset(listed) == multiset(names)
    ensures Lists(names, Sort(listed, StringAtMost))
  {
    SortPermutes(listed, StringAtMost);
    ListedOnce(names, Sort(listed, StringAtMost));
    StringsAreOrdered();
    if listed != [] {
      SortIsStable(listed, listed[0], StringAtMost);
    }
  }

  method Listed(names: set<string>) returns (listed: seq<string>)
    ensures Lists(names, listed)
  {
    listed := [];
    var left := names;
    while left != {}
      invariant left <= names && multiset(listed) + multiset(left) == multiset(names)
    {
      var x :| x in left;
      listed, left := listed + [x], left - {x};
    }
    ListedSorted(names, listed);
    listed := Sort(listed, StringAtMost);
  }

  method AllocateActorCosts(rows: seq<Record>, events: seq<Event>) returns (r: Allocation)
    ensures r.records == Allocated(rows, events) && r.how == Overall(Methods(rows, events))
    ensures r.owners == OwnersOf(r.records) && Lists(r.owners.actors, r.actors) && r.cautions == Cautions(r.how, r.owners)
  {
    var index := BuildIndex(events);
    var records, methods := AllocateRecords(index, rows, events);
    var owners := TotalByOwner(records);
    var actors := Listed(owners.actors);
    r := Allocation(records, Overall(methods), owners, actors, Cautions(Overall(methods), owners));
  }

  // ---------------------------------------------------------------- what allocating preserves

  /** A record without its amounts and without the actor it was split to. */
  function Untagged(r: Record): Record {
    r.(billed := 0, effective := 0, quantity := 0, tags := r.tags - {ACTOR_TAG})
  }

  /** Sum of one amount over the records `w` selects by anything but amounts and actor. */
  function Selected(w: Record -> bool, a: Amount): Record -> int {
    (r: Record) => if w(Untagged(r)) then Of(r, a) else 0
  }

  predicate SameBut(parts: seq<Record>, r: Record) {
    forall i :: 0 <= i < |parts| ==> Untagged(parts[i]) == Untagged(r)
  }

  lemma {:induction false} TaggedSame(r: Record, actor: string, billed: int, effective: int, quantity: int)
    ensures Untagged(Tagged(r, actor, billed, effective, quantity)) == Untagged(r)
  {
  }

  lemma {:induction false} PartsSame(r: Record, ordered: seq<Weight>, total: real)
    requires total > 0.0
    ensures SameBut(Parts(r, ordered, total), r)
  {
    if ordered != [] {
      var w := ordered[0];
      PartsSame(r, ordered[1..], total);
      TaggedSame(r, w.actor, RoundHalfEven(Share(r.billed, w.amount, total)),
                 RoundHalfEven(Share(r.effective, w.amount, total)), RoundHalfEven(Share(r.quantity, w.amount, total)));
    }
  }

  lemma {:induction false} AllocatedOneKeeps(r: Record, events: seq<Event>, a: Amount)
    ensures SameBut(AllocatedOne(r, events), r)
    ensures Sum(AllocatedOne(r, events), Amounts(a)) == Of(r, a)
  {
    var ws := ActorWeights(Matching(events, r)).0;
    TaggedSame(r, UNATTRIBUTED, r.billed, r.effective, r.quantity);
    if ws == [] {
      SumFirst(AllocatedOne(r, events)[0], [], Amounts(a));
    } else {
      SplitIsLossless(r, ws, a);
      if Total(ws) > 0.0 {
        var parts := Parts(r, HeaviestFirst(ws), Total(ws));
        PartsSame(r, HeaviestFirst(ws), Total(ws));
        assert Untagged(Settled(r, parts)[0]) == Untagged(parts[0]);
      }
    }
  }

  lemma {:induction false} SelectAllOrNone(parts: seq<Record>, r: Record, w: Record -> bool, a: Amount)
    requires SameBut(parts, r)
    ensures Sum(parts, Selected(w, a)) == if w(Untagged(r)) then Sum(parts, Amounts(a)) else 0
  {
    if parts != [] {
      assert SameBut(parts[1..], r) by {
        assert forall i :: 0 <= i < |parts| - 1 ==> parts[1..][i] == parts[i + 1];
      }
      SelectAllOrNone(parts[1..], r, w, a);
    }
  }

  /** Main result: allocating to actors keeps the sum of every amount over every selection
      of records that ignores the actor. */
  lemma {:induction false} AllocationPreservesSums(rows: seq<Record>, events: seq<Event>, w: Record -> bool, a: Amount)
    ensures Sum(Allocated(rows, events), Selected(w, a)) == Sum(rows, Selected(w, a))
  {
    if rows != [] {
      var init, r := rows[..|rows| - 1], rows[|rows| - 1];
      assert rows == init + [r];
      AllocationPreservesSums(init, events, w, a);
      SumAppend(Allocated(init, events), AllocatedOne(r, events), Selected(w, a));
      AllocatedOneKeeps(r, events, a);
      SelectAllOrNone(AllocatedOne(r, events), r, w, a);
      SumLast(init, r, Selected(w, a));
    }
  }

  /** Each weighted actor gets one part, labelled with its name and otherwise a copy of the
      record: the parts follow the weights, heaviest first. */
  lemma {:induction false} SplitNamesEachActor(r: Record, ws: seq<Weight>, i: nat)
    requires PositiveWeights(ws) && i < |ws|
    ensures multiset(HeaviestFirst(ws)) == multiset(ws) && Ordered(HeaviestFirst(ws), Heavier)
    ensures var parts := Split(r, ws);
            && |parts| == |HeaviestFirst(ws)| == |ws|
            && ActorOf(parts[i]) == HeaviestFirst(ws)[i].actor && Untagged(parts[i]) == Untagged(r)
  {
    PositiveTotal(ws);
    HeaviestFirstProperties(ws);
    PartsAt(r, HeaviestFirst(ws), Total(ws), i);
    var p := Part(r, HeaviestFirst(ws)[i], Total(ws));
    TaggedSame(r, HeaviestFirst(ws)[i].actor, p.billed, p.effective, p.quantity);
  }

  /** Cost nothing can be joined to goes whole to the unattributed group. */
  lemma {:induction false} UnmatchedStaysWhole(r: Record, events: seq<Event>)
    requires forall e :: e in events ==> !Meets(e, r)
    ensures AllocatedOne(r, events) == [Tagged(r, UNATTRIBUTED, r.billed, r.effective, r.quantity)]
  {
    EachEventCountsOnce(events, r);
    SomebodyIn(Matching(events, r));
  }

  lemma {:induction false} SomebodyIn(matches: seq<Event>)
    ensures matches == [] || exists e :: e in matches
  {
    if matches != [] {
      assert matches[0] in matches;
    }
  }

  function ActorGrouping(current: Period, baseline: Period): Grouping {
    Grouping(current, baseline, (r: Record) => DimensionKey(r, Actor))
  }

  function InScope(rows: seq<Record>, provider: string, g: Grouping): seq<Record> {
    if rows == [] then []
    else
      var before, r := InScope(rows[..|rows| - 1], provider, g), rows[|rows| - 1];
      if r.provider == provider && g.InWindow(r) then before + [r] else before
  }

  function Relevant(events: seq<Event>, provider: string, g: Grouping): seq<Event> {
    if events == [] then []
    else
      var before, e := Relevant(events[..|events| - 1], provider, g), events[|events| - 1];
      if e.provider == provider && (g.current.Contains(e.day) || g.baseline.Contains(e.day)) then before + [e] else before
  }

  function ActorRecords(rows: seq<Record>, events: seq<Event>, provider: string, g: Grouping): seq<Record> {
    Allocated(InScope(rows, provider, g), Relevant(events, provider, g))
  }

  predicate AllWithin(rows: seq<Record>, current: Period, baseline: Period) {
    forall r :: r in rows ==> current.Contains(r.day) || baseline.Contains(r.day)
  }

  lemma {:induction false} AllInScope(rows: seq<Record>, provider: string, g: Grouping)
    ensures AllWithin(InScope(rows, provider, g), g.current, g.baseline)
  {
    if rows != [] {
      AllInScope(rows[..|rows| - 1], provider, g);
    }
  }

  function OnDays(w: Day -> bool): Record -> int { (r: Record) => if w(r.day) then r.effective else 0 }

  lemma {:induction false} DaysIgnoreActor(rows: seq<Record>, w: Day -> bool, select: Record -> bool)
    requires forall r: Record :: select(r) == w(r.day)
    ensures Sum(rows, OnDays(w)) == Sum(rows, Selected(select, Effective))
  {
    if rows != [] {
      DaysIgnoreActor(rows[1..], w, select);
      assert Untagged(rows[0]).day == rows[0].day;
    }
  }

  lemma {:induction false} AllocatedOnDays(rows: seq<Record>, events: seq<Event>, w: Day -> bool)
    ensures Sum(Allocated(rows, events), OnDays(w)) == Sum(rows, OnDays(w))
  {
    var select := (r: Record) => w(r.day);
    AllocationPreservesSums(rows, events, select, Effective);
    DaysIgnoreActor(rows, w, select);
    DaysIgnoreActor(Allocated(rows, events), w, select);
  }

  lemma {:induction false} OnEveryDay(rows: seq<Record>)
    ensures Sum(rows, OnDays((d: Day) => true)) == Sum(rows, Amounts(Effective))
  {
    if rows != [] {
      OnEveryDay(rows[1..]);
    }
  }

  /** Main result: attributed plus unattributed cost is exactly the cost of the records. */
  lemma {:induction false} OwnersConserveCost(rows: seq<Record>, events: seq<Event>)
    ensures Sum(Allocated(rows, events), Attributed) + Sum(Allocated(rows, events), Unattributed)
         == Sum(rows, Amounts(Effective))
  {
    SumSplit(Allocated(rows, events), Amounts(Effective), Attributed, Unattributed);
    AllocatedOnDays(rows, events, (d: Day) => true);
    OnEveryDay(rows);
    OnEveryDay(Allocated(rows, events));
  }

  lemma {:induction false} GroupedOnDays(rows: seq<Record>, current: Period, baseline: Period)
    ensures var g := ActorGrouping(current, baseline);
            && Sum(rows, InCurrent(g)) == Sum(rows, OnDays(d => current.Contains(d)))
            && Sum(rows, InBaseline(g)) == Sum(rows, OnDays(d => baseline.Contains(d) && !current.Contains(d)))
  {
    if rows != [] {
      GroupedOnDays(rows[1..], current, baseline);
    }
  }

  lemma {:induction false} WindowSplits(rows: seq<Record>, current: Period, baseline: Period)
    requires AllWithin(rows, current, baseline)
    ensures Sum(rows, OnDays(d => current.Contains(d))) == Sum(rows, Within(current))
    ensures Sum(rows, Amounts(Effective))
         == Sum(rows, OnDays(d => current.Contains(d))) + Sum(rows, OnDays(d => baseline.Contains(d) && !current.Contains(d)))
  {
    if rows != [] {
      assert rows[0] in rows;
      WindowSplits(rows[1..], current, baseline);
    }
  }

  /** Main result: the actor groups' two periods add up to exactly the in-scope cost. */
  lemma {:induction false} ActorViewConservesCost(rows: seq<Record>, events: seq<Event>, provider: string, current: Period, baseline: Period)
    ensures var g := ActorGrouping(current, baseline);
            var scope, groups := InScope(rows, provider, g), GroupBy(ActorRecords(rows, events, provider, g), g);
            && CurrentTotal(groups) == Sum(scope, Within(current))
            && CurrentTotal(groups) + BaselineTotal(groups) == Sum(scope, Amounts(Effective))
  {
    var g := ActorGrouping(current, baseline);
    var scope, relevant := InScope(rows, provider, g), Relevant(events, provider, g);
    var split := Allocated(scope, relevant);
    GroupsConserveCost(split, g);
    GroupedOnDays(split, current, baseline);
    AllocatedOnDays(scope, relevant, d => current.Contains(d));
    AllocatedOnDays(scope, relevant, d => baseline.Contains(d) && !current.Contains(d));
    AllInScope(rows, provider, g);
    WindowSplits(scope, current, baseline);
  }

  /** A grouping that does not look at the actor a record was split to. */
  ghost predicate IgnoresActor(g: Grouping) {
    forall r: Record :: g.key(r) == g.key(Untagged(r))
  }

  lemma {:induction false} FirstTagUntagged(tags: map<string, string>, keys: seq<string>)
    requires ACTOR_TAG !in keys
    ensures FirstTag(tags - {ACTOR_TAG}, keys) == FirstTag(tags, keys)
  {
    if keys != [] {
      FirstTagUntagged(tags, keys[1..]);
    }
  }

  lemma {:induction false} DimensionsIgnoreActor(current: Period, baseline: Period, d: Dimension)
    requires !d.Actor? && (d.TagOwner? ==> ACTOR_TAG !in d.tagKeys)
    ensures IgnoresActor(Grouping(current, baseline, (r: Record) => DimensionKey(r, d)))
    ensures IgnoresActor(ProviderGrouping(current, baseline))
  {
    forall r: Record
      ensures DimensionKey(r, d) == DimensionKey(Untagged(r), d)
    {
      if d.TagOwner? {
        FirstTagUntagged(r.tags, d.tagKeys);
      }
    }
  }

  lemma {:induction false} AddedTwice(a: Aggregate, p: Record, q: Record, both: Record, inCurrent: bool)
    requires p.day == q.day == both.day
    requires both.effective == p.effective + q.effective && both.quantity == p.quantity + q.quantity
    ensures Added(Added(a, p, inCurrent), q, inCurrent) == Added(a, both, inCurrent)
  {
    var twice, once := Added(Added(a, p, inCurrent), q, inCurrent), Added(a, both, inCurrent);
    assert twice.daily == once.daily;
  }

  /** Two parts of one record, placed one after the other, weigh as one record. */
  lemma {:induction false} PlacedTwice(groups: Groups, key: string, p: Record, q: Record, both: Record, inCurrent: bool)
    requires p.day == q.day == both.day
    requires both.effective == p.effective + q.effective && both.quantity == p.quantity + q.quantity
    ensures Placed(Placed(groups, key, p, inCurrent), key, q, inCurrent) == Placed(groups, key, both, inCurrent)
  {
    if groups == [] {
      AddedTwice(Fresh(key), p, q, both, inCurrent);
      assert [Added(Fresh(key), p, inCurrent)][1..] == [];
    } else if groups[0].key == key {
      AddedTwice(groups[0], p, q, both, inCurrent);
      var once := [Added(groups[0], p, inCurrent)] + groups[1..];
      assert once[1..] == groups[1..];
    } else {
      var once := Placed(groups[1..], key, p, inCurrent);
      PlacedTwice(groups[1..], key, p, q, both, inCurrent);
      assert ([groups[0]] + once)[1..] == once;
    }
  }

  /** What one more record does to the groups. */
  function Joined(groups: Groups, r: Record, g: Grouping): Groups {
    if g.Lands(r) then Placed(groups, g.key(r).value, r, g.current.Contains(r.day)) else groups
  }

  lemma {:induction false} GroupOneMore(rows: seq<Record>, r: Record, g: Grouping)
    ensures GroupBy(rows + [r], g) == Joined(GroupBy(rows, g), r, g)
  {
    assert (rows + [r])[..|rows|] == rows;
  }

  /** What a record weighs with the amounts of some of its parts. */
  function Weighing(r: Record, parts: seq<Record>): Record {
    r.(effective := Sum(parts, Amounts(Effective)), quantity := Sum(parts, Amounts(Quantity)))
  }

  lemma {:induction false} SameGrouping(p: Record, r: Record, g: Grouping)
    requires IgnoresActor(g) && Untagged(p) == Untagged(r)
    ensures g.key(p) == g.key(r) && p.day == r.day && (g.Lands(p) <==> g.Lands(r))
  {
    assert Untagged(p).day == p.day && Untagged(r).day == r.day;
  }

  lemma {:induction false} JoinedTwice(groups: Groups, p: Record, q: Record, both: Record, g: Grouping)
    requires IgnoresActor(g) && Untagged(p) == Untagged(q) == Untagged(both)
    requires both.effective == p.effective + q.effective && both.quantity == p.quantity + q.quantity
    ensures Joined(Joined(groups, p, g), q, g) == Joined(groups, both, g)
  {
    SameGrouping(p, both, g);
    SameGrouping(q, both, g);
    if g.Lands(both) {
      PlacedTwice(groups, g.key(both).value, p, q, both, g.current.Contains(both.day));
    }
  }

  lemma {:induction false} JoinedAlike(groups: Groups, p: Record, q: Record, g: Grouping)
    requires IgnoresActor(g) && Untagged(p) == Untagged(q) && p.effective == q.effective && p.quantity == q.quantity
    ensures Joined(groups, p, g) == Joined(groups, q, g)
  {
    SameGrouping(p, q, g);
    if g.Lands(q) {
      PlacedAlike(groups, g.key(q).value, p, q, g.current.Contains(q.day));
    }
  }

  /** Placing a record's parts one by one is placing one record with their sums. */
  lemma {:induction false} PartsPlaced(rows: seq<Record>, parts: seq<Record>, r: Record, g: Grouping)
    requires IgnoresActor(g) && SameBut(parts, r) && parts != []
    ensures GroupBy(rows + parts, g) == Joined(GroupBy(rows, g), Weighing(r, parts), g)
    decreases |parts|
  {
    var init, p := parts[..|parts| - 1], parts[|parts| - 1];
    assert parts == init + [p] && rows + parts == (rows + init) + [p];
    GroupOneMore(rows + init, p, g);
    SumLast(init, p, Amounts(Effective));
    SumLast(init, p, Amounts(Quantity));
    if init == [] {
      assert rows + init == rows;
      JoinedAlike(GroupBy(rows, g), p, Weighing(r, parts), g);
    } else {
      assert SameBut(init, r) by {
        assert forall i :: 0 <= i < |init| ==> init[i] == parts[i];
      }
      PartsPlaced(rows, init, r, g);
      JoinedTwice(GroupBy(rows, g), Weighing(r, init), p, Weighing(r, parts), g);
    }
  }

  /** A group looks at nothing but a record's day, cost and quantity. */
  lemma {:induction false} PlacedAlike(groups: Groups, key: string, p: Record, q: Record, inCurrent: bool)
    requires p.day == q.day && p.effective == q.effective && p.quantity == q.quantity
    ensures Placed(groups, key, p, inCurrent) == Placed(groups, key, q, inCurrent)
  {
    if groups != [] && groups[0].key != key {
      PlacedAlike(groups[1..], key, p, q, inCurrent);
    }
  }

  lemma {:induction false} WeighsTheSame(r: Record, events: seq<Event>)
    ensures AllocatedOne(r, events) != [] && SameBut(AllocatedOne(r, events), r)
    ensures Weighing(r, AllocatedOne(r, events)) == r
  {
    AllocatedOneKeeps(r, events, Effective);
    AllocatedOneKeeps(r, events, Quantity);
  }

  /** A record regrouped by its parts joins the groups as it would whole. */
  lemma {:induction false} RecordRegrouped(rows: seq<Record>, r: Record, events: seq<Event>, g: Grouping)
    requires IgnoresActor(g)
    ensures GroupBy(rows + AllocatedOne(r, events), g) == Joined(GroupBy(rows, g), r, g)
  {
    WeighsTheSame(r, events);
    PartsPlaced(rows, AllocatedOne(r, events), r, g);
  }

  /** Main result: regrouping the split records by service, region, account, resource or owner
      tag gives exactly the groups of the original records, in the same order, each with the
      same costs, quantities and daily profile. */
  lemma {:induction false} RegroupingIsUnchanged(rows: seq<Record>, events: seq<Event>, g: Grouping)
    requires IgnoresActor(g)
    ensures GroupBy(Allocated(rows, events), g) == GroupBy(rows, g)
  {
    if rows != [] {
      var init, r := rows[..|rows| - 1], rows[|rows| - 1];
      AllocatedLast(rows, events);
      GroupedLast(rows, g);
      RegroupingIsUnchanged(init, events, g);
      RecordRegrouped(Allocated(init, events), r, events, g);
    }
  }

  lemma {:induction false} AllocatedLast(rows: seq<Record>, events: seq<Event>)
    requires rows != []
    ensures Allocated(rows, events) == Allocated(rows[..|rows| - 1], events) + AllocatedOne(rows[|rows| - 1], events)
  {
  }

  lemma {:induction false} GroupedLast(rows: seq<Record>, g: Grouping)
    requires rows != []
    ensures GroupBy(rows, g) == Joined(GroupBy(rows[..|rows| - 1], g), rows[|rows| - 1], g)
  {
  }
}
