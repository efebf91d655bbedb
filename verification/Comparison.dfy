/**
 Comparing a provider's two periods: grouping records, the length-adjusted change of
 each group, choosing the candidates to publish, and reconciling what they leave over.
 */
module Comparison {
  import opened Common
  import opened Maths
  import opened Costs
  import opened Sorting

  // ---------------------------------------------------------------- aggregates

  datatype Aggregate = Aggregate(
    key: string, currentCost: int, baselineCost: int, currentQuantity: int, baselineQuantity: int,
    daily: map<Day, int>)

  function Fresh(key: string): Aggregate { Aggregate(key, 0, 0, 0, 0, map[]) }

  function DailyOf(a: Aggregate, d: Day): int { if d in a.daily then a.daily[d] else 0 }

  function Added(a: Aggregate, r: Record, inCurrent: bool): Aggregate {
    if inCurrent
    then a.(currentCost := a.currentCost + r.effective, currentQuantity := a.currentQuantity + r.quantity,
            daily := a.daily[r.day := DailyOf(a, r.day) + r.effective])
    else a.(baselineCost := a.baselineCost + r.effective, baselineQuantity := a.baselineQuantity + r.quantity)
  }

  /** The dictionary of aggregates, in insertion order. */
  type Groups = seq<Aggregate>

  function Find(groups: Groups, key: string): Option<Aggregate> {
    if groups == [] then None
    else if groups[0].key == key then Some(groups[0])
    else Find(groups[1..], key)
  }

  function Placed(groups: Groups, key: string, r: Record, inCurrent: bool): Groups {
    if groups == [] then [Added(Fresh(key), r, inCurrent)]
    else if groups[0].key == key then [Added(groups[0], r, inCurrent)] + groups[1..]
    else [groups[0]] + Placed(groups[1..], key, r, inCurrent)
  }

  /** How records are grouped: the periods compared, and each record's key, if any. */
  datatype Grouping = Grouping(current: Period, baseline: Period, key: Record -> Option<string>) {
    predicate InWindow(r: Record) { current.Contains(r.day) || baseline.Contains(r.day) }
    predicate Lands(r: Record) { InWindow(r) && key(r).Some? }
  }

  function GroupBy(rows: seq<Record>, g: Grouping): Groups {
    if rows == [] then []
    else
      var before, r := GroupBy(rows[..|rows| - 1], g), rows[|rows| - 1];
      if g.Lands(r) then Placed(before, g.key(r).value, r, g.current.Contains(r.day)) else before
  }

  lemma {:induction false} PlacedAt(groups: Groups, key: string, r: Record, inCurrent: bool, at: nat)
    requires at <= |groups| && forall j :: 0 <= j < at ==> groups[j].key != key
    ensures at == |groups| ==> Placed(groups, key, r, inCurrent) == groups + [Added(Fresh(key), r, inCurrent)]
    ensures at < |groups| && groups[at].key == key ==>
              Placed(groups, key, r, inCurrent) == groups[at := Added(groups[at], r, inCurrent)]
  {
    if at > 0 {
      PlacedAt(groups[1..], key, r, inCurrent, at - 1);
    }
  }

  method PlaceRecord(groups: Groups, key: string, r: Record, inCurrent: bool) returns (after: Groups)
    ensures after == Placed(groups, key, r, inCurrent)
  {
    var at := 0;
    while at < |groups| && groups[at].key != key
      invariant 0 <= at <= |groups| && forall j :: 0 <= j < at ==> groups[j].key != key
    {
      at := at + 1;
    }
    PlacedAt(groups, key, r, inCurrent, at);
    if at == |groups| {
      after := groups + [Added(Fresh(key), r, inCurrent)];
    } else {
      after := groups[at := Added(groups[at], r, inCurrent)];
    }
  }

  method GroupRecords(rows: seq<Record>, g: Grouping) returns (groups: Groups)
    ensures groups == GroupBy(rows, g)
  {
    groups := [];
    for i := 0 to |rows|
      invariant groups == GroupBy(rows[..i], g)
    {
      var r := rows[i];
      assert rows[..i + 1][..i] == rows[..i];
      var inCurrent := g.current.Contains(r.day);
      if !inCurrent && !g.baseline.Contains(r.day) {
        continue;
      }
      if g.key(r).None? {
        continue;
      }
      groups := PlaceRecord(groups, g.key(r).value, r, inCurrent);
    }
    assert rows[..|rows|] == rows;
  }

  // ---------------------------------------------------------------- what each group holds

  predicate DistinctKeys(groups: Groups) {
    forall i, j :: 0 <= i < j < |groups| ==> groups[i].key != groups[j].key
  }

  lemma {:induction false} FindPlaced(groups: Groups, key: string, r: Record, inCurrent: bool, other: string)
    ensures Find(Placed(groups, key, r, inCurrent), other)
         == if other != key then Find(groups, other)
            else Some(Added(Find(groups, key).GetOr(Fresh(key)), r, inCurrent))
  {
    if groups != [] {
      if groups[0].key == key {
        assert Placed(groups, key, r, inCurrent)[1..] == groups[1..];
      } else {
        FindPlaced(groups[1..], key, r, inCurrent, other);
        assert Placed(groups, key, r, inCurrent)[1..] == Placed(groups[1..], key, r, inCurrent);
      }
    }
  }

  lemma {:induction false} FindMeans(groups: Groups, key: string)
    ensures Find(groups, key).Some? <==> exists i :: 0 <= i < |groups| && groups[i].key == key
    ensures Find(groups, key).Some? ==> Find(groups, key).value in groups && Find(groups, key).value.key == key
  {
    if groups != [] {
      FindMeans(groups[1..], key);
      if groups[0].key != key && Find(groups, key).None? {
        forall i | 0 <= i < |groups|
          ensures groups[i].key != key
        {
          assert i > 0 ==> groups[i] == groups[1..][i - 1];
        }
      } else if groups[0].key != key {
        var i :| 0 <= i < |groups[1..]| && groups[1..][i].key == key;
        assert groups[i + 1].key == key;
      }
    }
  }

  lemma {:induction false} PlacedKeys(groups: Groups, key: string, r: Record, inCurrent: bool)
    requires DistinctKeys(groups)
    ensures DistinctKeys(Placed(groups, key, r, inCurrent))
    ensures forall a :: a in Placed(groups, key, r, inCurrent) ==> a.key == key || a in groups
  {
    if groups != [] && groups[0].key != key {
      PlacedKeys(groups[1..], key, r, inCurrent);
      var tail := Placed(groups[1..], key, r, inCurrent);
      assert forall i :: 0 <= i < |tail| ==> tail[i] in tail;
      assert Placed(groups, key, r, inCurrent) == [groups[0]] + tail;
    }
  }

  /** What one group's numbers should be: plain sums over the records with its key. */
  function Part(g: Grouping, key: string, inCurrent: bool, a: Amount): Record -> int {
    (r: Record) =>
      if g.InWindow(r) && g.key(r) == Some(key) && g.current.Contains(r.day) == inCurrent then Of(r, a) else 0
  }

  function DayPart(g: Grouping, key: string, d: Day): Record -> int {
    (r: Record) => if g.key(r) == Some(key) && g.current.Contains(r.day) && r.day == d then r.effective else 0
  }

  lemma {:induction false} GroupKeys(rows: seq<Record>, g: Grouping, key: string)
    ensures DistinctKeys(GroupBy(rows, g))
    ensures Find(GroupBy(rows, g), key).Some? <==> exists r :: r in rows && g.Lands(r) && g.key(r) == Some(key)
  {
    if rows != [] {
      var init, r := rows[..|rows| - 1], rows[|rows| - 1];
      assert rows == init + [r];
      GroupKeys(init, g, key);
      if g.Lands(r) {
        FindPlaced(GroupBy(init, g), g.key(r).value, r, g.current.Contains(r.day), key);
        PlacedKeys(GroupBy(init, g), g.key(r).value, r, g.current.Contains(r.day));
      }
    }
  }

  lemma {:induction false} SumsOneMore(init: seq<Record>, r: Record, g: Grouping, key: string)
    ensures forall inCurrent: bool, a: Amount ::
              Sum(init + [r], Part(g, key, inCurrent, a)) == Sum(init, Part(g, key, inCurrent, a)) + Part(g, key, inCurrent, a)(r)
    ensures forall d: Day :: Sum(init + [r], DayPart(g, key, d)) == Sum(init, DayPart(g, key, d)) + DayPart(g, key, d)(r)
  {
    forall inCurrent: bool, a: Amount
      ensures Sum(init + [r], Part(g, key, inCurrent, a)) == Sum(init, Part(g, key, inCurrent, a)) + Part(g, key, inCurrent, a)(r)
    {
      SumLast(init, r, Part(g, key, inCurrent, a));
    }
    forall d: Day
      ensures Sum(init + [r], DayPart(g, key, d)) == Sum(init, DayPart(g, key, d)) + DayPart(g, key, d)(r)
    {
      SumLast(init, r, DayPart(g, key, d));
    }
  }

  /** Main result: each record lands in exactly one group, and a group's cost, quantity
      and daily profile are the plain sums over its own records; groups exist exactly
      for the keys of in-window records. */
  lemma {:induction false} GroupHoldsItsSums(rows: seq<Record>, g: Grouping, key: string)
    ensures DistinctKeys(GroupBy(rows, g))
    ensures var a := Find(GroupBy(rows, g), key).GetOr(Fresh(key));
            && a.currentCost == Sum(rows, Part(g, key, true, Effective))
            && a.baselineCost == Sum(rows, Part(g, key, false, Effective))
            && a.currentQuantity == Sum(rows, Part(g, key, true, Quantity))
            && a.baselineQuantity == Sum(rows, Part(g, key, false, Quantity))
            && forall d: Day :: DailyOf(a, d) == Sum(rows, DayPart(g, key, d))
    ensures Find(GroupBy(rows, g), key).Some? <==> exists r :: r in rows && g.Lands(r) && g.key(r) == Some(key)
  {
    GroupKeys(rows, g, key);
    if rows != [] {
      var init, r := rows[..|rows| - 1], rows[|rows| - 1];
      assert rows == init + [r];
      GroupHoldsItsSums(init, g, key);
      SumsOneMore(init, r, g, key);
      if g.Lands(r) {
        FindPlaced(GroupBy(init, g), g.key(r).value, r, g.current.Contains(r.day), key);
      }
    }
  }

  predicate Falls(r: Record, g: Grouping, key: string, d: Day) {
    g.Lands(r) && g.key(r) == Some(key) && g.current.Contains(d) && r.day == d
  }

  /** A group's daily profile has the days of its current records and no others. */
  lemma {:induction false} GroupDays(rows: seq<Record>, g: Grouping, key: string, d: Day)
    ensures d in Find(GroupBy(rows, g), key).GetOr(Fresh(key)).daily <==> exists r :: r in rows && Falls(r, g, key, d)
  {
    if rows != [] {
      var init, r := rows[..|rows| - 1], rows[|rows| - 1];
      assert rows == init + [r];
      GroupDays(init, g, key, d);
      if g.Lands(r) {
        FindPlaced(GroupBy(init, g), g.key(r).value, r, g.current.Contains(r.day), key);
      }
      var before, after := Find(GroupBy(init, g), key).GetOr(Fresh(key)), Find(GroupBy(rows, g), key).GetOr(Fresh(key));
      assert d in after.daily <==> d in before.daily || Falls(r, g, key, d);
    }
  }

  // ---------------------------------------------------------------- totals

  function CurrentTotal(groups: Groups): int {
    if groups == [] then 0 else groups[0].currentCost + CurrentTotal(groups[1..])
  }

  function BaselineTotal(groups: Groups): int {
    if groups == [] then 0 else groups[0].baselineCost + BaselineTotal(groups[1..])
  }

  lemma {:induction false} PlacedTotals(groups: Groups, key: string, r: Record, inCurrent: bool)
    ensures var after := Placed(groups, key, r, inCurrent);
            && CurrentTotal(after) == CurrentTotal(groups) + (if inCurrent then r.effective else 0)
            && BaselineTotal(after) == BaselineTotal(groups) + (if inCurrent then 0 else r.effective)
  {
    var after := Placed(groups, key, r, inCurrent);
    if groups == [] {
      assert after[1..] == [];
    } else if groups[0].key == key {
      assert after[1..] == groups[1..];
    } else {
      PlacedTotals(groups[1..], key, r, inCurrent);
      assert after[1..] == Placed(groups[1..], key, r, inCurrent);
    }
  }

  function InCurrent(g: Grouping): Record -> int {
    (r: Record) => if g.Lands(r) && g.current.Contains(r.day) then r.effective else 0
  }

  function InBaseline(g: Grouping): Record -> int {
    (r: Record) => if g.Lands(r) && !g.current.Contains(r.day) then r.effective else 0
  }

  /** Nothing is lost or counted twice: the groups' totals are the in-window totals. */
  lemma {:induction false} GroupsConserveCost(rows: seq<Record>, g: Grouping)
    ensures CurrentTotal(GroupBy(rows, g)) == Sum(rows, InCurrent(g))
    ensures BaselineTotal(GroupBy(rows, g)) == Sum(rows, InBaseline(g))
  {
    if rows != [] {
      var init, r := rows[..|rows| - 1], rows[|rows| - 1];
      assert rows == init + [r];
      GroupsConserveCost(init, g);
      SumLast(init, r, InCurrent(g));
      SumLast(init, r, InBaseline(g));
      if g.Lands(r) {
        PlacedTotals(GroupBy(init, g), g.key(r).value, r, g.current.Contains(r.day));
      }
    }
  }

  // ---------------------------------------------------------------- candidates

  datatype Config = Config(minChange: int, minPercent: int, tolerance: real, maxCandidates: nat)

  /** Current days over baseline days. */
  function Scale(current: Period, baseline: Period): real
    requires baseline.Valid()
  {
    current.Days() as real / baseline.Days() as real
  }

  /** A baseline cost adjusted to the length of the current period. */
  function Adjusted(baselineCost: int, scale: real): real { baselineCost as real * scale }

  function Expected(baselineCost: int, scale: real): int { RoundHalfEven(Adjusted(baselineCost, scale)) }

  function Change(a: Aggregate, scale: real): int { a.currentCost - Expected(a.baselineCost, scale) }

  /** The change before rounding. */
  function ExactChange(a: Aggregate, scale: real): real {
    a.currentCost as real - Adjusted(a.baselineCost, scale)
  }

  function Exact(scale: real): Aggregate -> real { (a: Aggregate) => ExactChange(a, scale) }

  /** Thousandths of a percent. */
  function Percent(current: int, expected: int): Option<int> {
    if expected <= 0 then None
    else Some(RoundHalfEven((current - expected) as real / expected as real * 100000.0))
  }

  predicate Material(a: Aggregate, scale: real, c: Config) {
    var expected := Expected(a.baselineCost, scale);
    if Change(a, scale) < c.minChange then false
    else if a.baselineCost <= 0 && a.currentCost > 0 then true
    else match Percent(a.currentCost, expected)
      case None => true
      case Some(p) => p >= c.minPercent
  }

  function RawChange(a: Aggregate): int { a.currentCost - a.baselineCost }

  predicate LargerRaw(a: Aggregate, b: Aggregate) { RawChange(a) >= RawChange(b) }

  /** The order candidates are considered in: largest raw change first, earlier first on ties. */
  function Ranked(groups: Groups): Groups { Sort(groups, LargerRaw) }

  function MaterialOnes(ranked: Groups, scale: real, c: Config): Groups {
    if ranked == [] then []
    else (if Material(ranked[0], scale, c) then [ranked[0]] else []) + MaterialOnes(ranked[1..], scale, c)
  }

  function Take(groups: Groups, n: nat): Groups { if n < |groups| then groups[..n] else groups }

  function Published(groups: Groups, scale: real, c: Config): Groups {
    Take(MaterialOnes(Ranked(groups), scale, c), c.maxCandidates)
  }

  /** The groups not published: immaterial, or beyond the limit. */
  function Withheld(ranked: Groups, scale: real, c: Config, room: nat): Groups {
    if ranked == [] then []
    else if room > 0 && Material(ranked[0], scale, c) then Withheld(ranked[1..], scale, c, room - 1)
    else [ranked[0]] + Withheld(ranked[1..], scale, c, room)
  }

  function SumGroups(groups: Groups, f: Aggregate -> real): real {
    if groups == [] then 0.0 else f(groups[0]) + SumGroups(groups[1..], f)
  }

  lemma {:induction false} SumInserted(a: Aggregate, groups: Groups, f: Aggregate -> real)
    ensures SumGroups(Insert(a, groups, LargerRaw), f) == f(a) + SumGroups(groups, f)
  {
    if groups == [] || LargerRaw(a, groups[0]) {
      assert ([a] + groups)[1..] == groups;
    } else {
      SumInserted(a, groups[1..], f);
      SumFirst(groups[0], Insert(a, groups[1..], LargerRaw), f);
    }
  }

  lemma {:induction false} SumRanked(groups: Groups, f: Aggregate -> real)
    ensures SumGroups(Ranked(groups), f) == SumGroups(groups, f)
  {
    if groups != [] {
      SumRanked(groups[1..], f);
      SumInserted(groups[0], Ranked(groups[1..]), f);
    }
  }

  /** What taking and withholding do with the first group in line. */
  lemma {:induction false} TakeStep(ranked: Groups, scale: real, c: Config, room: nat)
    requires ranked != []
    ensures var took, held := Take(MaterialOnes(ranked, scale, c), room), Withheld(ranked, scale, c, room);
            var rest := ranked[1..];
            var first := room > 0 && Material(ranked[0], scale, c);
            && (first ==> took == [ranked[0]] + Take(MaterialOnes(rest, scale, c), room - 1))
            && (first ==> held == Withheld(rest, scale, c, room - 1))
            && (!first ==> took == Take(MaterialOnes(rest, scale, c), room))
            && (!first ==> held == [ranked[0]] + Withheld(rest, scale, c, room))
  {
  }

  lemma {:induction false} SumTakeAndWithheld(ranked: Groups, scale: real, c: Config, room: nat, f: Aggregate -> real)
    ensures SumGroups(Take(MaterialOnes(ranked, scale, c), room), f) + SumGroups(Withheld(ranked, scale, c, room), f)
         == SumGroups(ranked, f)
  {
    if ranked != [] {
      var rest := ranked[1..];
      TakeStep(ranked, scale, c, room);
      if room > 0 && Material(ranked[0], scale, c) {
        SumTakeAndWithheld(rest, scale, c, room - 1, f);
        SumFirst(ranked[0], Take(MaterialOnes(rest, scale, c), room - 1), f);
      } else {
        SumTakeAndWithheld(rest, scale, c, room, f);
        SumFirst(ranked[0], Withheld(rest, scale, c, room), f);
      }
    }
  }

  lemma {:induction false} SumFirst(a: Aggregate, groups: Groups, f: Aggregate -> real)
    ensures SumGroups([a] + groups, f) == f(a) + SumGroups(groups, f)
  {
  }

  lemma {:induction false} TakeAndWithheldPartition(ranked: Groups, scale: real, c: Config, room: nat)
    ensures multiset(Take(MaterialOnes(ranked, scale, c), room)) + multiset(Withheld(ranked, scale, c, room))
         == multiset(ranked)
  {
    if ranked != [] {
      assert ranked == [ranked[0]] + ranked[1..];
      TakeStep(ranked, scale, c, room);
      TakeAndWithheldPartition(ranked[1..], scale, c,
                               if room > 0 && Material(ranked[0], scale, c) then room - 1 else room);
    }
  }

  /** Every group is published or withheld, once, and published ones are material. */
  lemma {:induction false} PublishedAndWithheldPartition(groups: Groups, scale: real, c: Config)
    ensures multiset(Published(groups, scale, c)) + multiset(Withheld(Ranked(groups), scale, c, c.maxCandidates))
         == multiset(groups)
    ensures |Published(groups, scale, c)| <= c.maxCandidates
    ensures forall a :: a in Published(groups, scale, c) ==> Material(a, scale, c)
    ensures forall a :: a in Withheld(Ranked(groups), scale, c, c.maxCandidates) && Material(a, scale, c) ==>
              |Published(groups, scale, c)| == c.maxCandidates
  {
    SortPermutes(groups, LargerRaw);
    TakeAndWithheldPartition(Ranked(groups), scale, c, c.maxCandidates);
    AllMaterial(Ranked(groups), scale, c);
    WithheldOnlyWhenFull(Ranked(groups), scale, c, c.maxCandidates);
  }

  lemma {:induction false} AllMaterial(ranked: Groups, scale: real, c: Config)
    ensures forall a :: a in MaterialOnes(ranked, scale, c) ==> Material(a, scale, c)
  {
    if ranked != [] {
      AllMaterial(ranked[1..], scale, c);
    }
  }

  lemma {:induction false} WithheldOnlyWhenFull(ranked: Groups, scale: real, c: Config, room: nat)
    ensures forall a :: a in Withheld(ranked, scale, c, room) && Material(a, scale, c) ==>
              |MaterialOnes(ranked, scale, c)| >= room
  {
    if ranked != [] {
      var rest := ranked[1..];
      if room > 0 && Material(ranked[0], scale, c) {
        WithheldOnlyWhenFull(rest, scale, c, room - 1);
      } else {
        WithheldOnlyWhenFull(rest, scale, c, room);
        var held := Withheld(rest, scale, c, room);
        assert Withheld(ranked, scale, c, room) == [ranked[0]] + held;
      }
    }
  }

  /** Candidates are considered from the largest raw change down, ties in the order the
      groups were first seen. */
  lemma {:induction false} RankedIsStable(groups: Groups, a: Aggregate)
    ensures multiset(Ranked(groups)) == multiset(groups) && Ordered(Ranked(groups), LargerRaw)
    ensures Ties(Ranked(groups), a, LargerRaw) == Ties(groups, a, LargerRaw)
  {
    SortPermutes(groups, LargerRaw);
    SortIsStable(groups, a, LargerRaw);
  }

  // ---------------------------------------------------------------- reconciliation

  datatype Reconciliation = Reconciliation(total: int, attributed: int, unattributed: int, within: bool)

  const ONE_UNIT: int := 1000000

  function Reconcile(total: int, attributed: int, tolerance: real): Reconciliation {
    var left := total - attributed;
    var scale := if AbsInt(total) > ONE_UNIT then AbsInt(total) else ONE_UNIT;
    Reconciliation(total, attributed, left, AbsInt(left) as real <= tolerance * scale as real)
  }

  function SumChanges(groups: Groups, scale: real): int {
    if groups == [] then 0 else Change(groups[0], scale) + SumChanges(groups[1..], scale)
  }

  datatype ProviderComparison = ProviderComparison(
    currentCost: int, baselineCost: int, expectedBaseline: int, change: int, percent: Option<int>,
    candidates: Groups, reconciliation: Reconciliation)

  function CompareGroups(groups: Groups, scale: real, c: Config): ProviderComparison {
    var current, baseline := CurrentTotal(groups), BaselineTotal(groups);
    var expected := Expected(baseline, scale);
    var candidates := Published(groups, scale, c);
    ProviderComparison(current, baseline, expected, current - expected, Percent(current, expected), candidates,
                       Reconcile(current - expected, SumChanges(candidates, scale), c.tolerance))
  }

  datatype Dimension = Resource | Service | Region | Account | TagOwner(tagKeys: seq<string>) | Actor

  const ACTOR_TAG: string := "cloudcause:actor"
  const UNATTRIBUTED: string := "unattributed"

  function FirstTag(tags: map<string, string>, keys: seq<string>): string {
    if keys == [] then "untagged"
    else if keys[0] in tags && tags[keys[0]] != "" then tags[keys[0]]
    else FirstTag(tags, keys[1..])
  }

  function DimensionKey(r: Record, d: Dimension): Option<string> {
    match d
    case Resource => r.resourceId
    case Service => Some(r.service)
    case Region => if Present(r.region) then r.region else Some("unknown-region")
    case Account => Some(r.account)
    case TagOwner(keys) => Some(FirstTag(r.tags, keys))
    case Actor => if ACTOR_TAG in r.tags && r.tags[ACTOR_TAG] != "" then Some(r.tags[ACTOR_TAG]) else Some(UNATTRIBUTED)
  }

  /** What a record is filed under in each view; only a record without a resource is in none. */
  predicate FiledUnder(r: Record, d: Dimension, key: Option<string>) {
    match d
    case Resource => key == r.resourceId
    case Service => key == Some(r.service)
    case Account => key == Some(r.account)
    case Region => key == Some(if r.region.Some? && r.region.value != "" then r.region.value else "unknown-region")
    case TagOwner(keys) =>
      key.Some? && if forall i :: 0 <= i < |keys| ==> !Carries(r.tags, keys[i]) then key.value == "untagged"
                   else exists i :: 0 <= i < |keys| && Carries(r.tags, keys[i]) && key.value == r.tags[keys[i]]
                                    && forall j :: 0 <= j < i ==> !Carries(r.tags, keys[j])
    case Actor =>
      key == Some(if Carries(r.tags, "cloudcause:actor") then r.tags["cloudcause:actor"] else "unattributed")
  }

  lemma {:induction false} DimensionsMean(r: Record, d: Dimension)
    ensures FiledUnder(r, d, DimensionKey(r, d))
  {
    if d.TagOwner? {
      if forall i :: 0 <= i < |d.tagKeys| ==> !Carries(r.tags, d.tagKeys[i]) {
        FirstTagMeans(r.tags, d.tagKeys, |d.tagKeys|);
      } else {
        var i := FirstCarried(r.tags, d.tagKeys);
        FirstTagMeans(r.tags, d.tagKeys, i);
      }
    }
  }

  lemma {:induction false} FirstCarried(tags: map<string, string>, keys: seq<string>) returns (i: nat)
    requires exists k :: 0 <= k < |keys| && Carries(tags, keys[k])
    ensures i < |keys| && Carries(tags, keys[i]) && forall j :: 0 <= j < i ==> !Carries(tags, keys[j])
  {
    if Carries(tags, keys[0]) {
      i := 0;
    } else {
      var k :| 0 <= k < |keys| && Carries(tags, keys[k]);
      assert keys[1..][k - 1] == keys[k];
      i := FirstCarried(tags, keys[1..]);
      i := i + 1;
      assert forall j :: 0 < j < |keys| ==> keys[j] == keys[1..][j - 1];
    }
  }

  function ProviderKey(r: Record): Option<string> {
    if Present(r.resourceId) then r.resourceId else Some(r.service)
  }

  function OfProvider(rows: seq<Record>, provider: string): seq<Record> {
    if rows == [] then []
    else (if rows[0].provider == provider then [rows[0]] else []) + OfProvider(rows[1..], provider)
  }

  /** A provider's own records, each as often as it stands, and nobody else's. */
  lemma {:induction false} OfProviderMeans(rows: seq<Record>, provider: string, r: Record)
    ensures multiset(OfProvider(rows, provider))[r] == if r.provider == provider then multiset(rows)[r] else 0
  {
    if rows != [] {
      assert rows == [rows[0]] + rows[1..];
      OfProviderMeans(rows[1..], provider, r);
    }
  }

  predicate Carries(tags: map<string, string>, key: string) { key in tags && tags[key] != "" }

  /** The value of the first of the keys a record carries a value for. */
  lemma {:induction false} FirstTagMeans(tags: map<string, string>, keys: seq<string>, i: nat)
    requires i <= |keys| && forall j :: 0 <= j < i ==> !Carries(tags, keys[j])
    ensures i == |keys| ==> FirstTag(tags, keys) == "untagged"
    ensures i < |keys| && Carries(tags, keys[i]) ==> FirstTag(tags, keys) == tags[keys[i]]
  {
    if i > 0 {
      assert forall j :: 0 < j < |keys| ==> keys[j] == keys[1..][j - 1];
      FirstTagMeans(tags, keys[1..], i - 1);
    }
  }

  function ProviderGrouping(current: Period, baseline: Period): Grouping {
    Grouping(current, baseline, ProviderKey)
  }

  lemma {:induction false} ExactTotals(groups: Groups, scale: real)
    ensures SumGroups(groups, Exact(scale))
         == CurrentTotal(groups) as real - Adjusted(BaselineTotal(groups), scale)
  {
    if groups != [] {
      var rest := groups[1..];
      ExactTotals(rest, scale);
      assert (groups[0].baselineCost + BaselineTotal(rest)) as real * scale
          == groups[0].baselineCost as real * scale + BaselineTotal(rest) as real * scale;
    }
  }

  /** Within half a micro-unit for each of `n` roundings. */
  predicate Near(rounded: int, exact: real, n: nat) { Abs(rounded as real - exact) <= n as real / 2.0 }

  lemma {:induction false} RoundedChanges(groups: Groups, scale: real)
    ensures Near(SumChanges(groups, scale), SumGroups(groups, Exact(scale)), |groups|)
  {
    if groups != [] {
      RoundedChanges(groups[1..], scale);
      ExpectedNear(groups[0].baselineCost, scale);
    }
  }

  function HeldChange(groups: Groups, scale: real, c: Config): real {
    SumGroups(Withheld(Ranked(groups), scale, c, c.maxCandidates), Exact(scale))
  }

  /** Main result, before rounding: the provider's length-adjusted change is the sum over
      all groups, so what the candidates leave over is exactly the withheld groups' change. */
  lemma {:induction false} ExactRemainder(groups: Groups, scale: real, c: Config)
    ensures CurrentTotal(groups) as real - Adjusted(BaselineTotal(groups), scale)
              - SumGroups(Published(groups, scale, c), Exact(scale))
            == HeldChange(groups, scale, c)
  {
    ExactTotals(groups, scale);
    SumRanked(groups, Exact(scale));
    SumTakeAndWithheld(Ranked(groups), scale, c, c.maxCandidates, Exact(scale));
  }

  /** Main result, as reported: the published remainder differs from the withheld groups'
      exact change by at most half a micro-unit per candidate plus one half for the total. */
  lemma {:induction false} ReportedRemainder(groups: Groups, scale: real, c: Config)
    ensures var p := CompareGroups(groups, scale, c);
            && p.reconciliation.attributed + p.reconciliation.unattributed == p.change
            && Near(p.reconciliation.unattributed, HeldChange(groups, scale, c), |p.candidates| + 1)
  {
    ExactRemainder(groups, scale, c);
    RemainderNear(CurrentTotal(groups), BaselineTotal(groups), scale, Published(groups, scale, c),
                  HeldChange(groups, scale, c));
  }

  lemma {:induction false} RemainderNear(current: int, baseline: int, scale: real, candidates: Groups, held: real)
    requires current as real - Adjusted(baseline, scale) - SumGroups(candidates, Exact(scale)) == held
    ensures Near(current - Expected(baseline, scale) - SumChanges(candidates, scale), held, |candidates| + 1)
  {
    var published := SumGroups(candidates, Exact(scale));
    assert Near(SumChanges(candidates, scale), published, |candidates|) by {
      RoundedChanges(candidates, scale);
    }
    assert Near(Expected(baseline, scale), Adjusted(baseline, scale), 1) by {
      ExpectedNear(baseline, scale);
    }
    RemainderBound(current, Expected(baseline, scale), SumChanges(candidates, scale),
                   Adjusted(baseline, scale), published, held, |candidates|);
  }

  lemma {:induction false} ExpectedNear(cost: int, scale: real)
    ensures Near(Expected(cost, scale), Adjusted(cost, scale), 1)
  {
    RoundError(Adjusted(cost, scale));
  }

  lemma {:induction false} RemainderBound(current: int, expected: int, attributed: int, exactTotal: real, published: real, held: real, n: nat)
    requires Near(expected, exactTotal, 1) && Near(attributed, published, n)
    requires current as real - exactTotal - published == held
    ensures Near(current - expected - attributed, held, n + 1)
  {
  }

  // ---------------------------------------------------------------- groups in another order

  lemma {:induction false} Multiplicity(groups: Groups, a: Aggregate)
    requires DistinctKeys(groups)
    ensures multiset(groups)[a] == if Find(groups, a.key) == Some(a) then 1 else 0
  {
    if groups != [] {
      assert groups == [groups[0]] + groups[1..];
      Multiplicity(groups[1..], a);
      FindMeans(groups[1..], a.key);
    }
  }

  /** The same groups, listed in another order perhaps. */
  lemma {:induction false} SameGroups(x: Groups, y: Groups)
    requires DistinctKeys(x) && DistinctKeys(y) && forall key :: Find(x, key) == Find(y, key)
    ensures multiset(x) == multiset(y)
  {
    forall a: Aggregate
      ensures multiset(x)[a] == multiset(y)[a]
    {
      Multiplicity(x, a);
      Multiplicity(y, a);
    }
  }

  function AtLeast(groups: Groups, v: int): Groups {
    if groups == [] then []
    else (if RawChange(groups[0]) >= v then [groups[0]] else []) + AtLeast(groups[1..], v)
  }

  lemma {:induction false} AtLeastCounts(groups: Groups, v: int, a: Aggregate)
    ensures multiset(AtLeast(groups, v))[a] == if RawChange(a) >= v then multiset(groups)[a] else 0
  {
    if groups != [] {
      assert groups == [groups[0]] + groups[1..];
      AtLeastCounts(groups[1..], v, a);
    }
  }

  lemma {:induction false} AtLeastPermuted(x: Groups, y: Groups, v: int)
    requires multiset(x) == multiset(y)
    ensures |AtLeast(x, v)| == |AtLeast(y, v)|
  {
    forall a: Aggregate
      ensures multiset(AtLeast(x, v))[a] == multiset(AtLeast(y, v))[a]
    {
      AtLeastCounts(x, v, a);
      AtLeastCounts(y, v, a);
    }
    assert multiset(AtLeast(x, v)) == multiset(AtLeast(y, v));
    assert |multiset(AtLeast(x, v))| == |AtLeast(x, v)| && |multiset(AtLeast(y, v))| == |AtLeast(y, v)|;
  }

  /** In a ranked list the groups that change by at least `v` are its first ones. */
  lemma {:induction false} AtLeastIsAPrefix(groups: Groups, v: int, i: nat)
    requires Ordered(groups, LargerRaw) && i < |groups|
    ensures RawChange(groups[i]) >= v <==> i < |AtLeast(groups, v)|
  {
    AtLeastLength(groups[1..], v);
    if i > 0 {
      AtLeastIsAPrefix(groups[1..], v, i - 1);
      assert LargerRaw(groups[0], groups[i]);
    } else if RawChange(groups[0]) < v {
      NoneAtLeast(groups, v);
    }
  }

  lemma {:induction false} AtLeastLength(groups: Groups, v: int)
    ensures |AtLeast(groups, v)| <= |groups|
  {
    if groups != [] {
      AtLeastLength(groups[1..], v);
    }
  }

  lemma {:induction false} NoneAtLeast(groups: Groups, v: int)
    requires forall i :: 0 <= i < |groups| ==> RawChange(groups[i]) < v
    ensures AtLeast(groups, v) == []
  {
    if groups != [] {
      NoneAtLeast(groups[1..], v);
    }
  }

  lemma {:induction false} RanksAgree(x: Groups, y: Groups, i: nat)
    requires multiset(x) == multiset(y) && Ordered(x, LargerRaw) && Ordered(y, LargerRaw) && i < |x| == |y|
    ensures RawChange(x[i]) == RawChange(y[i])
  {
    AtLeastPermuted(x, y, RawChange(x[i]));
    AtLeastIsAPrefix(x, RawChange(x[i]), i);
    AtLeastIsAPrefix(y, RawChange(x[i]), i);
    AtLeastPermuted(x, y, RawChange(y[i]));
    AtLeastIsAPrefix(x, RawChange(y[i]), i);
    AtLeastIsAPrefix(y, RawChange(y[i]), i);
  }

  lemma {:induction false} MaterialCounts(groups: Groups, scale: real, c: Config, a: Aggregate)
    ensures multiset(MaterialOnes(groups, scale, c))[a] == if Material(a, scale, c) then multiset(groups)[a] else 0
  {
    if groups != [] {
      assert groups == [groups[0]] + groups[1..];
      MaterialCounts(groups[1..], scale, c, a);
    }
  }

  lemma {:induction false} MaterialOrdered(ranked: Groups, scale: real, c: Config)
    requires Ordered(ranked, LargerRaw)
    ensures Ordered(MaterialOnes(ranked, scale, c), LargerRaw)
    ensures forall a :: a in MaterialOnes(ranked, scale, c) ==> a in ranked
  {
    if ranked != [] {
      var rest := MaterialOnes(ranked[1..], scale, c);
      MaterialOrdered(ranked[1..], scale, c);
      forall i | 0 <= i < |rest|
        ensures LargerRaw(ranked[0], rest[i])
      {
        assert rest[i] in ranked[1..];
        var j :| 0 <= j < |ranked[1..]| && ranked[1..][j] == rest[i];
        assert LargerRaw(ranked[0], ranked[j + 1]);
      }
    }
  }

  function Ranking(groups: Groups, scale: real, c: Config): Groups { MaterialOnes(Ranked(groups), scale, c) }

  lemma {:induction false} RankingsAgree(x: Groups, y: Groups, scale: real, c: Config)
    requires multiset(x) == multiset(y)
    ensures multiset(Ranking(x, scale, c)) == multiset(Ranking(y, scale, c))
    ensures Ordered(Ranking(x, scale, c), LargerRaw) && Ordered(Ranking(y, scale, c), LargerRaw)
    ensures |Ranking(x, scale, c)| == |Ranking(y, scale, c)|
  {
    RankedOrdered(x);
    RankedOrdered(y);
    forall a: Aggregate
      ensures multiset(Ranking(x, scale, c))[a] == multiset(Ranking(y, scale, c))[a]
    {
      MaterialCounts(Ranked(x), scale, c, a);
      MaterialCounts(Ranked(y), scale, c, a);
    }
    MaterialOrdered(Ranked(x), scale, c);
    MaterialOrdered(Ranked(y), scale, c);
    assert multiset(Ranking(x, scale, c)) == multiset(Ranking(y, scale, c));
    assert |multiset(Ranking(x, scale, c))| == |Ranking(x, scale, c)|;
    assert |multiset(Ranking(y, scale, c))| == |Ranking(y, scale, c)|;
  }

  lemma {:induction false} RankedOrdered(groups: Groups)
    ensures multiset(Ranked(groups)) == multiset(groups) && Ordered(Ranked(groups), LargerRaw)
  {
    RankedIsStable(groups, Fresh(""));
  }

  /** No other group of the list changes by as much as this one. */
  predicate Untied(groups: Groups, a: Aggregate) {
    forall b :: b in groups && RawChange(b) == RawChange(a) ==> b == a
  }

  /** Main result: whatever order the groups are listed in, the candidates agree rank by
      rank in raw change, and are the same group wherever no two groups tie. */
  lemma {:induction false} CandidatesAgreeUpToTies(x: Groups, y: Groups, scale: real, c: Config, i: nat)
    requires multiset(x) == multiset(y)
    ensures var a, b := Published(x, scale, c), Published(y, scale, c);
            && |a| == |b|
            && (i < |a| ==> RawChange(a[i]) == RawChange(b[i]) && (Untied(x, a[i]) ==> a[i] == b[i]))
  {
    var a, b := Published(x, scale, c), Published(y, scale, c);
    RankingsAgree(x, y, scale, c);
    if i < |a| {
      var p, q := Ranking(x, scale, c), Ranking(y, scale, c);
      RanksAgree(p, q, i);
      assert a[i] == p[i] && b[i] == q[i];
      RankedOrdered(y);
      MaterialOrdered(Ranked(y), scale, c);
      assert b[i] in q && b[i] in Ranked(y);
      assert b[i] in multiset(Ranked(y));
      assert b[i] in multiset(x);
    }
  }

  // ---------------------------------------------------------------- all providers

  datatype Overall = Overall(current: int, expected: int, baseline: int, change: int, reconciliation: Reconciliation)

  function Totals(items: seq<ProviderComparison>): (int, int, int, int) {
    if items == [] then (0, 0, 0, 0)
    else
      var (a, b, d, e) := Totals(items[1..]);
      (items[0].currentCost + a, items[0].expectedBaseline + b, items[0].baselineCost + d,
       items[0].reconciliation.attributed + e)
  }

  function ComparePeriods(items: seq<ProviderComparison>, tolerance: real): Overall {
    var (current, expected, baseline, attributed) := Totals(items);
    Overall(current, expected, baseline, current - expected, Reconcile(current - expected, attributed, tolerance))
  }

  function SumUnattributed(items: seq<ProviderComparison>): int {
    if items == [] then 0 else items[0].reconciliation.unattributed + SumUnattributed(items[1..])
  }

  predicate FromGroups(p: ProviderComparison) {
    && p.change == p.currentCost - p.expectedBaseline
    && p.reconciliation.unattributed == p.change - p.reconciliation.attributed
  }

  function SumItems(items: seq<ProviderComparison>, f: ProviderComparison -> int): int {
    if items == [] then 0 else f(items[0]) + SumItems(items[1..], f)
  }

  /** Across providers, costs, expectations, changes and remainders are exactly the sums of the
      providers' own. */
  lemma {:induction false} OverallRemainder(items: seq<ProviderComparison>, tolerance: real)
    requires forall p :: p in items ==> FromGroups(p)
    ensures var all := ComparePeriods(items, tolerance);
            && all.reconciliation.unattributed == SumUnattributed(items)
            && all.current == SumItems(items, (p: ProviderComparison) => p.currentCost)
            && all.baseline == SumItems(items, (p: ProviderComparison) => p.baselineCost)
            && all.expected == SumItems(items, (p: ProviderComparison) => p.expectedBaseline)
            && all.change == all.reconciliation.total == SumItems(items, (p: ProviderComparison) => p.change)
  {
    if items != [] {
      OverallRemainder(items[1..], tolerance);
      assert FromGroups(items[0]);
    }
  }

  // ---------------------------------------------------------------- daily totals

  function OnDay(d: Day, a: Amount): Record -> int { (r: Record) => if r.day == d then Of(r, a) else 0 }

  function Within(p: Period): Record -> int { (r: Record) => if p.Contains(r.day) then r.effective else 0 }

  datatype DailyTotal = DailyTotal(billed: int, effective: int)

  function TotalOn(rows: seq<Record>, d: Day): DailyTotal {
    DailyTotal(Sum(rows, OnDay(d, Billed)), Sum(rows, OnDay(d, Effective)))
  }

  /** One entry a day of the period, zero where nothing was billed. */
  predicate IsDailyTotals(daily: seq<DailyTotal>, rows: seq<Record>, p: Period) {
    |daily| == p.Days() && forall i :: 0 <= i < |daily| ==> daily[i] == TotalOn(rows, p.first + i)
  }

  function AddedTo(totals: map<Day, int>, d: Day, amount: int): map<Day, int> {
    totals[d := (if d in totals then totals[d] else 0) + amount]
  }

  ghost predicate HoldsTotals(totals: map<Day, int>, rows: seq<Record>, p: Period, a: Amount) {
    forall d: Day :: p.Contains(d) ==> (if d in totals then totals[d] else 0) == Sum(rows, OnDay(d, a))
  }

  lemma {:induction false} TotalsGrow(totals: map<Day, int>, rows: seq<Record>, p: Period, a: Amount, r: Record)
    requires HoldsTotals(totals, rows, p, a)
    ensures HoldsTotals(if p.Contains(r.day) then AddedTo(totals, r.day, Of(r, a)) else totals, rows + [r], p, a)
  {
    forall d: Day
      ensures Sum(rows + [r], OnDay(d, a)) == Sum(rows, OnDay(d, a)) + OnDay(d, a)(r)
    {
      SumLast(rows, r, OnDay(d, a));
    }
  }

  method DailyTotals(rows: seq<Record>, p: Period) returns (daily: seq<DailyTotal>)
    requires p.Valid()
    ensures IsDailyTotals(daily, rows, p)
  {
    var billed: map<Day, int>, effective: map<Day, int> := map[], map[];
    for i := 0 to |rows|
      invariant HoldsTotals(billed, rows[..i], p, Billed) && HoldsTotals(effective, rows[..i], p, Effective)
    {
      var r := rows[i];
      assert rows[..i + 1] == rows[..i] + [r];
      TotalsGrow(billed, rows[..i], p, Billed, r);
      TotalsGrow(effective, rows[..i], p, Effective, r);
      if p.Contains(r.day) {
        billed := AddedTo(billed, r.day, r.billed);
        effective := AddedTo(effective, r.day, r.effective);
      }
    }
    assert rows[..|rows|] == rows;
    daily := [];
    for i := 0 to p.Days()
      invariant |daily| == i
      invariant forall j :: 0 <= j < i ==> daily[j] == TotalOn(rows, p.first + j)
    {
      var d := p.first + i;
      daily := daily + [DailyTotal(if d in billed then billed[d] else 0, if d in effective then effective[d] else 0)];
    }
  }

  // ---------------------------------------------------------------- one provider

  /** The currency the last in-window row names, when one does. */
  function LastCurrency(rows: seq<Record>, current: Period, baseline: Period, configured: string): string {
    if rows == [] then configured
    else
      var r := rows[|rows| - 1];
      if (current.Contains(r.day) || baseline.Contains(r.day)) && r.currency != "" then r.currency
      else LastCurrency(rows[..|rows| - 1], current, baseline, configured)
  }

  method NamedCurrency(rows: seq<Record>, current: Period, baseline: Period, configured: string) returns (currency: string)
    ensures currency == LastCurrency(rows, current, baseline, configured)
  {
    currency := configured;
    for i := 0 to |rows|
      invariant currency == LastCurrency(rows[..i], current, baseline, configured)
    {
      PrefixGrows(rows, i);
      if (current.Contains(rows[i].day) || baseline.Contains(rows[i].day)) && rows[i].currency != "" {
        currency := rows[i].currency;
      }
    }
    assert rows[..|rows|] == rows;
  }

  /** The currency is that of the last in-window record that names one, else the configured one. */
  lemma {:induction false} CurrencyMeans(rows: seq<Record>, current: Period, baseline: Period, configured: string, i: nat)
    requires i <= |rows|
    requires forall j :: i <= j < |rows| && (current.Contains(rows[j].day) || baseline.Contains(rows[j].day)) ==> rows[j].currency == ""
    ensures i == 0 ==> LastCurrency(rows, current, baseline, configured) == configured
    ensures i > 0 && rows[i - 1].currency != "" && (current.Contains(rows[i - 1].day) || baseline.Contains(rows[i - 1].day)) ==>
              LastCurrency(rows, current, baseline, configured) == rows[i - 1].currency
  {
    if i < |rows| {
      var init := rows[..|rows| - 1];
      assert forall j :: 0 <= j < |init| ==> init[j] == rows[j];
      CurrencyMeans(init, current, baseline, configured, i);
    }
  }

  /** A provider's own groups, read off the rows of every provider. */
  function OwnGrouping(current: Period, baseline: Period, provider: string): Grouping {
    Grouping(current, baseline, (r: Record) => if r.provider == provider then ProviderKey(r) else None)
  }

  lemma {:induction false} OfProviderLast(rows: seq<Record>, r: Record, provider: string)
    ensures OfProvider(rows + [r], provider) == OfProvider(rows, provider) + (if r.provider == provider then [r] else [])
  {
    if rows == [] {
      assert [] + [r] == [r] && [r][1..] == [];
    } else {
      OfProviderLast(rows[1..], r, provider);
      assert (rows + [r])[1..] == rows[1..] + [r];
    }
  }

  lemma {:induction false} OwnGroups(rows: seq<Record>, current: Period, baseline: Period, provider: string)
    ensures GroupBy(OfProvider(rows, provider), ProviderGrouping(current, baseline))
         == GroupBy(rows, OwnGrouping(current, baseline, provider))
  {
    if rows != [] {
      var init, r := rows[..|rows| - 1], rows[|rows| - 1];
      assert rows == init + [r];
      OwnGroups(init, current, baseline, provider);
      OfProviderLast(init, r, provider);
      var own, all, one := OfProvider(init, provider), ProviderGrouping(current, baseline), OwnGrouping(current, baseline, provider);
      if r.provider == provider {
        assert (own + [r])[..|own|] == own;
        assert all.key(r) == one.key(r) && (all.Lands(r) <==> one.Lands(r));
      } else {
        assert !one.Lands(r) && own + [] == own;
      }
    }
  }

  // ---------------------------------------------------------------- daily totals over a period

  function SumDaily(rows: seq<Record>, first: Day, last: Day): int
    decreases last - first + 1
  {
    if last < first then 0 else Sum(rows, OnDay(first, Effective)) + SumDaily(rows, first + 1, last)
  }

  lemma {:induction false} DailyCoversPeriod(rows: seq<Record>, first: Day, last: Day)
    requires first <= last + 1
    ensures SumDaily(rows, first, last) == Sum(rows, Within(Period(first, last)))
    decreases last - first + 1
  {
    if first <= last {
      DailyCoversPeriod(rows, first + 1, last);
      SumSplit(rows, Within(Period(first, last)), OnDay(first, Effective), Within(Period(first + 1, last)));
    } else {
      SumSame(rows, Within(Period(first, last)), r => 0);
      SumZero(rows);
    }
  }

  lemma {:induction false} SumZero(rows: seq<Record>)
    ensures Sum(rows, r => 0) == 0
  {
    if rows != [] {
      SumZero(rows[1..]);
    }
  }

  function InBoth(g: Grouping): Record -> int {
    (r: Record) => if g.current.Contains(r.day) && g.baseline.Contains(r.day) then r.effective else 0
  }

  /** Main result: the daily totals of the current period add up to the provider's current
      cost, and those of the baseline to its baseline cost plus the cost dated in both
      periods; so both agree exactly when that overlap adds up to nothing. */
  lemma {:induction false} DailyTotalsAgree(rows: seq<Record>, current: Period, baseline: Period)
    requires current.Valid() && baseline.Valid()
    ensures var g := ProviderGrouping(current, baseline);
            && SumDaily(rows, current.first, current.last) == CurrentTotal(GroupBy(rows, g))
            && SumDaily(rows, baseline.first, baseline.last) == BaselineTotal(GroupBy(rows, g)) + Sum(rows, InBoth(g))
  {
    var g := ProviderGrouping(current, baseline);
    GroupsConserveCost(rows, g);
    DailyCoversPeriod(rows, current.first, current.last);
    DailyCoversPeriod(rows, baseline.first, baseline.last);
    SumSame(rows, Within(current), InCurrent(g));
    SumSplit(rows, Within(baseline), InBaseline(g), InBoth(g));
  }
}
