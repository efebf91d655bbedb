/**
 Ingesting a cost export: dropping rows that cannot carry a comparison, and collapsing
 the rest to one row per day and bucket before anything is compared.
 */
module Ingest {
  import opened Common
  import opened Strings
  import opened Costs
  import opened Comparison
  import opened Sorting

  // ---------------------------------------------------------------- validation

  datatype Rejection = Rejection(row: nat, code: string)

  function RowFault(r: Record): Option<string> {
    if r.service == "" || r.service == "unknown" then Some("missing_service")
    else if r.billed == 0 && r.effective == 0 && r.quantity == 0 then Some("empty_row")
    else None
  }

  function Usable(rows: seq<Record>): seq<Record> {
    if rows == [] then []
    else
      var before, r := Usable(rows[..|rows| - 1]), rows[|rows| - 1];
      if RowFault(r).None? then before + [r] else before
  }

  function Faulty(rows: seq<Record>): seq<Rejection> {
    if rows == [] then []
    else
      var before, r := Faulty(rows[..|rows| - 1]), rows[|rows| - 1];
      if RowFault(r).Some? then before + [Rejection(|rows|, RowFault(r).value)] else before
  }

  method ValidateCostRecords(rows: seq<Record>) returns (usable: seq<Record>, rejections: seq<Rejection>)
    ensures usable == Usable(rows) && rejections == Faulty(rows)
  {
    usable, rejections := [], [];
    for i := 0 to |rows|
      invariant usable == Usable(rows[..i]) && rejections == Faulty(rows[..i])
    {
      assert rows[..i + 1][..i] == rows[..i];
      var r := rows[i];
      if r.service == "" || r.service == "unknown" {
        rejections := rejections + [Rejection(i + 1, "missing_service")];
      } else if r.billed == 0 && r.effective == 0 && r.quantity == 0 {
        rejections := rejections + [Rejection(i + 1, "empty_row")];
      } else {
        usable := usable + [r];
      }
    }
    assert rows[..|rows|] == rows;
  }

  function Unnamed(a: Amount): Record -> int {
    (r: Record) => if RowFault(r) == Some("missing_service") then Of(r, a) else 0
  }

  /** Every row is kept or rejected, once, by its own number, and the only amounts that
      leave with the rejected rows are those of rows without a service name. */
  lemma {:induction false} ValidationAccountsForEveryRow(rows: seq<Record>, a: Amount)
    ensures |Usable(rows)| + |Faulty(rows)| == |rows|
    ensures forall x :: x in Faulty(rows) ==> 1 <= x.row <= |rows| && RowFault(rows[x.row - 1]) == Some(x.code)
    ensures forall r :: r in Usable(rows) ==> RowFault(r).None?
    ensures Sum(Usable(rows), (r: Record) => Of(r, a)) + Sum(rows, Unnamed(a)) == Sum(rows, (r: Record) => Of(r, a))
  {
    if rows != [] {
      var init, r := rows[..|rows| - 1], rows[|rows| - 1];
      var whole := (r: Record) => Of(r, a);
      assert rows == init + [r];
      ValidationAccountsForEveryRow(init, a);
      SumLast(init, r, whole);
      SumLast(init, r, Unnamed(a));
      SumLast(Usable(init), r, whole);
    }
  }

  // ---------------------------------------------------------------- one currency

  predicate OneCurrency(rows: seq<Record>, currency: string) {
    forall r :: r in rows ==> r.currency == "" || r.currency == currency
  }

  lemma {:induction false} AtMostOne(named: set<string>, c: string)
    requires c in named
    ensures |named| <= 1 <==> named == {c}
  {
    if |named| <= 1 {
      assert |named - {c}| == 0;
    }
  }

  /** Accepted exactly when the rows that name a currency all name the same one, which is
      then the answer; refused with all the currencies named. */
  method CheckSingleCurrency(rows: seq<Record>) returns (r: Result<string, set<string>>)
    ensures r.Success? <==> exists c :: OneCurrency(rows, c)
    ensures r.Success? ==> OneCurrency(rows, r.value) && (OneCurrency(rows, "") ==> r.value == "USD")
    ensures r.Failure? ==> forall c :: c in r.error <==> c != "" && exists row :: row in rows && row.currency == c
  {
    var named := set row | row in rows && row.currency != "" :: row.currency;
    assert forall row :: row in rows && row.currency != "" ==> row.currency in named;
    if named == {} {
      assert OneCurrency(rows, "USD");
      return Success("USD");
    }
    var c :| c in named;
    AtMostOne(named, c);
    if |named| > 1 {
      return Failure(named);
    }
    assert OneCurrency(rows, c);
    return Success(c);
  }

  // ---------------------------------------------------------------- buckets

  /** The fields that keep two rows apart. */
  datatype BucketKey = BucketKey(
    provider: string, account: string, day: Day, service: string, sku: Option<string>, region: Option<string>,
    resourceId: Option<string>, chargeCategory: string, currency: string, tags: map<string, string>)

  function KeyOf(r: Record): BucketKey {
    BucketKey(r.provider, r.account, r.day, r.service, r.sku, r.region, r.resourceId, r.chargeCategory,
              r.currency, r.tags)
  }

  /** A row with nothing but its key, for asking where a bucket would be grouped. */
  function Blank(k: BucketKey): Record {
    Record(k.provider, k.account, k.day, k.service, "", k.chargeCategory, k.region, k.resourceId, None, k.sku,
           0, 0, 0, k.currency, k.tags, None, "")
  }

  function Merged(existing: Record, r: Record): Record {
    existing.(quantity := existing.quantity + r.quantity,
              billed := existing.billed + r.billed,
              effective := existing.effective + r.effective,
              discountId := if Present(existing.discountId) then existing.discountId else r.discountId,
              resourceName := if Present(existing.resourceName) then existing.resourceName else r.resourceName)
  }

  /** The dictionary of buckets, in insertion order. */
  function Poured(buckets: seq<Record>, r: Record): seq<Record> {
    if buckets == [] then [r]
    else if KeyOf(buckets[0]) == KeyOf(r) then [Merged(buckets[0], r)] + buckets[1..]
    else [buckets[0]] + Poured(buckets[1..], r)
  }

  function Collapsed(rows: seq<Record>): seq<Record> {
    if rows == [] then [] else Poured(Collapsed(rows[..|rows| - 1]), rows[|rows| - 1])
  }

  // ---------------------------------------------------------------- order and numbering

  function ResourceKey(r: Record): string {
    if Present(r.resourceId) then r.resourceId.value else r.service + "::untagged-aggregate"
  }

  predicate AtMost(a: Record, b: Record) {
    if a.day != b.day then a.day < b.day
    else if a.service != b.service then StringAtMost(a.service, b.service)
    else StringAtMost(ResourceKey(a), ResourceKey(b))
  }

  lemma {:induction false} AtMostIsOrder()
    ensures IsOrder(AtMost)
  {
    forall a: Record, b: Record
      ensures AtMost(a, b) || AtMost(b, a)
    {
      StringAtMostTotal(a.service, b.service);
      StringAtMostTotal(ResourceKey(a), ResourceKey(b));
    }
    forall a: Record, b: Record, c: Record | AtMost(a, b) && AtMost(b, c)
      ensures AtMost(a, c)
    {
      AtMostTransitive(a, b, c);
    }
  }

  lemma {:induction false} AtMostTransitive(a: Record, b: Record, c: Record)
    requires AtMost(a, b) && AtMost(b, c)
    ensures AtMost(a, c)
  {
    if a.day == b.day == c.day {
      if a.service == b.service == c.service {
        StringAtMostTransitive(ResourceKey(a), ResourceKey(b), ResourceKey(c));
      } else if a.service != b.service && b.service != c.service {
        StringAtMostTransitive(a.service, b.service, c.service);
        StringAtMostTotal(a.service, b.service);
      }
    }
  }

  /** `naming` writes a day and a position as a record id. */
  function Numbered(rows: seq<Record>, naming: (Day, nat) -> string): seq<Record> {
    seq(|rows|, i requires 0 <= i < |rows| => rows[i].(recordId := naming(rows[i].day, i)))
  }

  function Aggregated(rows: seq<Record>, naming: (Day, nat) -> string): seq<Record> {
    Numbered(Sort(Collapsed(rows), AtMost), naming)
  }

  lemma {:induction false} PouredAt(buckets: seq<Record>, r: Record, at: nat)
    requires at <= |buckets| && forall j :: 0 <= j < at ==> KeyOf(buckets[j]) != KeyOf(r)
    ensures at == |buckets| ==> Poured(buckets, r) == buckets + [r]
    ensures at < |buckets| && KeyOf(buckets[at]) == KeyOf(r) ==>
              Poured(buckets, r) == buckets[at := Merged(buckets[at], r)]
  {
    if at > 0 {
      PouredAt(buckets[1..], r, at - 1);
    }
  }

  method PourRecord(buckets: seq<Record>, r: Record) returns (after: seq<Record>)
    ensures after == Poured(buckets, r)
  {
    var at := 0;
    while at < |buckets| && KeyOf(buckets[at]) != KeyOf(r)
      invariant 0 <= at <= |buckets| && forall j :: 0 <= j < at ==> KeyOf(buckets[j]) != KeyOf(r)
    {
      at := at + 1;
    }
    PouredAt(buckets, r, at);
    if at == |buckets| {
      after := buckets + [r];
    } else {
      after := buckets[at := Merged(buckets[at], r)];
    }
  }

  method AggregateCostRecords(rows: seq<Record>, naming: (Day, nat) -> string) returns (out: seq<Record>)
    ensures out == Aggregated(rows, naming)
  {
    var buckets: seq<Record> := [];
    for i := 0 to |rows|
      invariant buckets == Collapsed(rows[..i])
    {
      assert rows[..i + 1][..i] == rows[..i];
      buckets := PourRecord(buckets, rows[i]);
    }
    assert rows[..|rows|] == rows;
    var ordered := Sort(buckets, AtMost);
    out := [];
    for i := 0 to |ordered|
      invariant out == Numbered(ordered, naming)[..i]
    {
      out := out + [ordered[i].(recordId := naming(ordered[i].day, i))];
    }
  }

  // ---------------------------------------------------------------- what collapsing preserves

  /** Sum of one amount over the rows whose key satisfies `w`. */
  function Keyed(w: BucketKey -> bool, a: Amount): Record -> int {
    (r: Record) => if w(KeyOf(r)) then Of(r, a) else 0
  }

  lemma {:induction false} MergedAdds(existing: Record, r: Record, w: BucketKey -> bool, a: Amount)
    requires KeyOf(existing) == KeyOf(r)
    ensures KeyOf(Merged(existing, r)) == KeyOf(r)
    ensures Keyed(w, a)(Merged(existing, r)) == Keyed(w, a)(existing) + Keyed(w, a)(r)
  {
  }

  lemma {:induction false} SumPoured(buckets: seq<Record>, r: Record, w: BucketKey -> bool, a: Amount)
    ensures Sum(Poured(buckets, r), Keyed(w, a)) == Sum(buckets, Keyed(w, a)) + Keyed(w, a)(r)
  {
    var after := Poured(buckets, r);
    if buckets == [] {
      assert after[1..] == [];
    } else if KeyOf(buckets[0]) == KeyOf(r) {
      MergedAdds(buckets[0], r, w, a);
      assert after[1..] == buckets[1..] && after[0] == Merged(buckets[0], r);
    } else {
      SumPoured(buckets[1..], r, w, a);
      assert after[1..] == Poured(buckets[1..], r);
    }
  }

  lemma {:induction false} SumCollapsed(rows: seq<Record>, w: BucketKey -> bool, a: Amount)
    ensures Sum(Collapsed(rows), Keyed(w, a)) == Sum(rows, Keyed(w, a))
  {
    if rows != [] {
      var init, r := rows[..|rows| - 1], rows[|rows| - 1];
      assert rows == init + [r];
      SumCollapsed(init, w, a);
      SumPoured(Collapsed(init), r, w, a);
      SumLast(init, r, Keyed(w, a));
    }
  }

  lemma {:induction false} SumPointwise(a: seq<Record>, b: seq<Record>, f: Record -> int)
    requires |a| == |b| && forall i :: 0 <= i < |a| ==> f(a[i]) == f(b[i])
    ensures Sum(a, f) == Sum(b, f)
  {
    if a != [] {
      SumPointwise(a[1..], b[1..], f);
    }
  }

  lemma {:induction false} SumNumbered(rows: seq<Record>, naming: (Day, nat) -> string, w: BucketKey -> bool, a: Amount)
    ensures Sum(Numbered(rows, naming), Keyed(w, a)) == Sum(rows, Keyed(w, a))
  {
    var out := Numbered(rows, naming);
    forall i | 0 <= i < |rows|
      ensures Keyed(w, a)(out[i]) == Keyed(w, a)(rows[i])
    {
      assert KeyOf(out[i]) == KeyOf(rows[i]) && Of(out[i], a) == Of(rows[i], a);
    }
    SumPointwise(out, rows, Keyed(w, a));
  }

  /** Main result: collapsing, sorting and renumbering keep the sum of every amount over
      every selection of rows that their bucket key decides. */
  lemma {:induction false} AggregationPreservesSums(rows: seq<Record>, naming: (Day, nat) -> string, w: BucketKey -> bool, a: Amount)
    ensures Sum(Aggregated(rows, naming), Keyed(w, a)) == Sum(rows, Keyed(w, a))
  {
    SumCollapsed(rows, w, a);
    SortPermutes(Collapsed(rows), AtMost);
    SumPermuted(Sort(Collapsed(rows), AtMost), Collapsed(rows), Keyed(w, a));
    SumNumbered(Sort(Collapsed(rows), AtMost), naming, w, a);
  }

  // ---------------------------------------------------------------- distinct keys, fixed point

  predicate DistinctBuckets(rows: seq<Record>) {
    forall i, j :: 0 <= i < j < |rows| ==> KeyOf(rows[i]) != KeyOf(rows[j])
  }

  predicate HasKey(rows: seq<Record>, k: BucketKey) { exists i :: 0 <= i < |rows| && KeyOf(rows[i]) == k }

  lemma {:induction false} PouredKeys(buckets: seq<Record>, r: Record, k: BucketKey)
    requires DistinctBuckets(buckets)
    ensures DistinctBuckets(Poured(buckets, r))
    ensures HasKey(Poured(buckets, r), k) <==> HasKey(buckets, k) || k == KeyOf(r)
  {
    var after := Poured(buckets, r);
    if buckets == [] {
      assert KeyOf(after[0]) == KeyOf(r);
    } else if KeyOf(buckets[0]) == KeyOf(r) {
      assert |after| == |buckets| && forall i :: 0 <= i < |after| ==> KeyOf(after[i]) == KeyOf(buckets[i]);
    } else {
      var rest := buckets[1..];
      PouredKeys(rest, r, k);
      PouredKeys(rest, r, KeyOf(buckets[0]));
      var tail := Poured(rest, r);
      assert after == [buckets[0]] + tail;
      assert !HasKey(rest, KeyOf(buckets[0]));
      assert forall i :: 0 <= i < |tail| ==> KeyOf(tail[i]) != KeyOf(buckets[0]);
      HasKeyFirst(buckets, k);
      HasKeyFirst(after, k);
      assert after[1..] == tail;
    }
  }

  lemma {:induction false} HasKeyFirst(rows: seq<Record>, k: BucketKey)
    requires rows != []
    ensures HasKey(rows, k) <==> KeyOf(rows[0]) == k || HasKey(rows[1..], k)
  {
  }

  lemma {:induction false} CollapsedKeys(rows: seq<Record>, k: BucketKey)
    ensures DistinctBuckets(Collapsed(rows))
    ensures HasKey(Collapsed(rows), k) <==> HasKey(rows, k)
  {
    if rows != [] {
      var init, r := rows[..|rows| - 1], rows[|rows| - 1];
      CollapsedKeys(init, k);
      PouredKeys(Collapsed(init), r, k);
      if i :| 0 <= i < |rows| && KeyOf(rows[i]) == k {
        assert i < |init| ==> init[i] == rows[i];
      }
      if i :| 0 <= i < |init| && KeyOf(init[i]) == k {
        assert rows[i] == init[i];
      }
    }
  }

  lemma {:induction false} CollapsedFixed(rows: seq<Record>)
    requires DistinctBuckets(rows)
    ensures Collapsed(rows) == rows
  {
    if rows != [] {
      var init, r := rows[..|rows| - 1], rows[|rows| - 1];
      CollapsedFixed(init);
      NewKeyAppends(init, r);
    }
  }

  lemma {:induction false} NewKeyAppends(buckets: seq<Record>, r: Record)
    requires forall i :: 0 <= i < |buckets| ==> KeyOf(buckets[i]) != KeyOf(r)
    ensures Poured(buckets, r) == buckets + [r]
  {
    if buckets != [] {
      NewKeyAppends(buckets[1..], r);
    }
  }

  lemma {:induction false} DistinctSurvivesReordering(a: seq<Record>, b: seq<Record>)
    requires DistinctBuckets(a) && multiset(a) == multiset(b)
    ensures DistinctBuckets(b)
  {
    forall i, j | 0 <= i < j < |b|
      ensures KeyOf(b[i]) != KeyOf(b[j])
    {
      if KeyOf(b[i]) == KeyOf(b[j]) {
        assert b[i] in multiset(b) && b[j] in multiset(b);
        assert b[i] in a && b[j] in a;
        var p :| 0 <= p < |a| && a[p] == b[i];
        var q :| 0 <= q < |a| && a[q] == b[j];
        assert p == q;
        TwiceInMultiset(b, i, j);
        OnceInMultiset(a, p);
      }
    }
  }

  lemma {:induction false} OnceInMultiset(a: seq<Record>, p: nat)
    requires p < |a| && DistinctBuckets(a)
    ensures multiset(a)[a[p]] == 1
  {
    assert a == a[..p] + [a[p]] + a[p + 1..];
    assert a[p] !in a[..p] && a[p] !in a[p + 1..];
  }

  lemma {:induction false} NumberedKeeps(rows: seq<Record>, naming: (Day, nat) -> string, k: BucketKey)
    ensures var out := Numbered(rows, naming);
            && (DistinctBuckets(rows) ==> DistinctBuckets(out))
            && (Ordered(rows, AtMost) ==> Ordered(out, AtMost))
            && (HasKey(out, k) <==> HasKey(rows, k))
            && Numbered(out, naming) == out
  {
    var out := Numbered(rows, naming);
    assert forall i :: 0 <= i < |rows| ==> KeyOf(out[i]) == KeyOf(rows[i]);
  }

  /** Main result: no bucket appears twice, the buckets are exactly the keys of the input
      rows, the rows come out in order, and aggregating again changes nothing. */
  lemma {:induction false} AggregationIsCanonical(rows: seq<Record>, naming: (Day, nat) -> string, k: BucketKey)
    ensures var out := Aggregated(rows, naming);
            && DistinctBuckets(out) && Ordered(out, AtMost)
            && (HasKey(out, k) <==> HasKey(rows, k))
            && Aggregated(out, naming) == out
  {
    var collapsed := Collapsed(rows);
    var ordered := Sort(collapsed, AtMost);
    CollapsedKeys(rows, k);
    SortPermutes(collapsed, AtMost);
    SortIsOrdered(collapsed);
    DistinctSurvivesReordering(collapsed, ordered);
    SameKeys(collapsed, ordered, k);
    NumberedKeeps(ordered, naming, k);
    var out := Numbered(ordered, naming);
    CollapsedFixed(out);
    SortFixed(out, AtMost);
  }

  lemma {:induction false} SortIsOrdered(rows: seq<Record>)
    ensures Ordered(Sort(rows, AtMost), AtMost)
  {
    AtMostIsOrder();
    if rows != [] {
      SortIsStable(rows, rows[0], AtMost);
    }
  }

  lemma {:induction false} SameKeys(a: seq<Record>, b: seq<Record>, k: BucketKey)
    requires multiset(a) == multiset(b)
    ensures HasKey(a, k) <==> HasKey(b, k)
  {
    if i :| 0 <= i < |a| && KeyOf(a[i]) == k {
      assert a[i] in multiset(b);
      assert a[i] in b;
    }
    if i :| 0 <= i < |b| && KeyOf(b[i]) == k {
      assert b[i] in multiset(a);
      assert b[i] in a;
    }
  }

  // ---------------------------------------------------------------- order of the rows

  lemma {:induction false} RemoveMatch(x: Record, rest: seq<Record>, b: seq<Record>) returns (i: nat)
    requires multiset([x] + rest) == multiset(b)
    ensures i < |b| && b[i] == x && multiset(rest) == multiset(b[..i] + b[i + 1..])
  {
    assert x in multiset([x] + rest);
    assert x in b;
    i :| 0 <= i < |b| && b[i] == x;
    MultisetAround(b, i);
    assert multiset(rest) == multiset([x] + rest) - multiset{x};
  }

  lemma {:induction false} MultisetAround(b: seq<Record>, i: nat)
    requires i < |b|
    ensures multiset(b[..i] + b[i + 1..]) == multiset(b) - multiset{b[i]}
  {
    assert b == b[..i] + [b[i]] + b[i + 1..];
  }

  lemma {:induction false} SumAround(b: seq<Record>, i: nat, f: Record -> int)
    requires i < |b|
    ensures Sum(b, f) == f(b[i]) + Sum(b[..i] + b[i + 1..], f)
  {
    var tail := b[i + 1..];
    assert b == b[..i] + ([b[i]] + tail);
    SumAppend(b[..i], [b[i]] + tail, f);
    SumAppend(b[..i], tail, f);
    assert ([b[i]] + tail)[1..] == tail;
  }

  lemma {:induction false} SumPermuted(a: seq<Record>, b: seq<Record>, f: Record -> int)
    requires multiset(a) == multiset(b)
    ensures Sum(a, f) == Sum(b, f)
    decreases |a|
  {
    if a == [] {
      assert |multiset(b)| == |b|;
    } else {
      assert a == [a[0]] + a[1..];
      var i := RemoveMatch(a[0], a[1..], b);
      SumPermuted(a[1..], b[..i] + b[i + 1..], f);
      SumAround(b, i, f);
    }
  }

  /** Main result: whatever order the rows arrive in, every selection by bucket key, and
      so every bucket, ends with the same amounts. */
  lemma {:induction false} RowOrderDoesNotMatter(rows: seq<Record>, shuffled: seq<Record>, naming: (Day, nat) -> string,
                              w: BucketKey -> bool, a: Amount)
    requires multiset(rows) == multiset(shuffled)
    ensures Sum(Aggregated(rows, naming), Keyed(w, a)) == Sum(Aggregated(shuffled, naming), Keyed(w, a))
  {
    AggregationPreservesSums(rows, naming, w, a);
    AggregationPreservesSums(shuffled, naming, w, a);
    SumPermuted(rows, shuffled, Keyed(w, a));
  }

  // ---------------------------------------------------------------- the comparison cannot tell

  /** A grouping that looks at nothing but what bucket keys keep. */
  ghost predicate Respects(g: Grouping) {
    forall r: Record :: g.key(r) == g.key(Blank(KeyOf(r)))
  }

  lemma {:induction false} GroupingsRespectKeys(current: Period, baseline: Period, d: Dimension)
    ensures Respects(ProviderGrouping(current, baseline))
    ensures forall provider :: Respects(OwnGrouping(current, baseline, provider))
    ensures Respects(Grouping(current, baseline, (r: Record) => DimensionKey(r, d)))
  {
  }

  lemma {:induction false} PartPreserved(rows: seq<Record>, naming: (Day, nat) -> string, g: Grouping, key: string, inCurrent: bool, a: Amount)
    requires Respects(g)
    ensures Sum(Aggregated(rows, naming), Part(g, key, inCurrent, a)) == Sum(rows, Part(g, key, inCurrent, a))
  {
    var w := (k: BucketKey) =>
      g.InWindow(Blank(k)) && g.key(Blank(k)) == Some(key) && g.current.Contains(k.day) == inCurrent;
    AggregationPreservesSums(rows, naming, w, a);
    SumSame(rows, Part(g, key, inCurrent, a), Keyed(w, a));
    SumSame(Aggregated(rows, naming), Part(g, key, inCurrent, a), Keyed(w, a));
  }

  lemma {:induction false} DayPartPreserved(rows: seq<Record>, naming: (Day, nat) -> string, g: Grouping, key: string, d: Day)
    requires Respects(g)
    ensures Sum(Aggregated(rows, naming), DayPart(g, key, d)) == Sum(rows, DayPart(g, key, d))
  {
    var w := (k: BucketKey) => g.key(Blank(k)) == Some(key) && g.current.Contains(k.day) && k.day == d;
    AggregationPreservesSums(rows, naming, w, Effective);
    forall r: Record
      ensures DayPart(g, key, d)(r) == Keyed(w, Effective)(r)
    {
      assert g.key(r) == g.key(Blank(KeyOf(r)));
      assert w(KeyOf(r)) <==> g.key(r) == Some(key) && g.current.Contains(r.day) && r.day == d;
    }
    SumSame(rows, DayPart(g, key, d), Keyed(w, Effective));
    SumSame(Aggregated(rows, naming), DayPart(g, key, d), Keyed(w, Effective));
  }

  lemma {:induction false} KeyKept(r: Record, rows: seq<Record>, others: seq<Record>, w: BucketKey -> bool) returns (same: Record)
    requires r in rows && w(KeyOf(r)) && HasKey(others, KeyOf(r))
    ensures same in others && w(KeyOf(same))
  {
    var i :| 0 <= i < |others| && KeyOf(others[i]) == KeyOf(r);
    same := others[i];
  }

  lemma {:induction false} HasOwnKey(r: Record, rows: seq<Record>)
    requires r in rows
    ensures HasKey(rows, KeyOf(r))
  {
  }

  /** Some row meets a condition on keys before aggregation exactly when one does after. */
  lemma {:induction false} AggregationKeepsKeys(rows: seq<Record>, naming: (Day, nat) -> string, w: BucketKey -> bool)
    ensures (exists r :: r in Aggregated(rows, naming) && w(KeyOf(r))) <==> (exists r :: r in rows && w(KeyOf(r)))
  {
    var out := Aggregated(rows, naming);
    if r :| r in rows && w(KeyOf(r)) {
      HasOwnKey(r, rows);
      AggregationIsCanonical(rows, naming, KeyOf(r));
      var same := KeyKept(r, rows, out, w);
    }
    if r :| r in out && w(KeyOf(r)) {
      HasOwnKey(r, out);
      AggregationIsCanonical(rows, naming, KeyOf(r));
      var same := KeyKept(r, out, rows, w);
    }
  }

  lemma {:induction false} GroupExists(rows: seq<Record>, naming: (Day, nat) -> string, g: Grouping, key: string)
    requires Respects(g)
    ensures Find(GroupBy(Aggregated(rows, naming), g), key).Some? <==> Find(GroupBy(rows, g), key).Some?
  {
    var w := (k: BucketKey) => g.Lands(Blank(k)) && g.key(Blank(k)) == Some(key);
    GroupKeys(rows, g, key);
    GroupKeys(Aggregated(rows, naming), g, key);
    assert forall r: Record :: w(KeyOf(r)) <==> g.Lands(r) && g.key(r) == Some(key);
    AggregationKeepsKeys(rows, naming, w);
  }

  lemma {:induction false} DayExists(rows: seq<Record>, naming: (Day, nat) -> string, g: Grouping, key: string, d: Day)
    requires Respects(g)
    ensures d in Find(GroupBy(Aggregated(rows, naming), g), key).GetOr(Fresh(key)).daily
       <==> d in Find(GroupBy(rows, g), key).GetOr(Fresh(key)).daily
  {
    var w := (k: BucketKey) => Falls(Blank(k), g, key, d);
    GroupDays(rows, g, key, d);
    GroupDays(Aggregated(rows, naming), g, key, d);
    assert forall r: Record :: w(KeyOf(r)) <==> Falls(r, g, key, d);
    AggregationKeepsKeys(rows, naming, w);
  }

  /** Main result: grouping the aggregated rows by resource, service, region, account, tag
      or actor gives exactly the groups the raw rows give, each with the same costs,
      quantities and daily profile. */
  lemma {:induction false} AggregationPreservesGroups(rows: seq<Record>, naming: (Day, nat) -> string, g: Grouping, key: string)
    requires Respects(g)
    ensures Find(GroupBy(Aggregated(rows, naming), g), key) == Find(GroupBy(rows, g), key)
  {
    var agg := Find(GroupBy(Aggregated(rows, naming), g), key).GetOr(Fresh(key));
    var raw := Find(GroupBy(rows, g), key).GetOr(Fresh(key));
    GroupExists(rows, naming, g, key);
    SameSums(rows, naming, g, key);
    FindMeans(GroupBy(rows, g), key);
    FindMeans(GroupBy(Aggregated(rows, naming), g), key);
    forall d: Day
      ensures AlikeOn(agg, raw, d)
    {
      DayExists(rows, naming, g, key, d);
      SameDay(rows, naming, g, key, d);
    }
    SameDaily(agg, raw);
  }

  predicate AlikeOn(a: Aggregate, b: Aggregate, d: Day) {
    (d in a.daily <==> d in b.daily) && DailyOf(a, d) == DailyOf(b, d)
  }

  lemma {:induction false} SameDaily(a: Aggregate, b: Aggregate)
    requires forall d: Day :: AlikeOn(a, b, d)
    ensures a.daily == b.daily
  {
    forall d: Day
      ensures (d in a.daily <==> d in b.daily) && (d in a.daily ==> a.daily[d] == b.daily[d])
    {
      assert AlikeOn(a, b, d);
    }
  }

  lemma {:induction false} SameSums(rows: seq<Record>, naming: (Day, nat) -> string, g: Grouping, key: string)
    requires Respects(g)
    ensures var raw := Find(GroupBy(rows, g), key).GetOr(Fresh(key));
            var agg := Find(GroupBy(Aggregated(rows, naming), g), key).GetOr(Fresh(key));
            && agg.currentCost == raw.currentCost && agg.baselineCost == raw.baselineCost
            && agg.currentQuantity == raw.currentQuantity && agg.baselineQuantity == raw.baselineQuantity
  {
    GroupHoldsItsSums(rows, g, key);
    GroupHoldsItsSums(Aggregated(rows, naming), g, key);
    PartPreserved(rows, naming, g, key, true, Effective);
    PartPreserved(rows, naming, g, key, false, Effective);
    PartPreserved(rows, naming, g, key, true, Quantity);
    PartPreserved(rows, naming, g, key, false, Quantity);
  }

  lemma {:induction false} SameDay(rows: seq<Record>, naming: (Day, nat) -> string, g: Grouping, key: string, d: Day)
    requires Respects(g)
    ensures DailyOf(Find(GroupBy(Aggregated(rows, naming), g), key).GetOr(Fresh(key)), d)
         == DailyOf(Find(GroupBy(rows, g), key).GetOr(Fresh(key)), d)
  {
    GroupHoldsItsSums(rows, g, key);
    GroupHoldsItsSums(Aggregated(rows, naming), g, key);
    DayPartPreserved(rows, naming, g, key, d);
  }

  lemma {:induction false} TotalsPreserved(rows: seq<Record>, naming: (Day, nat) -> string, g: Grouping)
    requires Respects(g)
    ensures CurrentTotal(GroupBy(Aggregated(rows, naming), g)) == CurrentTotal(GroupBy(rows, g))
    ensures BaselineTotal(GroupBy(Aggregated(rows, naming), g)) == BaselineTotal(GroupBy(rows, g))
  {
    var now := (k: BucketKey) => g.Lands(Blank(k)) && g.current.Contains(k.day);
    var earlier := (k: BucketKey) => g.Lands(Blank(k)) && !g.current.Contains(k.day);
    GroupsConserveCost(rows, g);
    GroupsConserveCost(Aggregated(rows, naming), g);
    AggregationPreservesSums(rows, naming, now, Effective);
    AggregationPreservesSums(rows, naming, earlier, Effective);
    forall r: Record
      ensures InCurrent(g)(r) == Keyed(now, Effective)(r) && InBaseline(g)(r) == Keyed(earlier, Effective)(r)
    {
      assert g.key(r) == g.key(Blank(KeyOf(r)));
      assert now(KeyOf(r)) <==> g.Lands(r) && g.current.Contains(r.day);
      assert earlier(KeyOf(r)) <==> g.Lands(r) && !g.current.Contains(r.day);
    }
    SumSame(rows, InCurrent(g), Keyed(now, Effective));
    SumSame(Aggregated(rows, naming), InCurrent(g), Keyed(now, Effective));
    SumSame(rows, InBaseline(g), Keyed(earlier, Effective));
    SumSame(Aggregated(rows, naming), InBaseline(g), Keyed(earlier, Effective));
  }

  lemma {:induction false} SameMultiset(rows: seq<Record>, naming: (Day, nat) -> string, g: Grouping)
    requires Respects(g)
    ensures multiset(GroupBy(Aggregated(rows, naming), g)) == multiset(GroupBy(rows, g))
  {
    GroupKeys(rows, g, "");
    GroupKeys(Aggregated(rows, naming), g, "");
    forall key
      ensures Find(GroupBy(Aggregated(rows, naming), g), key) == Find(GroupBy(rows, g), key)
    {
      AggregationPreservesGroups(rows, naming, g, key);
    }
    SameGroups(GroupBy(Aggregated(rows, naming), g), GroupBy(rows, g));
  }

  predicate NoTies(groups: Groups, candidates: Groups) { forall a :: a in candidates ==> Untied(groups, a) }

  /** Main result: comparing the aggregated rows gives the raw rows' totals, and candidates
      that agree rank by rank in raw change; with no tie among the groups, the whole
      comparison is the same. */
  lemma {:induction false} AggregationPreservesComparison(rows: seq<Record>, naming: (Day, nat) -> string, g: Grouping, scale: real, c: Config)
    requires Respects(g)
    ensures var groups := GroupBy(rows, g);
            var raw, agg := CompareGroups(groups, scale, c), CompareGroups(GroupBy(Aggregated(rows, naming), g), scale, c);
            && agg.currentCost == raw.currentCost && agg.baselineCost == raw.baselineCost
            && agg.expectedBaseline == raw.expectedBaseline && agg.change == raw.change && agg.percent == raw.percent
            && |agg.candidates| == |raw.candidates|
            && (forall i :: 0 <= i < |raw.candidates| ==> RawChange(agg.candidates[i]) == RawChange(raw.candidates[i]))
            && (NoTies(groups, raw.candidates) ==> agg == raw)
  {
    var x, y := GroupBy(rows, g), GroupBy(Aggregated(rows, naming), g);
    var a, b := Published(x, scale, c), Published(y, scale, c);
    TotalsPreserved(rows, naming, g);
    SameMultiset(rows, naming, g);
    CandidatesAgreeUpToTies(x, y, scale, c, 0);
    forall i: nat | i < |a|
      ensures RawChange(a[i]) == RawChange(b[i]) && (Untied(x, a[i]) ==> a[i] == b[i])
    {
      CandidatesAgreeUpToTies(x, y, scale, c, i);
    }
    if NoTies(x, a) {
      assert forall i :: 0 <= i < |a| ==> a[i] in a && a[i] == b[i];
      assert a == b;
    }
  }

  /** In particular, a provider's comparison does not depend on whether its rows were
      aggregated first. */
  lemma {:induction false} ProviderComparisonPreserved(
      rows: seq<Record>, naming: (Day, nat) -> string, provider: string, current: Period, baseline: Period, c: Config)
    requires current.Valid() && baseline.Valid()
    ensures var g, scale := ProviderGrouping(current, baseline), Scale(current, baseline);
            var groups := GroupBy(OfProvider(rows, provider), g);
            var raw := CompareGroups(groups, scale, c);
            var agg := CompareGroups(GroupBy(OfProvider(Aggregated(rows, naming), provider), g), scale, c);
            && agg.currentCost == raw.currentCost && agg.baselineCost == raw.baselineCost && agg.change == raw.change
            && |agg.candidates| == |raw.candidates|
            && (forall i :: 0 <= i < |raw.candidates| ==> RawChange(agg.candidates[i]) == RawChange(raw.candidates[i]))
            && (NoTies(groups, raw.candidates) ==> agg == raw)
  {
    GroupingsRespectKeys(current, baseline, Resource);
    OwnGroups(rows, current, baseline, provider);
    OwnGroups(Aggregated(rows, naming), current, baseline, provider);
    AggregationPreservesComparison(rows, naming, OwnGrouping(current, baseline, provider), Scale(current, baseline), c);
  }
}
