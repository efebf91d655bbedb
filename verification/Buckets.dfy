/**
 What ingesting keeps, in the fields of the rows themselves: which rows are usable, which of
 them share a bucket, what a bucket holds, and how the buckets are ordered.
 */
module Buckets {
  import opened Common
  import opened Strings
  import opened Costs
  import opened Sorting
  import opened Ingest

  // ---------------------------------------------------------------- rows

  predicate Nameless(r: Record) { r.service == "" || r.service == "unknown" }

  predicate AllZero(r: Record) { r.billed == 0 && r.effective == 0 && r.quantity == 0 }

  /** Main result: exactly the rows with a service name and some amount are kept, each as often as it
      stands; every other row is rejected under its own number, for the first of its faults. */
  lemma {:induction false} RowsAreJudged(rows: seq<Record>, r: Record, i: nat)
    ensures multiset(Usable(rows))[r] == if Nameless(r) || AllZero(r) then 0 else multiset(rows)[r]
    ensures i < |rows| ==>
              && (Rejection(i + 1, "missing_service") in Faulty(rows) <==> Nameless(rows[i]))
              && (Rejection(i + 1, "empty_row") in Faulty(rows) <==> !Nameless(rows[i]) && AllZero(rows[i]))
  {
    UsableMeans(rows, r);
    if i < |rows| {
      FaultyMeans(rows, i);
    }
  }

  lemma {:induction false} UsableMeans(rows: seq<Record>, r: Record)
    ensures multiset(Usable(rows))[r] == if Nameless(r) || AllZero(r) then 0 else multiset(rows)[r]
  {
    if rows != [] {
      var init := rows[..|rows| - 1];
      assert rows == init + [rows[|rows| - 1]];
      UsableMeans(init, r);
    }
  }

  lemma {:induction false} FaultyMeans(rows: seq<Record>, i: nat)
    requires i < |rows|
    ensures Rejection(i + 1, "missing_service") in Faulty(rows) <==> Nameless(rows[i])
    ensures Rejection(i + 1, "empty_row") in Faulty(rows) <==> !Nameless(rows[i]) && AllZero(rows[i])
  {
    var init := rows[..|rows| - 1];
    NumbersWithin(init);
    if i < |init| {
      FaultyMeans(init, i);
    }
  }

  lemma {:induction false} NumbersWithin(rows: seq<Record>)
    ensures forall x :: x in Faulty(rows) ==> 1 <= x.row <= |rows|
  {
    if rows != [] {
      NumbersWithin(rows[..|rows| - 1]);
    }
  }

  // ---------------------------------------------------------------- buckets

  /** Rows of one day, one place, one thing and one currency, tagged alike. */
  predicate Together(a: Record, b: Record) {
    && a.provider == b.provider && a.account == b.account && a.day == b.day && a.service == b.service && a.sku == b.sku
    && a.region == b.region && a.resourceId == b.resourceId && a.chargeCategory == b.chargeCategory
    && a.currency == b.currency && a.tags == b.tags
  }

  function OfBucket(o: Record, a: Amount): Record -> int {
    (r: Record) => if Together(r, o) then Of(r, a) else 0
  }

  lemma {:induction false} SumOfOnly(rows: seq<Record>, i: nat, a: Amount)
    requires DistinctBuckets(rows) && i < |rows|
    ensures Sum(rows, Keyed((k: BucketKey) => k == KeyOf(rows[i]), a)) == Of(rows[i], a)
  {
    var w := (k: BucketKey) => k == KeyOf(rows[i]);
    SumAround(rows, i, Keyed(w, a));
    var others := rows[..i] + rows[i + 1..];
    assert forall r :: r in others ==> KeyOf(r) != KeyOf(rows[i]);
    SumOfNone(others, Keyed(w, a));
  }

  lemma {:induction false} SumOfNone(rows: seq<Record>, f: Record -> int)
    requires forall r :: r in rows ==> f(r) == 0
    ensures Sum(rows, f) == 0
  {
    if rows != [] {
      SumOfNone(rows[1..], f);
    }
  }

  /** Main result: the output has one row for every bucket of the input and no other, each with
      the sums of its bucket's rows in all three amounts. */
  lemma {:induction false} BucketsHoldTheirRows(rows: seq<Record>, naming: (Day, nat) -> string, i: nat, a: Amount)
    requires i < |Aggregated(rows, naming)|
    ensures var out := Aggregated(rows, naming);
            && (forall j :: 0 <= j < |out| && j != i ==> !Together(out[j], out[i]))
            && (exists r :: r in rows && Together(r, out[i]))
            && Of(out[i], a) == Sum(rows, OfBucket(out[i], a))
  {
    var out := Aggregated(rows, naming);
    var w := (k: BucketKey) => k == KeyOf(out[i]);
    AggregationIsCanonical(rows, naming, KeyOf(out[i]));
    HasOwnKey(out[i], out);
    var p :| 0 <= p < |rows| && KeyOf(rows[p]) == KeyOf(out[i]);
    assert Together(rows[p], out[i]);
    SumOfOnly(out, i, a);
    AggregationPreservesSums(rows, naming, w, a);
    SumSame(rows, Keyed(w, a), OfBucket(out[i], a));
  }

  lemma {:induction false} EveryRowHasABucket(rows: seq<Record>, naming: (Day, nat) -> string, r: Record)
    requires r in rows
    ensures exists o :: o in Aggregated(rows, naming) && Together(r, o)
  {
    AggregationIsCanonical(rows, naming, KeyOf(r));
    HasOwnKey(r, rows);
    var out := Aggregated(rows, naming);
    var i :| 0 <= i < |out| && KeyOf(out[i]) == KeyOf(r);
    assert Together(r, out[i]);
  }

  /** What a row is sorted by last: its resource, or a stand-in for its service. */
  function LastKey(r: Record): string {
    if r.resourceId.Some? && r.resourceId.value != "" then r.resourceId.value else r.service + "::untagged-aggregate"
  }

  predicate NotAfter(a: Record, b: Record) {
    || a.day < b.day
    || (a.day == b.day && a.service != b.service && StringAtMost(a.service, b.service))
    || (a.day == b.day && a.service == b.service && StringAtMost(LastKey(a), LastKey(b)))
  }

  /** Rows come out by day, then by service, then by resource, and are numbered in that order. */
  lemma {:induction false} BucketsAreOrdered(rows: seq<Record>, naming: (Day, nat) -> string, i: nat, j: nat)
    requires i < j < |Aggregated(rows, naming)|
    ensures var out := Aggregated(rows, naming); NotAfter(out[i], out[j]) && out[i].recordId == naming(out[i].day, i)
  {
    AggregationIsCanonical(rows, naming, KeyOf(Aggregated(rows, naming)[i]));
    assert AtMost(Aggregated(rows, naming)[i], Aggregated(rows, naming)[j]);
  }

  // ---------------------------------------------------------------- what a bucket is called

  /** The first discount id and resource name that the bucket's rows give, or the last row's blanks. */
  function Labels(rows: seq<Record>, o: Record): (Option<string>, Option<string>) {
    if rows == [] then (None, None)
    else
      var (discount, name) := Labels(rows[..|rows| - 1], o);
      var r := rows[|rows| - 1];
      if !Together(r, o) then (discount, name)
      else (if Present(discount) then discount else r.discountId, if Present(name) then name else r.resourceName)
  }

  predicate Labelled(o: Record, rows: seq<Record>) { (o.discountId, o.resourceName) == Labels(rows, o) }

  lemma {:induction false} LabelsByKey(rows: seq<Record>, a: Record, b: Record)
    requires Together(a, b)
    ensures Labels(rows, a) == Labels(rows, b)
  {
    if rows != [] {
      LabelsByKey(rows[..|rows| - 1], a, b);
    }
  }

  lemma {:induction false} NoLabels(rows: seq<Record>, o: Record)
    requires !HasKey(rows, KeyOf(o))
    ensures Labels(rows, o) == (None, None)
  {
    if rows != [] {
      var init := rows[..|rows| - 1];
      assert !HasKey(init, KeyOf(o)) by {
        assert forall i :: 0 <= i < |init| ==> init[i] == rows[i];
      }
      NoLabels(init, o);
      assert KeyOf(rows[|rows| - 1]) != KeyOf(o);
    }
  }

  lemma {:induction false} PouredMeans(buckets: seq<Record>, r: Record, o: Record)
    requires DistinctBuckets(buckets) && o in Poured(buckets, r)
    ensures KeyOf(o) != KeyOf(r) ==> o in buckets
    ensures KeyOf(o) == KeyOf(r) && !HasKey(buckets, KeyOf(r)) ==> o == r
    ensures KeyOf(o) == KeyOf(r) && HasKey(buckets, KeyOf(r)) ==> exists b :: b in buckets && KeyOf(b) == KeyOf(r) && o == Merged(b, r)
  {
    if buckets != [] {
      var rest := buckets[1..];
      assert buckets == [buckets[0]] + rest;
      HasKeyFirst(buckets, KeyOf(r));
      if KeyOf(buckets[0]) == KeyOf(r) {
        assert forall b :: b in rest ==> KeyOf(b) != KeyOf(r);
      } else if o in Poured(rest, r) {
        PouredMeans(rest, r, o);
      }
    }
  }

  lemma {:induction false} CollapsedAreLabelled(rows: seq<Record>, o: Record)
    requires o in Collapsed(rows)
    ensures Labelled(o, rows)
  {
    var init, r := rows[..|rows| - 1], rows[|rows| - 1];
    CollapsedKeys(init, KeyOf(r));
    PouredMeans(Collapsed(init), r, o);
    if KeyOf(o) != KeyOf(r) {
      CollapsedAreLabelled(init, o);
    } else if HasKey(Collapsed(init), KeyOf(r)) {
      var b :| b in Collapsed(init) && KeyOf(b) == KeyOf(r) && o == Merged(b, r);
      CollapsedAreLabelled(init, b);
      LabelsByKey(init, b, o);
    } else {
      NoLabels(init, o);
    }
  }

  /** A bucket carries the first discount id and the first resource name its rows give. */
  lemma {:induction false} BucketsAreLabelled(rows: seq<Record>, naming: (Day, nat) -> string, i: nat)
    requires i < |Aggregated(rows, naming)|
    ensures Labelled(Aggregated(rows, naming)[i], rows)
  {
    var sorted, o := Sort(Collapsed(rows), AtMost), Aggregated(rows, naming)[i];
    SortPermutes(Collapsed(rows), AtMost);
    assert sorted[i] in multiset(sorted);
    assert sorted[i] in multiset(Collapsed(rows));
    CollapsedAreLabelled(rows, sorted[i]);
    LabelsByKey(rows, sorted[i], o);
  }
}
