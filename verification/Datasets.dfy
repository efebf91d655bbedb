/**
 What a dataset holds, what each ingest call decides about one, and the in-memory
 store that keeps them: source slots, the seal, the record and byte caps, expiry.
 */
module Datasets {
  import opened Common

  type DatasetId = string

  datatype Slot = Slot(provider: string, kind: string)

  /** One accepted upload; `content` stands for its normalized rows. */
  datatype Source = Source(slot: Slot, costRows: nat, otherRows: nat, content: int)

  datatype Dataset = Dataset(
    id: DatasetId, expiresAt: int, sealedAt: Option<int>, sources: seq<Source>, currency: Option<string>) {
    predicate Sealed() { sealedAt.Some? }
    predicate Expired(now: int) { now >= expiresAt }
  }

  datatype Upload = Upload(source: Source, currency: Option<string>)

  datatype Config = Config(maxSources: nat, maxRecords: nat, maxBytes: nat, size: Dataset -> nat)

  datatype Error =
    | Unknown | Expired | SealedAlready | TooManySources | CurrencyConflict | MissingCostSource
    | TooLarge | StoreFull

  // ---------------------------------------------------------------- one dataset

  function SourceAt(sources: seq<Source>, slot: Slot): Option<Source> {
    if sources == [] then None
    else if sources[0].slot == slot then Some(sources[0])
    else SourceAt(sources[1..], slot)
  }

  function Replaced(sources: seq<Source>, s: Source): seq<Source> {
    if sources == [] then [s]
    else if sources[0].slot == s.slot then [s] + sources[1..]
    else [sources[0]] + Replaced(sources[1..], s)
  }

  function RecordCount(sources: seq<Source>): nat {
    if sources == [] then 0 else sources[0].costRows + sources[0].otherRows + RecordCount(sources[1..])
  }

  predicate HasCost(sources: seq<Source>) {
    exists i :: 0 <= i < |sources| && sources[i].slot.kind == "cost" && sources[i].costRows > 0
  }

  predicate OnePerSlot(sources: seq<Source>) {
    forall i, j :: 0 <= i < j < |sources| ==> sources[i].slot != sources[j].slot
  }

  /** Adding a source fills its slot and no other, never duplicates a slot, and keeps
      the position of every other source. */
  lemma {:induction false} ReplacedFillsOneSlot(sources: seq<Source>, s: Source, slot: Slot)
    ensures SourceAt(Replaced(sources, s), slot) == if slot == s.slot then Some(s) else SourceAt(sources, slot)
    ensures |Replaced(sources, s)| == |sources| + (if SourceAt(sources, s.slot).Some? then 0 else 1)
    ensures forall i :: 0 <= i < |sources| ==>
              Replaced(sources, s)[i] == sources[i] ||
              (Replaced(sources, s)[i] == s && sources[i].slot == s.slot)
  {
    if sources != [] && sources[0].slot != s.slot {
      ReplacedFillsOneSlot(sources[1..], s, slot);
      assert Replaced(sources, s)[1..] == Replaced(sources[1..], s);
    } else if sources != [] {
      assert Replaced(sources, s)[1..] == sources[1..];
    }
  }

  lemma {:induction false} ReplacedKeepsOnePerSlot(sources: seq<Source>, s: Source)
    requires OnePerSlot(sources)
    ensures OnePerSlot(Replaced(sources, s))
  {
    if sources != [] && sources[0].slot != s.slot {
      var rest := sources[1..];
      ReplacedKeepsOnePerSlot(rest, s);
      ReplacedFillsOneSlot(rest, s, s.slot);
      var tail := Replaced(rest, s);
      assert Replaced(sources, s) == [sources[0]] + tail;
      forall i | 0 <= i < |tail|
        ensures tail[i].slot != sources[0].slot
      {
        if i < |rest| {
          assert rest[i] == sources[i + 1];
        } else {
          LastIsNew(rest, s);
        }
      }
    }
  }

  lemma {:induction false} LastIsNew(sources: seq<Source>, s: Source)
    requires SourceAt(sources, s.slot).None?
    ensures Replaced(sources, s) == sources + [s]
  {
    if sources != [] {
      LastIsNew(sources[1..], s);
    }
  }

  /** What an upload does to an unsealed dataset, or why it is refused. */
  function Added(d: Dataset, u: Upload, c: Config): Result<Dataset, Error> {
    if d.Sealed() then Failure(SealedAlready)
    else if SourceAt(d.sources, u.source.slot).None? && |d.sources| >= c.maxSources then Failure(TooManySources)
    else if u.currency.Some? && d.currency.Some? && u.currency != d.currency then Failure(CurrencyConflict)
    else Success(d.(sources := Replaced(d.sources, u.source),
                    currency := if u.currency.Some? then u.currency else d.currency))
  }

  lemma {:induction false} ReplacedAt(sources: seq<Source>, s: Source, at: nat)
    requires at <= |sources| && forall j :: 0 <= j < at ==> sources[j].slot != s.slot
    ensures at == |sources| ==> Replaced(sources, s) == sources + [s]
    ensures at < |sources| && sources[at].slot == s.slot ==> Replaced(sources, s) == sources[at := s]
  {
    if at > 0 {
      ReplacedAt(sources[1..], s, at - 1);
    }
  }

  /** What sealing does; a sealed dataset is returned as it is. */
  function SealedBy(d: Dataset, now: int): Result<Dataset, Error> {
    if d.Sealed() then Success(d)
    else if !HasCost(d.sources) then Failure(MissingCostSource)
    else Success(d.(sealedAt := Some(now)))
  }

  // ---------------------------------------------------------------- byte totals

  ghost function Total(sizes: map<DatasetId, nat>): nat
    decreases |sizes.Keys|
  {
    if sizes.Keys == {} then 0
    else
      var k :| k in sizes.Keys;
      var rest := sizes - {k};
      assert rest.Keys == sizes.Keys - {k};
      sizes[k] + Total(rest)
  }

  lemma {:induction false} TotalWithout(sizes: map<DatasetId, nat>, k: DatasetId)
    requires k in sizes
    ensures Total(sizes) == sizes[k] + Total(sizes - {k})
    decreases |sizes.Keys|
  {
    var l :| l in sizes.Keys && Total(sizes) == sizes[l] + Total(sizes - {l});
    if l != k {
      assert (sizes - {l}).Keys == sizes.Keys - {l} && (sizes - {k}).Keys == sizes.Keys - {k};
      TotalWithout(sizes - {l}, k);
      TotalWithout(sizes - {k}, l);
      assert sizes - {l} - {k} == sizes - {k} - {l};
    }
  }

  lemma {:induction false} TotalAfterWrite(sizes: map<DatasetId, nat>, k: DatasetId, v: nat)
    ensures Total(sizes[k := v]) == v + Total(sizes - {k})
  {
    TotalWithout(sizes[k := v], k);
    assert sizes[k := v] - {k} == sizes - {k};
  }

  /** The total is the sum in whatever order the dictionary is walked. */
  method SumExcluding(sizes: map<DatasetId, nat>, id: DatasetId) returns (total: nat)
    ensures total == Total(sizes - {id})
  {
    total := 0;
    var left := sizes - {id};
    while left.Keys != {}
      invariant left.Keys <= sizes.Keys
      invariant total + Total(left) == Total(sizes - {id})
      decreases |left.Keys|
    {
      var k :| k in left.Keys;
      TotalWithout(left, k);
      total := total + left[k];
      var before := left;
      left := left - {k};
      assert left.Keys == before.Keys - {k};
    }
  }

  // ---------------------------------------------------------------- the dataset object

  /** The working copy an ingest call mutates before it is put back. */
  class Draft {
    var sources: seq<Source>
    var currency: Option<string>
    const original: Dataset

    ghost function Contents(): Dataset
      reads this
    {
      original.(sources := sources, currency := currency)
    }

    constructor (d: Dataset)
      ensures Contents() == d && original == d
    {
      original, sources, currency := d, d.sources, d.currency;
    }

    method ReplaceSource(s: Source)
      modifies this
      ensures sources == Replaced(old(sources), s) && currency == old(currency)
    {
      var index := 0;
      while index < |sources|
        invariant 0 <= index <= |sources| && sources == old(sources) && currency == old(currency)
        invariant forall j :: 0 <= j < index ==> sources[j].slot != s.slot
      {
        if sources[index].slot == s.slot {
          ReplacedAt(sources, s, index);
          sources := sources[index := s];
          return;
        }
        index := index + 1;
      }
      ReplacedAt(sources, s, index);
      sources := sources + [s];
    }
  }

  // ---------------------------------------------------------------- what an upload's answer means

  predicate Fills(sources: seq<Source>, slot: Slot) { exists i :: 0 <= i < |sources| && sources[i].slot == slot }

  predicate BringsCost(sources: seq<Source>) {
    exists i :: 0 <= i < |sources| && sources[i].slot.kind == "cost" && sources[i].costRows > 0
  }

  /** Each refusal names its own reason: sealed; else no room for a new slot; else another
      currency than the dataset's. */
  ghost predicate Refused(r: Result<Dataset, Error>, d: Dataset, u: Upload, c: Config) {
    var full := !Fills(d.sources, u.source.slot) && |d.sources| >= c.maxSources;
    && (r == Failure(SealedAlready) <==> d.sealedAt.Some?)
    && (r == Failure(TooManySources) <==> d.sealedAt.None? && full)
    && (r == Failure(CurrencyConflict) <==>
          d.sealedAt.None? && !full && u.currency.Some? && d.currency.Some? && u.currency.value != d.currency.value)
    && (r.Success? ==> d.sealedAt.None? && !full && (u.currency.Some? && d.currency.Some? ==> u.currency == d.currency))
  }

  /** The dataset with the upload in its slot, within the caps, in the one currency either names. */
  ghost predicate Accepts(after: Dataset, d: Dataset, u: Upload, c: Config) {
    && after.id == d.id && after.expiresAt == d.expiresAt && after.sealedAt.None?
    && after.currency == (if d.currency.Some? then d.currency else u.currency)
    && u.source in after.sources && RecordCount(after.sources) <= c.maxRecords
    && (OnePerSlot(d.sources) ==> OnePerSlot(after.sources))
    && (forall s :: s in d.sources && s.slot != u.source.slot ==> s in after.sources)
    && forall s :: s in after.sources ==> s == u.source || s in d.sources
  }

  lemma {:induction false} SourceAtMeans(sources: seq<Source>, slot: Slot)
    ensures SourceAt(sources, slot).Some? <==> Fills(sources, slot)
  {
    if sources != [] {
      SourceAtMeans(sources[1..], slot);
      if i :| 0 <= i < |sources| && sources[i].slot == slot {
        assert i > 0 ==> sources[1..][i - 1] == sources[i];
      }
      if i :| 0 <= i < |sources[1..]| && sources[1..][i].slot == slot {
        assert sources[i + 1].slot == slot;
      }
    }
  }

  lemma {:induction false} ReplacedMembers(sources: seq<Source>, s: Source)
    ensures s in Replaced(sources, s)
    ensures forall x :: x in sources && x.slot != s.slot ==> x in Replaced(sources, s)
    ensures forall x :: x in Replaced(sources, s) ==> x == s || x in sources
  {
    if sources != [] {
      assert sources == [sources[0]] + sources[1..];
      if sources[0].slot != s.slot {
        ReplacedMembers(sources[1..], s);
      }
    }
  }

  /** The decision on an upload, whatever the caps say afterwards. */
  lemma {:induction false} AddedMeans(d: Dataset, u: Upload, c: Config)
    ensures Refused(Added(d, u, c), d, u, c)
    ensures Added(d, u, c).Success? && RecordCount(Added(d, u, c).value.sources) <= c.maxRecords ==> Accepts(Added(d, u, c).value, d, u, c)
  {
    SourceAtMeans(d.sources, u.source.slot);
    ReplacedMembers(d.sources, u.source);
    if OnePerSlot(d.sources) {
      ReplacedKeepsOnePerSlot(d.sources, u.source);
    }
  }

  /** A dataset's records are its sources' rows. */
  lemma {:induction false} RecordsAreRows(sources: seq<Source>, s: Source)
    ensures RecordCount([]) == 0 && RecordCount(sources + [s]) == RecordCount(sources) + s.costRows + s.otherRows
  {
    if sources == [] {
      assert [] + [s] == [s] && [s][1..] == [];
    } else {
      RecordsAreRows(sources[1..], s);
      assert (sources + [s])[1..] == sources[1..] + [s];
    }
  }

  // ---------------------------------------------------------------- the in-memory store

  /** Why a put of `d` is refused, if it is. */
  ghost function PutRefusal(c: Config, sizes: map<DatasetId, nat>, d: Dataset): Option<Error> {
    if RecordCount(d.sources) > c.maxRecords then Some(TooLarge)
    else if Total(sizes - {d.id}) + c.size(d) > c.maxBytes then Some(StoreFull)
    else None
  }

  /** The answer and the store after a decision is put back, or refused by the caps. */
  ghost function Settled(datasets: map<DatasetId, Dataset>, sizes: map<DatasetId, nat>, c: Config, id: DatasetId,
                         decided: Result<Dataset, Error>): (Result<Dataset, Error>, map<DatasetId, Dataset>)
  {
    if decided.Failure? then (decided, datasets)
    else match PutRefusal(c, sizes, decided.value)
      case Some(e) => (Failure(e), datasets)
      case None => (decided, datasets[id := decided.value])
  }

  class MemoryDatasetStore {
    const config: Config
    var datasets: map<DatasetId, Dataset>
    var sizes: map<DatasetId, nat>

    /** Every stored dataset has its byte size, and the sizes fit the cap. */
    ghost predicate Valid()
      reads this
    {
      && sizes.Keys == datasets.Keys
      && (forall id :: id in datasets ==> sizes[id] == config.size(datasets[id]) && datasets[id].id == id)
      && Total(sizes) <= config.maxBytes
    }

    constructor (c: Config)
      ensures Valid() && datasets == map[] && config == c
    {
      config, datasets, sizes := c, map[], map[];
    }

    method Forget(id: DatasetId) returns (existed: bool)
      requires Valid()
      modifies this
      ensures Valid() && datasets == old(datasets) - {id} && existed == (id in old(datasets))
    {
      existed := id in datasets;
      if existed {
        TotalWithout(sizes, id);
      } else {
        assert sizes - {id} == sizes;
      }
      sizes := sizes - {id};
      datasets := datasets - {id};
    }

    /** A fresh copy of the dataset; asking for an expired one forgets it. */
    method Get(id: DatasetId, now: int) returns (r: Result<Dataset, Error>)
      requires Valid()
      modifies this
      ensures Valid()
      ensures id !in old(datasets) ==> r == Failure(Unknown) && datasets == old(datasets)
      ensures id in old(datasets) && now >= old(datasets)[id].expiresAt ==>
                r == Failure(Expired) && datasets == old(datasets) - {id}
      ensures id in old(datasets) && now < old(datasets)[id].expiresAt ==>
                r == Success(old(datasets)[id]) && datasets == old(datasets) && sizes == old(sizes)
    {
      if id !in datasets {
        return Failure(Unknown);
      }
      if datasets[id].Expired(now) {
        var _ := Forget(id);
        return Failure(Expired);
      }
      return Success(datasets[id]);
    }

    /** Refuse before writing; otherwise replace the dataset whole. With the check and
        the write in one step the byte total never passes the cap. */
    method Put(d: Dataset) returns (r: Option<Error>)
      requires Valid()
      modifies this
      ensures Valid()
      ensures r == PutRefusal(config, old(sizes), d)
      ensures r == Some(TooLarge) <==> RecordCount(d.sources) > config.maxRecords
      ensures r == Some(StoreFull) <==>
                RecordCount(d.sources) <= config.maxRecords && Total(old(sizes) - {d.id}) + config.size(d) > config.maxBytes
      ensures r.Some? ==> datasets == old(datasets) && sizes == old(sizes)
      ensures r.None? ==> datasets == old(datasets)[d.id := d]
    {
      var size := config.size(d);
      if RecordCount(d.sources) > config.maxRecords {
        return Some(TooLarge);
      }
      var existing := SumExcluding(sizes, d.id);
      if existing + size > config.maxBytes {
        return Some(StoreFull);
      }
      TotalAfterWrite(sizes, d.id, size);
      datasets := datasets[d.id := d];
      sizes := sizes[d.id := size];
      return None;
    }

    method EvictExpired(now: int) returns (doomed: set<DatasetId>)
      requires Valid()
      modifies this
      ensures Valid()
      ensures doomed == set id | id in old(datasets) && now >= old(datasets)[id].expiresAt
      ensures datasets == old(datasets) - doomed
    {
      doomed := set id | id in datasets && datasets[id].Expired(now);
      var left := doomed;
      while left != {}
        invariant Valid() && left <= doomed
        invariant datasets == old(datasets) - (doomed - left)
      {
        var id :| id in left;
        var _ := Forget(id);
        left := left - {id};
      }
    }

    /** One upload, start to finish. */
    method AddSource(id: DatasetId, u: Upload, now: int) returns (r: Result<Dataset, Error>)
      requires Valid()
      modifies this
      ensures Valid()
      ensures id !in old(datasets) ==> r == Failure(Unknown) && datasets == old(datasets)
      ensures id in old(datasets) && old(datasets)[id].Expired(now) ==>
                r == Failure(Expired) && datasets == old(datasets) - {id}
      ensures id in old(datasets) && !old(datasets)[id].Expired(now) ==>
                (r, datasets) == Settled(old(datasets), old(sizes), config, id, Added(old(datasets)[id], u, config))
      ensures id in old(datasets) && now < old(datasets)[id].expiresAt ==>
                Refused(r, old(datasets)[id], u, config) && (r.Success? ==> Accepts(r.value, old(datasets)[id], u, config) && datasets[id] == r.value)
    {
      var got := Get(id, now);
      if got.Failure? {
        return got;
      }
      var dataset := got.value;
      AddedMeans(dataset, u, config);
      SourceAtMeans(dataset.sources, u.source.slot);
      if dataset.Sealed() {
        return Failure(SealedAlready);
      }
      var replacing := SourceAt(dataset.sources, u.source.slot).Some?;
      if !replacing && |dataset.sources| >= config.maxSources {
        return Failure(TooManySources);
      }
      if u.currency.Some? && dataset.currency.Some? && u.currency != dataset.currency {
        return Failure(CurrencyConflict);
      }
      var draft := new Draft(dataset);
      draft.ReplaceSource(u.source);
      if u.currency.Some? {
        draft.currency := u.currency;
      }
      var updated := dataset.(sources := draft.sources, currency := draft.currency);
      var refused := Put(updated);
      if refused.Some? {
        return Failure(refused.value);
      }
      return Success(updated);
    }

    method SealDataset(id: DatasetId, now: int) returns (r: Result<Dataset, Error>)
      requires Valid()
      modifies this
      ensures Valid()
      ensures id !in old(datasets) ==> r == Failure(Unknown) && datasets == old(datasets)
      ensures id in old(datasets) && old(datasets)[id].Expired(now) ==>
                r == Failure(Expired) && datasets == old(datasets) - {id}
      ensures id in old(datasets) && !old(datasets)[id].Expired(now) ==>
                if old(datasets)[id].Sealed() then r == Success(old(datasets)[id]) && datasets == old(datasets)
                else (r, datasets) == Settled(old(datasets), old(sizes), config, id, SealedBy(old(datasets)[id], now))
      ensures id in old(datasets) && now < old(datasets)[id].expiresAt && old(datasets)[id].sealedAt.None? ==>
                && (r == Failure(MissingCostSource) <==> !BringsCost(old(datasets)[id].sources))
                && (r.Success? ==> r.value == old(datasets)[id].(sealedAt := Some(now)) && datasets[id] == r.value)
    {
      var got := Get(id, now);
      if got.Failure? {
        return got;
      }
      var dataset := got.value;
      if dataset.Sealed() {
        assert old(datasets)[id := dataset] == old(datasets);
        return Success(dataset);
      }
      if !HasCost(dataset.sources) {
        return Failure(MissingCostSource);
      }
      var again := Get(id, now);
      var sealedCopy := again.value.(sealedAt := Some(now));
      var refused := Put(sealedCopy);
      if refused.Some? {
        return Failure(refused.value);
      }
      return Success(sealedCopy);
    }
  }
}
