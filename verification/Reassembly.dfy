/** Reassembly of chunked transfers on the reader thread, with stale-transfer eviction and a cap. */
module Reassembly {
  import opened Order
  import opened Protocol

  const MAX_INCOMPLETE_TRANSFERS := 64
  const U32_VALUES := 0x1_0000_0000

  type u32 = n: int | 0 <= n < U32_VALUES

  /** Only these series are ever sent in chunks. */
  type BulkSeries = s: Series | !s.HealthEvents? && !s.SignalEvents? witness Snapshots("")

  datatype Chunk = Chunk(series: BulkSeries, transfer: int, index: u32, count: u32, items: seq<Item>)

  datatype Assembly = Assembly(series: BulkSeries, count: u32, parts: map<int, seq<Item>>)

  type Transfers = map<int, Assembly>

  /** Stale-transfer key. Samples and rollups of one signal share it. */
  function EvictionKey(s: BulkSeries): (string, string) {
    match s
    case Snapshots(env) => (env, "")
    case Samples(env, signal) => (env, signal)
    case Rollups(env, signal) => (env, signal)
  }

  predicate SameKind(s: Series, t: Series) {
    (s.Snapshots? && t.Snapshots?) || (s.Samples? && t.Samples?) || (s.Rollups? && t.Rollups?)
  }

  function SignalOf(s: BulkSeries): string { if s.Snapshots? then "" else s.signal }

  /** Transfers evict each other exactly within one environment and signal; snapshots count as the nameless signal. */
  lemma EvictionKeysAgreeIff(s: BulkSeries, t: BulkSeries)
    ensures EvictionKey(s) == EvictionKey(t) <==> s.env == t.env && SignalOf(s) == SignalOf(t)
  {}

  // ----- what one chunk does -----

  function Above(ids: set<int>, id: int): set<int> { set j | j in ids && j > id }

  /** The cap keeps the transfers with the largest ids. */
  function Capped(t: Transfers): Transfers {
    map id | id in t && |Above(t.Keys, id)| < MAX_INCOMPLETE_TRANSFERS :: t[id]
  }

  function WithoutSeries(t: Transfers, key: (string, string)): Transfers {
    map id | id in t && EvictionKey(t[id].series) != key :: t[id]
  }

  function Opened(t: Transfers, c: Chunk): Transfers {
    if c.transfer in t then t
    else Capped(WithoutSeries(t, EvictionKey(c.series))[c.transfer := Assembly(c.series, c.count, map[])])
  }

  /** A chunk is stored only when its kind is the kind the transfer was opened with. */
  function Stored(t: Transfers, c: Chunk): Transfers {
    if c.transfer in t && SameKind(t[c.transfer].series, c.series)
    then t[c.transfer := t[c.transfer].(parts := t[c.transfer].parts[c.index := c.items])]
    else t
  }

  /** The part count is compared after truncation to 32 bits. */
  predicate Complete(a: Assembly) { |a.parts| % U32_VALUES == a.count }

  /** The parts with the given indices, by ascending index. */
  ghost function FlattenSome(parts: map<int, seq<Item>>, indices: set<int>): seq<Item>
    requires indices <= parts.Keys
    decreases |indices|
  {
    if indices == {} then []
    else
      var first := LeastInt(indices);
      parts[first] + FlattenSome(parts, indices - {first})
  }

  ghost function Flatten(parts: map<int, seq<Item>>): seq<Item> {
    FlattenSome(parts, parts.Keys)
  }

  ghost function Whole(a: Assembly): Message {
    SeriesUpdated(a.series, Flatten(a.parts))
  }

  predicate Finishes(o: Transfers, c: Chunk) {
    var t := Stored(o, c);
    c.transfer in t && Complete(t[c.transfer])
  }

  /** Storing a part forgets the transfer if that completes it... */
  function Settled(o: Transfers, c: Chunk): Transfers {
    if Finishes(o, c) then Stored(o, c) - {c.transfer} else Stored(o, c)
  }

  /** ...and hands over the whole message. */
  ghost function Delivered(o: Transfers, c: Chunk): Option<Message> {
    if Finishes(o, c) then Some(Whole(Stored(o, c)[c.transfer])) else None
  }

  function Ingest(t: Transfers, c: Chunk): Transfers {
    Settled(Opened(t, c), c)
  }

  /** The map after the first `k` chunks of a run. */
  ghost function Run(t: Transfers, chunks: seq<Chunk>, k: nat): Transfers
    requires k <= |chunks|
  {
    if k == 0 then t else Ingest(Run(t, chunks, k - 1), chunks[k - 1])
  }

  /** What chunk `k` of the run makes the reader forward. */
  ghost function Emitted(t: Transfers, chunks: seq<Chunk>, k: nat): Option<Message>
    requires k < |chunks|
  {
    Delivered(Opened(Run(t, chunks, k), chunks[k]), chunks[k])
  }

  /** A chunk of a known transfer but of another kind than it was opened with is ignored. */
  lemma OtherKindIsIgnored(t: Transfers, c: Chunk)
    requires c.transfer in t && !Complete(t[c.transfer])
    requires
      !((t[c.transfer].series.Snapshots? && c.series.Snapshots?) || (t[c.transfer].series.Samples? && c.series.Samples?)
        || (t[c.transfer].series.Rollups? && c.series.Rollups?))
    ensures Ingest(t, c) == t && Delivered(Opened(t, c), c) == None
  {}

  // ----- map invariant, for every chunk sequence -----

  predicate Incomplete(a: Assembly) {
    1 <= |a.parts| < (if a.count == 0 then U32_VALUES else a.count)
  }

  ghost predicate OnePerSeries(t: Transfers) {
    forall i, j :: i in t && j in t && i != j ==> EvictionKey(t[i].series) != EvictionKey(t[j].series)
  }

  ghost predicate WellFormed(t: Transfers) {
    && |t| <= MAX_INCOMPLETE_TRANSFERS
    && OnePerSeries(t)
    && forall i :: i in t ==> Incomplete(t[i])
  }

  lemma IncompleteIsNotComplete(a: Assembly)
    requires Incomplete(a)
    ensures !Complete(a)
  {
    assert |a.parts| % U32_VALUES == |a.parts|;
  }

  lemma SubsetSize(a: set<int>, b: set<int>)
    requires a <= b
    ensures |a| <= |b|
  {
    assert b == a + (b - a);
  }

  /** Popping the smallest id of an oversized map does not change what the cap keeps. */
  lemma PopKeepsCapped(t: Transfers, first: int)
    requires |t| > MAX_INCOMPLETE_TRANSFERS
    requires first in t && forall j :: j in t ==> first <= j
    ensures Capped(t - {first}) == Capped(t)
  {
    var s := t - {first};
    assert s.Keys == t.Keys - {first};
    assert Above(t.Keys, first) == t.Keys - {first};
    assert |t.Keys| == |t|;
    forall id | id in s ensures Above(s.Keys, id) == Above(t.Keys, id) {}
  }

  lemma SmallIsCapped(t: Transfers)
    requires |t| <= MAX_INCOMPLETE_TRANSFERS
    ensures Capped(t) == t
  {
    assert |t.Keys| == |t|;
    forall id | id in t ensures |Above(t.Keys, id)| < MAX_INCOMPLETE_TRANSFERS {
      SubsetSize(Above(t.Keys, id), t.Keys - {id});
    }
  }

  lemma {:induction false} CappedSize(t: Transfers)
    ensures |Capped(t)| <= MAX_INCOMPLETE_TRANSFERS
    decreases |t|
  {
    if |t| <= MAX_INCOMPLETE_TRANSFERS {
      SmallIsCapped(t);
    } else {
      assert |t.Keys| == |t|;
      var first := LeastInt(t.Keys);
      PopKeepsCapped(t, first);
      assert (t - {first}).Keys == t.Keys - {first};
      CappedSize(t - {first});
    }
  }

  lemma StoredSize(parts: map<int, seq<Item>>, index: int, items: seq<Item>)
    ensures 1 <= |parts[index := items]| <= |parts| + 1
  {
    var after := parts[index := items];
    assert after.Keys == parts.Keys + {index};
    if index in parts { assert parts.Keys + {index} == parts.Keys; }
  }

  /** The map between opening a transfer and storing its part. */
  ghost predicate Open(t: Transfers, newest: int) {
    && |t| <= MAX_INCOMPLETE_TRANSFERS
    && OnePerSeries(t)
    && forall i :: i in t ==> Incomplete(t[i]) || (i == newest && t[i].parts == map[])
  }

  lemma OpenedIsOpen(t: Transfers, c: Chunk)
    requires WellFormed(t)
    ensures Open(Opened(t, c), c.transfer)
    ensures c.transfer in Opened(t, c) && Opened(t, c)[c.transfer].parts == map[]
      ==> SameKind(Opened(t, c)[c.transfer].series, c.series)
  {
    if c.transfer !in t {
      var kept := WithoutSeries(t, EvictionKey(c.series));
      var raw := kept[c.transfer := Assembly(c.series, c.count, map[])];
      assert OnePerSeries(raw);
      CappedSize(raw);
    }
  }

  lemma StoredKeeps(o: Transfers, c: Chunk)
    requires Open(o, c.transfer)
    requires c.transfer in o && o[c.transfer].parts == map[] ==> SameKind(o[c.transfer].series, c.series)
    ensures var t := Stored(o, c);
      && t.Keys == o.Keys && OnePerSeries(t)
      && (forall i :: i in t && i != c.transfer ==> Incomplete(t[i]))
      && (c.transfer in t && !Complete(t[c.transfer]) ==> Incomplete(t[c.transfer]))
  {
    var t := Stored(o, c);
    assert t.Keys == o.Keys;
    forall i | i in t ensures EvictionKey(t[i].series) == EvictionKey(o[i].series) {}
    if c.transfer in o && SameKind(o[c.transfer].series, c.series) {
      StoredSize(o[c.transfer].parts, c.index, c.items);
    }
  }

  lemma {:induction false} IngestKeepsWellFormed(t: Transfers, c: Chunk)
    requires WellFormed(t)
    ensures WellFormed(Ingest(t, c))
  {
    OpenedIsOpen(t, c);
    var o := Opened(t, c);
    StoredKeeps(o, c);
    var t' := Stored(o, c);
    assert |t'| == |t'.Keys| == |o.Keys| == |o|;
    var rest := t' - {c.transfer};
    assert rest.Keys == t'.Keys - {c.transfer};
    assert |rest| == |rest.Keys| <= |t'.Keys|;
  }

  /** However malformed the chunks are, the map stays bounded, one entry per series, none complete. */
  lemma {:induction false} RunKeepsWellFormed(chunks: seq<Chunk>, k: nat)
    requires k <= |chunks|
    ensures WellFormed(Run(map[], chunks, k))
    ensures forall i :: i in Run(map[], chunks, k) ==> !Complete(Run(map[], chunks, k)[i])
  {
    if k > 0 {
      RunKeepsWellFormed(chunks, k - 1);
      IngestKeepsWellFormed(Run(map[], chunks, k - 1), chunks[k - 1]);
    }
    hide Ingest;
    forall i | i in Run(map[], chunks, k) ensures !Complete(Run(map[], chunks, k)[i]) {
      IncompleteIsNotComplete(Run(map[], chunks, k)[i]);
    }
  }

  // ----- an undisturbed transfer is delivered whole, in index order, exactly once -----

  function Concatenated(payload: seq<seq<Item>>): seq<Item> {
    if payload == [] then [] else payload[0] + Concatenated(payload[1..])
  }

  /** The indices of transfer `id` among the first `k` chunks. */
  function Arrived(chunks: seq<Chunk>, id: int, k: nat): set<int>
    requires k <= |chunks|
  {
    if k == 0 then {}
    else Arrived(chunks, id, k - 1) + if chunks[k - 1].transfer == id then {chunks[k - 1].index} else {}
  }

  /** The sender of transfer `id` uses each index at most once and cuts `payload` into chunks. */
  ghost predicate Sends(chunks: seq<Chunk>, id: int, series: BulkSeries, payload: seq<seq<Item>>) {
    && (forall k :: 0 <= k < |chunks| && chunks[k].transfer == id ==>
         && chunks[k].series == series
         && chunks[k].count == |payload|
         && chunks[k].index < |payload|
         && chunks[k].items == payload[chunks[k].index])
    && (forall j, k :: 0 <= j < k < |chunks| && chunks[j].transfer == id && chunks[k].transfer == id
         ==> chunks[j].index != chunks[k].index)
  }

  ghost predicate UndisturbedAt(t: Transfers, chunks: seq<Chunk>, id: int, k: nat)
    requires k < |chunks|
  {
    && id in Opened(Run(t, chunks, k), chunks[k])
    && (Arrived(chunks, id, k) != {} ==> id in Run(t, chunks, k))
  }

  /** Whenever a chunk of `id` is handled, the transfer it belongs to is still in the map. */
  ghost predicate Undisturbed(t: Transfers, chunks: seq<Chunk>, id: int) {
    forall k {:trigger UndisturbedAt(t, chunks, id, k)} ::
      0 <= k < |chunks| && chunks[k].transfer == id ==> UndisturbedAt(t, chunks, id, k)
  }

  function Received(payload: seq<seq<Item>>, indices: set<int>): map<int, seq<Item>>
    requires forall i :: i in indices ==> 0 <= i < |payload|
  {
    map i | i in indices :: payload[i]
  }

  function Below(n: nat): (s: set<int>)
    ensures forall i :: i in s <==> 0 <= i < n
  {
    if n == 0 then {} else Below(n - 1) + {n - 1}
  }

  lemma {:induction false} BelowSize(n: nat)
    ensures |Below(n)| == n
  {
    if n > 0 {
      BelowSize(n - 1);
      assert Below(n) == Below(n - 1) + {n - 1};
    }
  }

  /** As many distinct indices below `n` as `n` means all of them. */
  lemma Pigeonhole(s: set<int>, n: nat)
    requires s <= Below(n)
    ensures |s| <= n && (|s| == n ==> s == Below(n))
  {
    BelowSize(n);
    var rest := Below(n) - s;
    assert Below(n) == s + rest;
    assert |s| + |rest| == n;
  }

  lemma {:induction false} FlattenFrom(payload: seq<seq<Item>>, k: nat)
    requires k <= |payload|
    ensures FlattenSome(Received(payload, Below(|payload|)), Below(|payload|) - Below(k)) == Concatenated(payload[k..])
    decreases |payload| - k
  {
    var rest := Below(|payload|) - Below(k);
    if k < |payload| {
      assert k in rest && LeastInt(rest) == k;
      assert rest - {k} == Below(|payload|) - Below(k + 1);
      FlattenFrom(payload, k + 1);
      assert payload[k..][1..] == payload[k + 1..];
    }
  }

  lemma {:induction false} FlattenIsConcatenated(payload: seq<seq<Item>>)
    ensures Flatten(Received(payload, Below(|payload|))) == Concatenated(payload)
  {
    assert Received(payload, Below(|payload|)).Keys == Below(|payload|);
    FlattenFrom(payload, 0);
    assert Below(|payload|) - Below(0) == Below(|payload|);
    assert payload[0..] == payload;
  }

  lemma OtherChunkOnlyEvicts(t: Transfers, c: Chunk, id: int)
    requires c.transfer != id
    ensures id in Ingest(t, c) ==> id in t && Ingest(t, c)[id] == t[id]
  {
    if c.transfer !in t {
    }
  }

  /** State of transfer `id` once the indices `got` have arrived. */
  ghost predicate Holds(t: Transfers, id: int, series: BulkSeries, payload: seq<seq<Item>>, got: set<int>) {
    && got <= Below(|payload|) && |payload| < U32_VALUES
    && if got == {} || |got| == |payload| then id !in t
       else id in t ==> t[id] == Assembly(series, |payload|, Received(payload, got))
  }

  lemma OwnChunkOpens(t: Transfers, c: Chunk, payload: seq<seq<Item>>, got: set<int>)
    requires Holds(t, c.transfer, c.series, payload, got)
    requires c.transfer in Opened(t, c) && (got != {} ==> c.transfer in t)
    requires c.count == |payload|
    ensures got != {} ==> |got| != |payload|
    ensures Opened(t, c)[c.transfer] == Assembly(c.series, c.count, Received(payload, got))
  {
    if got == {} {
      assert Received(payload, got) == map[];
    }
  }

  lemma ReceivedSize(payload: seq<seq<Item>>, got: set<int>)
    requires got <= Below(|payload|)
    ensures |Received(payload, got)| == |got|
  {
    var parts := Received(payload, got);
    assert parts.Keys == got;
    assert |parts| == |parts.Keys|;
  }

  lemma CompleteByCount(a: Assembly)
    requires 0 < |a.parts| <= a.count
    ensures Complete(a) <==> |a.parts| == a.count
  {
    assert |a.parts| % U32_VALUES == |a.parts|;
  }

  lemma {:induction false} WholeWhenAllReceived(series: BulkSeries, payload: seq<seq<Item>>, got: set<int>)
    requires got != {} && got <= Below(|payload|) && |payload| < U32_VALUES
    ensures Complete(Assembly(series, |payload|, Received(payload, got))) <==> |got| == |payload|
    ensures |got| == |payload| ==>
      Whole(Assembly(series, |payload|, Received(payload, got))) == SeriesUpdated(series, Concatenated(payload))
  {
    Pigeonhole(got, |payload|);
    ReceivedSize(payload, got);
    CompleteByCount(Assembly(series, |payload|, Received(payload, got)));
    if |got| == |payload| {
      FlattenIsConcatenated(payload);
    }
  }

  lemma {:induction false} OwnChunkSettles(o: Transfers, c: Chunk, payload: seq<seq<Item>>, got: set<int>)
    requires got <= Below(|payload|) && c.count == |payload| && c.index < |payload|
    requires c.items == payload[c.index] && c.index !in got
    requires c.transfer in o && o[c.transfer] == Assembly(c.series, c.count, Received(payload, got))
    ensures Holds(Settled(o, c), c.transfer, c.series, payload, got + {c.index})
    ensures |got + {c.index}| != |payload| ==> c.transfer in Settled(o, c)
    ensures Delivered(o, c) ==
      if |got + {c.index}| == |payload| then Some(SeriesUpdated(c.series, Concatenated(payload))) else None
  {
    hide Complete, Whole, Concatenated;
    var now := got + {c.index};
    Pigeonhole(now, |payload|);
    assert c.index in now;
    assert Received(payload, got)[c.index := c.items] == Received(payload, now);
    var a := Assembly(c.series, c.count, Received(payload, now));
    assert Stored(o, c) == o[c.transfer := a];
    WholeWhenAllReceived(c.series, payload, now);
  }

  lemma {:induction false} OwnChunk(t: Transfers, c: Chunk, payload: seq<seq<Item>>, got: set<int>)
    requires Holds(t, c.transfer, c.series, payload, got)
    requires c.transfer in Opened(t, c) && (got != {} ==> c.transfer in t)
    requires c.count == |payload| && c.index < |payload|
    requires c.items == payload[c.index] && c.index !in got
    ensures Holds(Ingest(t, c), c.transfer, c.series, payload, got + {c.index})
    ensures |got + {c.index}| != |payload| ==> c.transfer in Ingest(t, c)
    ensures Delivered(Opened(t, c), c) ==
      if |got + {c.index}| == |payload| then Some(SeriesUpdated(c.series, Concatenated(payload))) else None
  {
    OwnChunkOpens(t, c, payload, got);
    OwnChunkSettles(Opened(t, c), c, payload, got);
  }

  lemma {:induction false} ArrivedFrom(chunks: seq<Chunk>, k: nat, id: int, index: int)
    requires k <= |chunks| && index in Arrived(chunks, id, k)
    ensures exists j :: 0 <= j < k && chunks[j].transfer == id && chunks[j].index == index
  {
    if k > 0 && index in Arrived(chunks, id, k - 1) {
      ArrivedFrom(chunks, k - 1, id, index);
    } else {
      assert chunks[k - 1].transfer == id && chunks[k - 1].index == index;
    }
  }

  lemma IndexIsNew(chunks: seq<Chunk>, id: int, series: BulkSeries, payload: seq<seq<Item>>, k: nat)
    requires Sends(chunks, id, series, payload)
    requires k < |chunks| && chunks[k].transfer == id
    ensures chunks[k].index !in Arrived(chunks, id, k)
  {
    if chunks[k].index in Arrived(chunks, id, k) {
      ArrivedFrom(chunks, k, id, chunks[k].index);
      assert false;
    }
  }

  lemma {:induction false} Progress(t: Transfers, chunks: seq<Chunk>, id: int, series: BulkSeries,
                                    payload: seq<seq<Item>>, k: nat)
    requires id !in t && |payload| < U32_VALUES
    requires Sends(chunks, id, series, payload) && Undisturbed(t, chunks, id)
    requires k <= |chunks|
    ensures Holds(Run(t, chunks, k), id, series, payload, Arrived(chunks, id, k))
  {
    hide Ingest;
    if k > 0 {
      var c, before, got := chunks[k - 1], Run(t, chunks, k - 1), Arrived(chunks, id, k - 1);
      Progress(t, chunks, id, series, payload, k - 1);
      if c.transfer == id {
        assert UndisturbedAt(t, chunks, id, k - 1);
        IndexIsNew(chunks, id, series, payload, k - 1);
        OwnChunk(before, c, payload, got);
      } else {
        OtherChunkOnlyEvicts(before, c, id);
        assert Arrived(chunks, id, k) == got;
      }
    }
  }

  /** Whatever the interleaving, only the chunk that completes the index set delivers, and it delivers all. */
  lemma {:induction false} DeliveredOnLastMissingChunk(t: Transfers, chunks: seq<Chunk>, id: int, series: BulkSeries,
                                    payload: seq<seq<Item>>, k: nat)
    requires id !in t && |payload| < U32_VALUES
    requires Sends(chunks, id, series, payload) && Undisturbed(t, chunks, id)
    requires k < |chunks| && chunks[k].transfer == id
    ensures Emitted(t, chunks, k) ==
      if Arrived(chunks, id, k + 1) == Below(|payload|)
      then Some(SeriesUpdated(series, Concatenated(payload))) else None
  {
    Progress(t, chunks, id, series, payload, k);
    assert UndisturbedAt(t, chunks, id, k);
    var got := Arrived(chunks, id, k);
    IndexIsNew(chunks, id, series, payload, k);
    OwnChunk(Run(t, chunks, k), chunks[k], payload, got);
    Pigeonhole(got + {chunks[k].index}, |payload|);
    BelowSize(|payload|);
  }

  lemma {:induction false} LastMissingChunkExists(
    chunks: seq<Chunk>, id: int, all: set<int>, k: nat) returns (last: nat)
    requires k <= |chunks| && all != {} && Arrived(chunks, id, k) == all
    ensures last < k && chunks[last].transfer == id
    ensures Arrived(chunks, id, last) != all && Arrived(chunks, id, last + 1) == all
  {
    if Arrived(chunks, id, k - 1) == all {
      last := LastMissingChunkExists(chunks, id, all, k - 1);
    } else {
      last := k - 1;
    }
  }

  lemma {:induction false} ArrivedMonotone(chunks: seq<Chunk>, i: nat, j: nat, id: int)
    requires i <= j <= |chunks|
    ensures Arrived(chunks, id, i) <= Arrived(chunks, id, j)
  {
    if i < j {
      ArrivedMonotone(chunks, i, j - 1, id);
    }
  }

  lemma NoneAfterAll(t: Transfers, chunks: seq<Chunk>, id: int, series: BulkSeries,
                     payload: seq<seq<Item>>, k: nat)
    requires Sends(chunks, id, series, payload)
    requires k < |chunks| && Arrived(chunks, id, k) >= Below(|payload|)
    ensures chunks[k].transfer != id
  {
    if chunks[k].transfer == id {
      ArrivedFrom(chunks, k, id, chunks[k].index);
      assert false;
    }
  }

  lemma NotYetArrived(chunks: seq<Chunk>, id: int, series: BulkSeries, payload: seq<seq<Item>>, k: nat, last: nat)
    requires Sends(chunks, id, series, payload)
    requires k < last < |chunks| && chunks[last].transfer == id
    ensures chunks[last].index !in Arrived(chunks, id, k + 1)
  {
    ArrivedMonotone(chunks, k + 1, last, id);
    IndexIsNew(chunks, id, series, payload, last);
  }

  lemma {:induction false} OtherChunksDeliverNothing(t: Transfers, chunks: seq<Chunk>, id: int, series: BulkSeries,
                                  payload: seq<seq<Item>>, last: nat, k: nat)
    requires id !in t && |payload| < U32_VALUES
    requires Sends(chunks, id, series, payload) && Undisturbed(t, chunks, id)
    requires last < |chunks| && chunks[last].transfer == id && Arrived(chunks, id, last + 1) == Below(|payload|)
    requires k < |chunks| && chunks[k].transfer == id && k != last
    ensures Emitted(t, chunks, k) == None
  {
    hide Emitted, Run, Undisturbed;
    DeliveredOnLastMissingChunk(t, chunks, id, series, payload, k);
    if k > last {
      ArrivedMonotone(chunks, last + 1, k, id);
      NoneAfterAll(t, chunks, id, series, payload, k);
    } else {
      NotYetArrived(chunks, id, series, payload, k, last);
    }
  }

  /** Main result: a complete undisturbed transfer makes exactly one of its chunks deliver the whole message. */
  lemma {:induction false} DeliveredExactlyOnce(t: Transfers, chunks: seq<Chunk>, id: int, series: BulkSeries,
                             payload: seq<seq<Item>>) returns (last: nat)
    requires id !in t && 0 < |payload| < U32_VALUES
    requires Sends(chunks, id, series, payload) && Undisturbed(t, chunks, id)
    requires Arrived(chunks, id, |chunks|) == Below(|payload|)
    ensures last < |chunks| && chunks[last].transfer == id
    ensures Emitted(t, chunks, last) == Some(SeriesUpdated(series, Concatenated(payload)))
    ensures forall k :: 0 <= k < |chunks| && chunks[k].transfer == id && k != last ==> Emitted(t, chunks, k) == None
    ensures id !in Run(t, chunks, |chunks|)
  {
    hide Emitted, Run, Undisturbed, Sends;
    var all := Below(|payload|);
    assert 0 in all;
    last := LastMissingChunkExists(chunks, id, all, |chunks|);
    DeliveredOnLastMissingChunk(t, chunks, id, series, payload, last);
    forall k | 0 <= k < |chunks| && chunks[k].transfer == id && k != last
      ensures Emitted(t, chunks, k) == None
    {
      OtherChunksDeliverNothing(t, chunks, id, series, payload, last, k);
    }
    Progress(t, chunks, id, series, payload, |chunks|);
    BelowSize(|payload|);
  }

  // ----- when a transfer is undisturbed -----

  function Transferred(t: Transfers, chunks: seq<Chunk>): set<int> {
    t.Keys + set c | c in chunks :: c.transfer
  }

  ghost predicate QuietAt(t: Transfers, chunks: seq<Chunk>, id: int, series: BulkSeries, k: nat)
    requires k < |chunks|
  {
    chunks[k].transfer != id && chunks[k].transfer !in Run(t, chunks, k) ==>
      EvictionKey(chunks[k].series) != EvictionKey(series)
  }

  /** No other chunk opens a transfer of the same series, and fewer transfers than the cap have a larger id. */
  ghost predicate Quiet(t: Transfers, chunks: seq<Chunk>, id: int, series: BulkSeries) {
    && (forall k {:trigger QuietAt(t, chunks, id, series, k)} ::
          0 <= k < |chunks| ==> QuietAt(t, chunks, id, series, k))
    && |Above(Transferred(t, chunks), id)| < MAX_INCOMPLETE_TRANSFERS
  }

  lemma IngestIds(t: Transfers, c: Chunk, id: int)
    requires id in Ingest(t, c)
    ensures id in t || id == c.transfer
  {
    if c.transfer !in t {
    }
  }

  lemma {:induction false} RunIds(t: Transfers, chunks: seq<Chunk>, k: nat, id: int)
    requires k <= |chunks| && id in Run(t, chunks, k)
    ensures id in Transferred(t, chunks)
  {
    hide Ingest;
    if k > 0 {
      IngestIds(Run(t, chunks, k - 1), chunks[k - 1], id);
      if id in Run(t, chunks, k - 1) {
        RunIds(t, chunks, k - 1, id);
      } else {
        assert chunks[k - 1] in chunks;
      }
    }
  }

  lemma OpenerSurvives(t: Transfers, c: Chunk, id: int)
    requires c.transfer == id || (id in t && (c.transfer !in t ==> EvictionKey(t[id].series) != EvictionKey(c.series)))
    requires |Above(t.Keys + {c.transfer}, id)| < MAX_INCOMPLETE_TRANSFERS
    ensures id in Opened(t, c)
  {
    if c.transfer !in t {
      var raw := WithoutSeries(t, EvictionKey(c.series))[c.transfer := Assembly(c.series, c.count, map[])];
      SubsetSize(Above(raw.Keys, id), Above(t.Keys + {c.transfer}, id));
    }
  }

  lemma QuietOpener(t: Transfers, chunks: seq<Chunk>, id: int, series: BulkSeries, k: nat)
    requires Quiet(t, chunks, id, series) && k < |chunks|
    requires chunks[k].transfer == id || (id in Run(t, chunks, k) && Run(t, chunks, k)[id].series == series)
    ensures id in Opened(Run(t, chunks, k), chunks[k])
  {
    var before, c := Run(t, chunks, k), chunks[k];
    forall j | j in before ensures j in Transferred(t, chunks) { RunIds(t, chunks, k, j); }
    assert QuietAt(t, chunks, id, series, k);
    assert c in chunks;
    SubsetSize(Above(before.Keys + {c.transfer}, id), Above(Transferred(t, chunks), id));
    OpenerSurvives(before, c, id);
  }

  ghost predicate Live(t: Transfers, id: int, series: BulkSeries, payload: seq<seq<Item>>, got: set<int>) {
    && Holds(t, id, series, payload, got)
    && (got != {} && |got| != |payload| ==> id in t)
  }

  lemma OtherChunkSpares(t: Transfers, c: Chunk, id: int, series: BulkSeries, payload: seq<seq<Item>>, got: set<int>)
    requires Live(t, id, series, payload, got) && c.transfer != id
    requires id in t ==> id in Opened(t, c)
    ensures Live(Ingest(t, c), id, series, payload, got)
  {
    OtherChunkOnlyEvicts(t, c, id);
    assert Stored(Opened(t, c), c).Keys == Opened(t, c).Keys;
  }

  lemma {:induction false} QuietStep(
    t: Transfers, chunks: seq<Chunk>, id: int, series: BulkSeries, payload: seq<seq<Item>>, k: nat)
    requires |payload| < U32_VALUES && k < |chunks|
    requires Sends(chunks, id, series, payload) && Quiet(t, chunks, id, series)
    requires Live(Run(t, chunks, k), id, series, payload, Arrived(chunks, id, k))
    ensures Live(Ingest(Run(t, chunks, k), chunks[k]), id, series, payload,
                 Arrived(chunks, id, k) + if chunks[k].transfer == id then {chunks[k].index} else {})
  {
    var c, before, got := chunks[k], Run(t, chunks, k), Arrived(chunks, id, k);
    if c.transfer == id {
      OwnChunkIsLive(chunks, id, series, payload, k);
      QuietOpener(t, chunks, id, series, k);
      OwnChunk(before, c, payload, got);
    } else {
      if id in before {
        QuietOpener(t, chunks, id, series, k);
      }
      OtherChunkSpares(before, c, id, series, payload, got);
      assert got + {} == got;
    }
  }

  lemma {:induction false} QuietProgress(t: Transfers, chunks: seq<Chunk>, id: int, series: BulkSeries,
                                         payload: seq<seq<Item>>, k: nat)
    requires id !in t && |payload| < U32_VALUES && k <= |chunks|
    requires Sends(chunks, id, series, payload) && Quiet(t, chunks, id, series)
    ensures Live(Run(t, chunks, k), id, series, payload, Arrived(chunks, id, k))
  {
    hide Ingest, Sends, Quiet;
    if k > 0 {
      QuietProgress(t, chunks, id, series, payload, k - 1);
      QuietStep(t, chunks, id, series, payload, k - 1);
    }
  }

  lemma OwnChunkIsLive(chunks: seq<Chunk>, id: int, series: BulkSeries, payload: seq<seq<Item>>, k: nat)
    requires Sends(chunks, id, series, payload)
    requires k < |chunks| && chunks[k].transfer == id
    ensures chunks[k].index !in Arrived(chunks, id, k)
    ensures Arrived(chunks, id, k) <= Below(|payload|)
    ensures |Arrived(chunks, id, k)| != |payload|
  {
    forall x | x in Arrived(chunks, id, k) ensures x in Below(|payload|) {
      ArrivedFrom(chunks, k, id, x);
    }
    Pigeonhole(Arrived(chunks, id, k), |payload|);
    IndexIsNew(chunks, id, series, payload, k);
  }

  /** A condition on the stream alone that keeps a transfer undisturbed. */
  lemma {:induction false} QuietIsUndisturbed(
    t: Transfers, chunks: seq<Chunk>, id: int, series: BulkSeries, payload: seq<seq<Item>>)
    requires id !in t && |payload| < U32_VALUES
    requires Sends(chunks, id, series, payload) && Quiet(t, chunks, id, series)
    ensures Undisturbed(t, chunks, id)
  {
    forall k | 0 <= k < |chunks| && chunks[k].transfer == id
      ensures UndisturbedAt(t, chunks, id, k)
    {
      QuietProgress(t, chunks, id, series, payload, k);
      OwnChunkIsLive(chunks, id, series, payload, k);
      QuietOpener(t, chunks, id, series, k);
    }
  }

  // ----- the reader thread's map -----

  method FirstOf(ids: set<int>) returns (first: int)
    requires ids != {}
    ensures first in ids && first == LeastInt(ids)
  {
    LeastIntExists(ids);
    first :| first in ids && forall id :: id in ids ==> first <= id;
  }

  class Reader {
    var transfers: Transfers

    constructor ()
      ensures transfers == map[]
    {
      transfers := map[];
    }

    /** Pops the smallest transfer ids until the map fits the cap. */
    method Cap()
      modifies this
      ensures transfers == Capped(old(transfers))
    {
      while |transfers| > MAX_INCOMPLETE_TRANSFERS
        invariant Capped(transfers) == Capped(old(transfers))
        decreases |transfers|
      {
        assert |transfers.Keys| == |transfers|;
        var first := FirstOf(transfers.Keys);
        PopKeepsCapped(transfers, first);
        assert (transfers - {first}).Keys == transfers.Keys - {first};
        transfers := transfers - {first};
      }
      SmallIsCapped(transfers);
    }

    /** Registers a transfer unless it is known, evicting its stale predecessor and the smallest ids past the cap. */
    method InsertChunk(c: Chunk)
      modifies this
      ensures transfers == Opened(old(transfers), c)
    {
      if c.transfer in transfers { return; }
      var key := EvictionKey(c.series);
      transfers := map id | id in transfers && EvictionKey(transfers[id].series) != key :: transfers[id];
      assert transfers == WithoutSeries(old(transfers), key);
      transfers := transfers[c.transfer := Assembly(c.series, c.count, map[])];
      Cap();
    }

    /** Stores one part; `whole` is the message to forward once the transfer is complete. */
    method IngestChunk(c: Chunk) returns (whole: Option<(BulkSeries, map<int, seq<Item>>)>)
      modifies this
      ensures transfers == Ingest(old(transfers), c)
      ensures Delivered(Opened(old(transfers), c), c) ==
        if whole.Some? then Some(SeriesUpdated(whole.value.0, Flatten(whole.value.1))) else None
    {
      InsertChunk(c);
      if c.transfer in transfers {
        var assembly := transfers[c.transfer];
        if SameKind(assembly.series, c.series) {
          transfers := transfers[c.transfer := assembly.(parts := assembly.parts[c.index := c.items])];
        }
      }
      if c.transfer in transfers && Complete(transfers[c.transfer]) {
        var assembly := transfers[c.transfer];
        whole := Some((assembly.series, assembly.parts));
        transfers := transfers - {c.transfer};
      } else {
        whole := None;
      }
    }

    /** Flattens the parts of a complete transfer, walking them by ascending index. */
    method Assembled(series: BulkSeries, parts: map<int, seq<Item>>) returns (message: Message)
      ensures message == SeriesUpdated(series, Flatten(parts))
    {
      var items: seq<Item> := [];
      var todo := parts.Keys;
      while todo != {}
        invariant todo <= parts.Keys
        invariant items + FlattenSome(parts, todo) == Flatten(parts)
        decreases |todo|
      {
        var first := FirstOf(todo);
        ghost var rest := FlattenSome(parts, todo - {first});
        AppendAssociates(items, parts[first], rest);
        items := items + parts[first];
        todo := todo - {first};
      }
      message := SeriesUpdated(series, items);
    }
  }
}
