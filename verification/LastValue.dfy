/** The last-value cache: what it keeps of a message stream and how it is replayed. */
module LastValue {
  import opened Order
  import opened Protocol

  type Cache = map<string, Message>

  function Remember(c: Cache, m: Message): Cache {
    if CacheKey(m).Some? then c[CacheKey(m).value := m] else c
  }

  /** The cache after the first `k` messages of `s`, starting from `c`. */
  function Folded(c: Cache, s: seq<Message>, k: nat): Cache
    requires k <= |s|
  {
    if k == 0 then c else Remember(Folded(c, s, k - 1), s[k - 1])
  }

  function CacheOf(s: seq<Message>): Cache { Folded(map[], s, |s|) }

  ghost function At(c: Cache, keys: seq<string>): (r: seq<Message>)
    requires forall i :: 0 <= i < |keys| ==> keys[i] in c
    ensures |r| == |keys| && forall i :: 0 <= i < |r| ==> r[i] == c[keys[i]]
  {
    if keys == [] then [] else [c[keys[0]]] + At(c, keys[1..])
  }

  /** The cached messages in key order: what a new subscriber is sent. */
  ghost function Replay(c: Cache): seq<Message> { At(c, Sorted(c.Keys)) }

  ghost predicate KeyedByContent(c: Cache) {
    forall k :: k in c ==> CacheKey(c[k]) == Some(k)
  }

  lemma {:induction false} FoldedIsKeyed(c: Cache, s: seq<Message>, k: nat)
    requires k <= |s| && KeyedByContent(c)
    ensures KeyedByContent(Folded(c, s, k))
  {
    if k > 0 { FoldedIsKeyed(c, s, k - 1); }
  }

  lemma {:induction false} FoldedPrefix(c: Cache, a: seq<Message>, b: seq<Message>, k: nat)
    requires k <= |a|
    ensures Folded(c, a + b, k) == Folded(c, a, k)
  {
    if k > 0 { FoldedPrefix(c, a, b, k - 1); }
  }

  lemma {:induction false} FoldedAppend(c: Cache, a: seq<Message>, b: seq<Message>, k: nat)
    requires k <= |b|
    ensures Folded(c, a + b, |a| + k) == Folded(Folded(c, a, |a|), b, k)
  {
    if k == 0 {
      FoldedPrefix(c, a, b, |a|);
    } else {
      FoldedAppend(c, a, b, k - 1);
      assert (a + b)[|a| + k - 1] == b[k - 1];
    }
  }

  lemma {:induction false} FoldedSlice(c: Cache, s: seq<Message>, i: nat, k: nat)
    requires i + k <= |s|
    ensures Folded(Folded(c, s, i), s[i..], k) == Folded(c, s, i + k)
  {
    if k > 0 {
      FoldedSlice(c, s, i, k - 1);
      assert s[i..][k - 1] == s[i + k - 1];
    }
  }

  lemma {:induction false} FoldedAt(c: Cache, keys: seq<string>, k: nat)
    requires KeyedByContent(c) && k <= |keys|
    requires forall i :: 0 <= i < |keys| ==> keys[i] in c
    ensures forall x :: x in Folded(map[], At(c, keys), k) <==> x in keys[..k]
    ensures forall x :: x in Folded(map[], At(c, keys), k) ==> x in c && Folded(map[], At(c, keys), k)[x] == c[x]
  {
    hide At, CacheKey;
    if k > 0 {
      FoldedAt(c, keys, k - 1);
      assert keys[..k] == keys[..k - 1] + [keys[k - 1]];
      assert CacheKey(c[keys[k - 1]]) == Some(keys[k - 1]);
    }
  }

  lemma {:induction false} FoldedAtAll(c: Cache, keys: seq<string>)
    requires KeyedByContent(c)
    requires forall x :: x in keys <==> x in c
    ensures Folded(map[], At(c, keys), |keys|) == c
  {
    hide At;
    FoldedAt(c, keys, |keys|);
    assert keys[..|keys|] == keys;
    var f := Folded(map[], At(c, keys), |keys|);
    assert f.Keys == c.Keys;
  }

  /** Folding a replay gives back the cache it was taken from. */
  lemma {:induction false} ReplayRestoresCache(c: Cache)
    requires KeyedByContent(c)
    ensures CacheOf(Replay(c)) == c
  {
    FoldedAtAll(c, Sorted(c.Keys));
  }

  /** Only the first replayed message can be an environment list. */
  lemma {:induction false} EnvironmentsReplayFirst(c: Cache, i: nat)
    requires KeyedByContent(c) && 0 < i < |Replay(c)|
    ensures !Replay(c)[i].EnvironmentsUpdated?
  {
    var keys := Sorted(c.Keys);
    assert LexLess(keys[0], keys[i]);
    if Replay(c)[i].EnvironmentsUpdated? {
      assert keys[i] == ENVIRONMENTS_KEY;
      assert CacheKey(c[keys[0]]) == Some(keys[0]);
      match c[keys[0]] {
        case EnvironmentsUpdated(_) => assert false;
        case SeriesUpdated(series, _) =>
          EnvironmentsKeyIsFirst(series);
          LexAntisymmetric(keys[0], keys[i]);
          assert false;
        case SyncNeeded(_) => assert false;
      }
    }
  }
}
