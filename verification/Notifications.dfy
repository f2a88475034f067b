/** Health notifications: which transition of a batch fires, the bounded memory of decisions, and the weekly digest. */
module Notifications {
  import opened Order
  import opened Protocol
  import Trends

  datatype Kind = HealthChange | BuildChange

  datatype Event = Event(at: int, kind: Kind, toHealth: string)

  /** A remembered decision: environment, event time, kind. */
  type Key = (string, int, Kind)

  const NOTIFY_SEEN_CAP := 2000

  function KeyOf(env: string, e: Event): Key { (env, e.at, e.kind) }

  function TimeOf(k: Key): int { k.1 }

  // ----- one batch -----

  predicate Fireable(env: string, e: Event, seen: set<Key>, boot: int) {
    KeyOf(env, e) !in seen && e.kind == HealthChange && e.at >= boot
  }

  /** The keys a batch adds to the memory. */
  function Novel(env: string, events: seq<Event>, seen: set<Key>): set<Key> {
    set e | e in events && KeyOf(env, e) !in seen :: KeyOf(env, e)
  }

  /** The last of the first `k` events that may fire. */
  function Chosen(env: string, events: seq<Event>, k: nat, seen: set<Key>, boot: int): Option<Event>
    requires k <= |events|
  {
    if k == 0 then None
    else if Fireable(env, events[k - 1], seen, boot) then Some(events[k - 1])
    else Chosen(env, events, k - 1, seen, boot)
  }

  function Selected(env: string, events: seq<Event>, seen: set<Key>, boot: int): Option<Event> {
    Chosen(env, events, |events|, seen, boot)
  }

  lemma {:induction false} ChosenIsLast(
    env: string, events: seq<Event>, k: nat, seen: set<Key>, boot: int) returns (i: nat)
    requires k <= |events|
    ensures
      Chosen(env, events, k, seen, boot).None? ==> forall j :: 0 <= j < k ==> !Fireable(env, events[j], seen, boot)
    ensures
      Chosen(env, events, k, seen, boot).Some? ==>
        && i < k && Chosen(env, events, k, seen, boot) == Some(events[i]) && Fireable(env, events[i], seen, boot)
        && forall j :: i < j < k ==> !Fireable(env, events[j], seen, boot)
  {
    i := 0;
    if k > 0 {
      if Fireable(env, events[k - 1], seen, boot) {
        i := k - 1;
      } else {
        i := ChosenIsLast(env, events, k - 1, seen, boot);
      }
    }
  }

  /** Walks the batch once: what to remember, and the latest transition that may fire. */
  method SelectNotification(env: string, events: seq<Event>, seen: set<Key>, boot: int)
    returns (record: seq<Key>, fire: Option<Event>)
    ensures forall key :: key in record <==> key in Novel(env, events, seen)
    ensures fire == Selected(env, events, seen, boot)
  {
    record, fire := [], None;
    for k := 0 to |events|
      invariant forall key :: key in record <==> key in Novel(env, events[..k], seen)
      invariant fire == Chosen(env, events, k, seen, boot)
    {
      var e := events[k];
      var key := KeyOf(env, e);
      assert events[..k + 1] == events[..k] + [e];
      assert Novel(env, events[..k + 1], seen) == Novel(env, events[..k], seen) + if key in seen then {} else {key};
      if key in seen { continue; }
      record := record + [key];
      if e.kind == HealthChange && e.at >= boot {
        fire := Some(e);
      }
    }
    assert events[..|events|] == events;
  }

  /** Decisions are remembered apart by environment, time and kind. */
  lemma KeysTellEventsApart(env: string, e: Event, other: string, f: Event)
    ensures KeyOf(env, e) == KeyOf(other, f) <==> env == other && e.at == f.at && e.kind == f.kind
  {}

  // ----- gates -----

  datatype Gate = Gate(
    master: bool, muted: bool, headlineSignal: Option<string>, notifySignals: map<string, bool>, quietNow: bool)

  /** A signal without a switch is on. */
  predicate SignalEnabled(switches: map<string, bool>, signal: string) { signal in switches ==> switches[signal] }

  predicate GateAllows(g: Gate) {
    if !g.master || g.muted then false
    else if g.headlineSignal.Some? && !SignalEnabled(g.notifySignals, g.headlineSignal.value) then false
    else !g.quietNow
  }

  predicate ShouldNotify(e: Event, boot: int, seen: bool, g: Gate) {
    if e.kind != HealthChange then false
    else if e.at < boot || seen then false
    else GateAllows(g)
  }

  /** A notification is posted exactly when it is switched on, unmuted, and no quiet hour or signal switch stops it. */
  lemma PostsIff(e: Event, boot: int, seen: bool, g: Gate)
    ensures
      ShouldNotify(e, boot, seen, g)
      <==> e.kind == HealthChange && e.at >= boot && !seen
           && g.master && !g.muted && !g.quietNow
           && !(g.headlineSignal.Some? && g.headlineSignal.value in g.notifySignals
                && g.notifySignals[g.headlineSignal.value] == false)
  {}

  // ----- the memory over a run of batches -----

  /** One published batch, the environments listed at that moment, and the gate. */
  datatype Batch = Batch(env: string, events: seq<Event>, listed: set<string>, gate: Gate)

  /** Every key to remember after a batch, before the cap. */
  function Remembered(seen: set<Key>, b: Batch): set<Key> {
    set key | key in seen + Novel(b.env, b.events, seen) && key.0 in b.listed
  }

  /** Past the cap the oldest keys go; which of several equally old ones is not determined. */
  ghost predicate Capped(all: set<Key>, kept: set<Key>) {
    && kept <= all
    && (|all| <= NOTIFY_SEEN_CAP ==> kept == all)
    && (|all| > NOTIFY_SEEN_CAP ==> |kept| == NOTIFY_SEEN_CAP)
    && forall x, y :: x in all - kept && y in kept ==> TimeOf(x) <= TimeOf(y)
  }

  ghost predicate Noted(seen: set<Key>, b: Batch, next: set<Key>) { Capped(Remembered(seen, b), next) }

  ghost predicate IsRun(memory: seq<set<Key>>, batches: seq<Batch>) {
    && |memory| == |batches| + 1
    && memory[0] == {}
    && forall k {:trigger memory[k]} :: 0 <= k < |batches| ==> Noted(memory[k], batches[k], memory[k + 1])
  }

  predicate Selects(memory: seq<set<Key>>, batches: seq<Batch>, boot: int, k: nat, key: Key)
    requires k < |batches| < |memory|
  {
    var e := Selected(batches[k].env, batches[k].events, memory[k], boot);
    e.Some? && KeyOf(batches[k].env, e.value) == key
  }

  /** The memory held the key, or was just given it, and batch `m` dropped it. */
  predicate Forgets(memory: seq<set<Key>>, batches: seq<Batch>, m: nat, key: Key)
    requires m < |batches| && |memory| == |batches| + 1
  {
    key in memory[m] + Novel(batches[m].env, batches[m].events, memory[m]) && key !in memory[m + 1]
  }

  lemma SelectedIsNovel(memory: seq<set<Key>>, batches: seq<Batch>, boot: int, k: nat, key: Key)
    requires k < |batches| < |memory| && Selects(memory, batches, boot, k, key)
    ensures key !in memory[k] && key in Novel(batches[k].env, batches[k].events, memory[k])
    ensures key.0 == batches[k].env && key.1 >= boot && key.2 == HealthChange
  {
    var i := ChosenIsLast(batches[k].env, batches[k].events, |batches[k].events|, memory[k], boot);
    assert batches[k].events[i] in batches[k].events;
  }

  lemma {:induction false} KeptUnlessForgotten(memory: seq<set<Key>>, batches: seq<Batch>, i: nat, j: nat, key: Key)
    requires IsRun(memory, batches) && i < j <= |batches|
    requires key in memory[i] + Novel(batches[i].env, batches[i].events, memory[i])
    requires forall m :: i <= m < j ==> !Forgets(memory, batches, m, key)
    ensures key in memory[j]
  {
    hide Noted, Novel, Remembered;
    assert !Forgets(memory, batches, j - 1, key);
    if i < j - 1 { KeptUnlessForgotten(memory, batches, i, j - 1, key); }
  }

  /**
   * A transition selected twice was forgotten in between, and it is forgotten only when its environment is not
   * listed or when the memory is full of decisions at least as recent.
   */
  lemma {:induction false} SelectedTwiceMeansForgotten(
    memory: seq<set<Key>>, batches: seq<Batch>, boot: int, i: nat, j: nat, key: Key)
    requires IsRun(memory, batches) && i < j < |batches|
    requires Selects(memory, batches, boot, i, key) && Selects(memory, batches, boot, j, key)
    ensures
      exists m :: i <= m < j && Forgets(memory, batches, m, key)
        && (key.0 !in batches[m].listed
            || (|memory[m + 1]| == NOTIFY_SEEN_CAP && forall y :: y in memory[m + 1] ==> key.1 <= TimeOf(y)))
  {
    SelectedIsNovel(memory, batches, boot, i, key);
    SelectedIsNovel(memory, batches, boot, j, key);
    if forall m :: i <= m < j ==> !Forgets(memory, batches, m, key) {
      KeptUnlessForgotten(memory, batches, i, j, key);
      assert false;
    }
    var m :| i <= m < j && Forgets(memory, batches, m, key);
    hide Selects;
    assert Noted(memory[m], batches[m], memory[m + 1]);
    if key.0 in batches[m].listed {
      assert key in Remembered(memory[m], batches[m]) - memory[m + 1];
      forall y | y in memory[m + 1] ensures key.1 <= TimeOf(y) { assert TimeOf(key) <= TimeOf(y); }
    }
  }

  lemma ListedAndUncappedIsKept(memory: seq<set<Key>>, batches: seq<Batch>, m: nat, key: Key)
    requires IsRun(memory, batches) && m < |batches|
    requires key.0 in batches[m].listed && |Remembered(memory[m], batches[m])| <= NOTIFY_SEEN_CAP
    ensures !Forgets(memory, batches, m, key)
  {
    assert Noted(memory[m], batches[m], memory[m + 1]);
  }

  /** While its environment stays listed and the cap evicts nothing, a transition is selected at most once. */
  lemma SelectedAtMostOnce(
    memory: seq<set<Key>>, batches: seq<Batch>, boot: int, i: nat, j: nat, key: Key)
    requires IsRun(memory, batches) && i < |batches| && j < |batches|
    requires Selects(memory, batches, boot, i, key) && Selects(memory, batches, boot, j, key)
    requires forall k :: 0 <= k < |batches| ==> key.0 in batches[k].listed
    requires forall k :: 0 <= k < |batches| ==> |Remembered(memory[k], batches[k])| <= NOTIFY_SEEN_CAP
    ensures i == j
  {
    hide Noted, Novel, Remembered, Selects, Forgets;
    forall m | 0 <= m < |batches| ensures !Forgets(memory, batches, m, key) {
      ListedAndUncappedIsKept(memory, batches, m, key);
    }
    SelectedIsNovel(memory, batches, boot, i, key);
    SelectedIsNovel(memory, batches, boot, j, key);
    if i < j {
      KeptUnlessForgotten(memory, batches, i, j, key);
    } else if j < i {
      KeptUnlessForgotten(memory, batches, j, i, key);
    }
  }

  /** The memory stays bounded and remembers listed environments only. */
  lemma {:induction false} MemoryIsBounded(memory: seq<set<Key>>, batches: seq<Batch>, k: nat)
    requires IsRun(memory, batches) && k < |batches|
    ensures |memory[k + 1]| <= NOTIFY_SEEN_CAP
    ensures forall key :: key in memory[k + 1] ==> key.0 in batches[k].listed
  {
    assert Noted(memory[k], batches[k], memory[k + 1]);
  }

  predicate Matters(e: Event, boot: int) { e.kind == HealthChange && e.at >= boot }

  lemma SelectsNothingIff(env: string, events: seq<Event>, seen: set<Key>, boot: int)
    ensures
      Selected(env, events, seen, boot) == None
      <==> forall e :: e in events && Matters(e, boot) ==> KeyOf(env, e) in seen
  {
    var i := ChosenIsLast(env, events, |events|, seen, boot);
    if Selected(env, events, seen, boot) == None {
      forall e | e in events && Matters(e, boot) ensures KeyOf(env, e) in seen {
        var j :| 0 <= j < |events| && events[j] == e;
        assert !Fireable(env, events[j], seen, boot);
      }
    } else {
      assert events[i] in events;
    }
  }

  lemma RememberedEvent(seen: set<Key>, b: Batch, e: Event)
    requires e in b.events
    ensures KeyOf(b.env, e) in Remembered(seen, b) <==> b.env in b.listed
  {
    var key := KeyOf(b.env, e);
    assert key !in seen ==> key in Novel(b.env, b.events, seen);
  }

  /**
   * Below the cap, and for an unlisted environment also above it, delivering a batch again selects nothing exactly
   * when its environment is listed or the batch held no post-boot health transition at all.
   */
  lemma ReplayIsSilentIff(seen: set<Key>, b: Batch, next: set<Key>, boot: int)
    requires Noted(seen, b, next)
    requires |Remembered(seen, b)| <= NOTIFY_SEEN_CAP || b.env !in b.listed
    ensures
      Selected(b.env, b.events, next, boot) == None
      <==> b.env in b.listed || forall e :: e in b.events ==> !Matters(e, boot)
  {
    hide Selected, Remembered;
    SelectsNothingIff(b.env, b.events, next, boot);
    forall e | e in b.events ensures KeyOf(b.env, e) in next <==> b.env in b.listed { RememberedEvent(seen, b, e); }
  }

  function NoOlder(all: set<Key>, key: Key): set<Key> { set y | y in all && TimeOf(y) >= TimeOf(key) }

  function Newer(all: set<Key>, key: Key): set<Key> { set y | y in all && TimeOf(y) > TimeOf(key) }

  lemma Fewer(a: set<Key>, b: set<Key>)
    requires a <= b
    ensures |a| <= |b|
  {
    assert b == a + (b - a);
  }

  /** A key among the 2000 most recent stays, one with 2000 newer ones goes; only ties at the edge are open. */
  lemma CapKeepsTheRecent(all: set<Key>, kept: set<Key>, key: Key)
    requires Capped(all, kept) && key in all
    ensures |NoOlder(all, key)| <= NOTIFY_SEEN_CAP ==> key in kept
    ensures |Newer(all, key)| >= NOTIFY_SEEN_CAP ==> key !in kept
  {
    if |all| <= NOTIFY_SEEN_CAP {
      Fewer(Newer(all, key), all - {key});
    } else if key in kept {
      Fewer(Newer(all, key), kept - {key});
    } else {
      Fewer(kept, NoOlder(all, key) - {key});
    }
  }

  /** What a replay selects above the cap, for a listed environment. */
  lemma ReplayAboveCap(seen: set<Key>, b: Batch, next: set<Key>, boot: int)
    requires Noted(seen, b, next) && b.env in b.listed
    ensures
      (forall e :: e in b.events && Matters(e, boot) ==>
         |NoOlder(Remembered(seen, b), KeyOf(b.env, e))| <= NOTIFY_SEEN_CAP)
      ==> Selected(b.env, b.events, next, boot) == None
    ensures
      (exists e :: e in b.events && Matters(e, boot)
         && |Newer(Remembered(seen, b), KeyOf(b.env, e))| >= NOTIFY_SEEN_CAP)
      ==> Selected(b.env, b.events, next, boot).Some?
  {
    hide Selected, Remembered, Capped, NoOlder, Newer;
    SelectsNothingIff(b.env, b.events, next, boot);
    forall e | e in b.events
      ensures |NoOlder(Remembered(seen, b), KeyOf(b.env, e))| <= NOTIFY_SEEN_CAP ==> KeyOf(b.env, e) in next
      ensures |Newer(Remembered(seen, b), KeyOf(b.env, e))| >= NOTIFY_SEEN_CAP ==> KeyOf(b.env, e) !in next
    {
      RememberedEvent(seen, b, e);
      CapKeepsTheRecent(Remembered(seen, b), next, KeyOf(b.env, e));
    }
  }

  /** Where no other key shares its transitions' times, what a replay above the cap selects is settled exactly. */
  lemma ReplayAboveCapIff(seen: set<Key>, b: Batch, next: set<Key>, boot: int)
    requires Noted(seen, b, next) && b.env in b.listed
    requires
      forall e, y :: e in b.events && Matters(e, boot) && y in Remembered(seen, b) && TimeOf(y) == e.at ==>
        y == KeyOf(b.env, e)
    ensures
      Selected(b.env, b.events, next, boot) == None
      <==> forall e :: e in b.events && Matters(e, boot) ==>
             |Newer(Remembered(seen, b), KeyOf(b.env, e))| < NOTIFY_SEEN_CAP
  {
    forall e | e in b.events && Matters(e, boot)
      ensures
        |NoOlder(Remembered(seen, b), KeyOf(b.env, e))| == |Newer(Remembered(seen, b), KeyOf(b.env, e))| + 1
    {
      RememberedEvent(seen, b, e);
      UntiedCount(Remembered(seen, b), KeyOf(b.env, e));
    }
    hide Selected, Remembered, Capped, NoOlder, Newer, Noted;
    ReplayAboveCap(seen, b, next, boot);
  }

  lemma UntiedCount(all: set<Key>, key: Key)
    requires key in all && forall y :: y in all && TimeOf(y) == TimeOf(key) ==> y == key
    ensures |NoOlder(all, key)| == |Newer(all, key)| + 1
  {
    assert NoOlder(all, key) == Newer(all, key) + {key};
  }

  /** A batch for an unlisted environment, delivered twice, selects its transition both times. */
  lemma UnlistedBatchSelectsTwice(gate: Gate)
    ensures
      var b := Batch("a", [Event(0, HealthChange, "down")], {}, gate);
      && IsRun([{}, {}, {}], [b, b])
      && Selects([{}, {}, {}], [b, b], 0, 0, ("a", 0, HealthChange))
      && Selects([{}, {}, {}], [b, b], 0, 1, ("a", 0, HealthChange))
  {
    var b := Batch("a", [Event(0, HealthChange, "down")], {}, gate);
    assert Remembered({}, b) == {};
    assert Noted({}, b, {});
    assert Chosen("a", b.events, 1, {}, 0) == Some(b.events[0]);
  }

  // ----- the object -----

  lemma {:induction false} SetOfDistinct(s: seq<Key>)
    requires forall i, j :: 0 <= i < j < |s| ==> s[i] != s[j]
    ensures |Members(s)| == |s|
  {
    if s != [] {
      assert s == s[..|s| - 1] + [s[|s| - 1]];
      SetOfDistinct(s[..|s| - 1]);
      assert Members(s) == Members(s[..|s| - 1]) + {s[|s| - 1]};
    }
  }

  lemma {:induction false} DistinctByMultiset(s: seq<Key>)
    requires forall x :: multiset(s)[x] <= 1
    ensures forall i, j :: 0 <= i < j < |s| ==> s[i] != s[j]
  {
    if s != [] {
      var front, last := s[..|s| - 1], s[|s| - 1];
      assert s == front + [last];
      forall x ensures multiset(front)[x] <= 1 { assert multiset(s)[x] == multiset(front)[x] + multiset([last])[x]; }
      DistinctByMultiset(front);
      assert multiset(s)[last] == multiset(front)[last] + 1;
      assert last !in front;
      forall i, j | 0 <= i < j < |s| ensures s[i] != s[j] {
        assert s[i] == front[i];
        if j < |s| - 1 { assert s[j] == front[j]; }
      }
    }
  }

  /** Dropping the oldest of a time-sorted listing is a valid eviction. */
  lemma {:induction false} DroppingOldestCaps(all: set<Key>, listing: seq<Key>)
    requires multiset(listing) == multiset(all) && |all| > NOTIFY_SEEN_CAP
    ensures |StableSort(listing, TimeOf)| == |all|
    ensures Capped(all, Members(StableSort(listing, TimeOf)[|all| - NOTIFY_SEEN_CAP..]))
  {
    var sorted := StableSort(listing, TimeOf);
    StableSortArranges(listing, TimeOf);
    assert multiset(sorted) == multiset(all);
    assert |multiset(sorted)| == |sorted| && |multiset(all)| == |all|;
    var tail := sorted[|all| - NOTIFY_SEEN_CAP..];
    var kept := Members(tail);
    forall x ensures multiset(sorted)[x] <= 1 {}
    DistinctByMultiset(sorted);
    SetOfDistinct(tail);
    forall x ensures x in sorted <==> x in all { assert x in multiset(sorted) <==> x in multiset(all); }
    forall m | |all| - NOTIFY_SEEN_CAP <= m < |sorted| ensures sorted[m] in kept {
      assert sorted[m] == tail[m - (|all| - NOTIFY_SEEN_CAP)];
    }
    forall x, y | x in all - kept && y in kept ensures TimeOf(x) <= TimeOf(y) {
      var i :| 0 <= i < |sorted| && sorted[i] == x;
      var j :| 0 <= j < |tail| && tail[j] == y;
      assert sorted[j + |all| - NOTIFY_SEEN_CAP] == y;
    }
  }

  class Desktop {
    const boot: int
    const detached: bool
    var notifySeen: set<Key>

    constructor (boot: int, detached: bool)
      ensures this.boot == boot && this.detached == detached && notifySeen == {}
    {
      this.boot, this.detached, notifySeen := boot, detached, {};
    }

    method NoteHealthEvents(b: Batch) returns (post: Option<Event>)
      modifies this
      ensures detached ==> notifySeen == old(notifySeen) && post == None
      ensures !detached ==> Noted(old(notifySeen), b, notifySeen)
      ensures
        !detached ==> post == if GateAllows(b.gate) then Selected(b.env, b.events, old(notifySeen), boot) else None
    {
      post := None;
      if detached { return; }
      var fire := Remember(b);
      hide Noted, GateAllows;
      if fire.None? { return; }
      ghost var i := ChosenIsLast(b.env, b.events, |b.events|, old(notifySeen), boot);
      if !ShouldNotify(fire.value, boot, false, b.gate) { return; }
      post := fire;
    }

    /** Extends the memory with the batch, prunes unlisted environments, then evicts past the cap. */
    method Remember(b: Batch) returns (fire: Option<Event>)
      modifies this
      ensures Noted(old(notifySeen), b, notifySeen)
      ensures fire == Selected(b.env, b.events, old(notifySeen), boot)
    {
      hide Selected, Capped;
      var record;
      record, fire := SelectNotification(b.env, b.events, notifySeen, boot);
      notifySeen := notifySeen + Members(record);
      assert notifySeen == old(notifySeen) + Novel(b.env, b.events, old(notifySeen));
      hide Novel;
      notifySeen := set key | key in notifySeen && key.0 in b.listed;
      assert notifySeen == Remembered(old(notifySeen), b);
      notifySeen := EvictOldest(notifySeen);
    }

    method EvictOldest(all: set<Key>) returns (kept: set<Key>)
      ensures Capped(all, kept)
    {
      kept := all;
      if |all| > NOTIFY_SEEN_CAP {
        var listing := Listing(all);
        DroppingOldestCaps(all, listing);
        kept := Members(StableSort(listing, TimeOf)[|all| - NOTIFY_SEEN_CAP..]);
      }
    }

    /** The elements of a hash set in whatever order it gives. */
    method Listing(s: set<Key>) returns (listing: seq<Key>)
      ensures multiset(listing) == multiset(s)
    {
      listing := [];
      var left := s;
      while left != {}
        invariant left <= s
        invariant multiset(listing) == multiset(s - left)
        decreases |left|
      {
        var key :| key in left;
        assert s - (left - {key}) == (s - left) + {key};
        listing, left := listing + [key], left - {key};
      }
      assert s - left == s;
    }
  }

  // ----- the weekly digest -----

  const DIGEST_GUARD_SECS := 20 * 3600

  /** Local time is UTC shifted by a fixed offset; the slot is Monday from nine. */
  predicate IsDigestSlot(now: int, offset: int) {
    Trends.WeekdayHour(now + offset).0 == 0 && Trends.WeekdayHour(now + offset).1 >= 9
  }

  /** One look at the digest: the clock, and whether the setting is on. */
  datatype Look = Look(now: int, enabled: bool)

  predicate Sends(last: Option<int>, look: Look, offset: int) {
    IsDigestSlot(look.now, offset) && look.enabled && !(last.Some? && look.now - last.value < DIGEST_GUARD_SECS)
  }

  /** The last-sent mark after the first `k` looks. */
  function LastSent(last: Option<int>, looks: seq<Look>, offset: int, k: nat): Option<int>
    requires k <= |looks|
  {
    if k == 0 then last
    else
      var mark := LastSent(last, looks, offset, k - 1);
      if Sends(mark, looks[k - 1], offset) then Some(looks[k - 1].now) else mark
  }

  lemma {:induction false} MarkOnlyAdvances(last: Option<int>, looks: seq<Look>, offset: int, i: nat, k: nat)
    requires i < k <= |looks| && Sends(LastSent(last, looks, offset, i), looks[i], offset)
    ensures LastSent(last, looks, offset, k).Some? && LastSent(last, looks, offset, k).value >= looks[i].now
  {
    if i < k - 1 { MarkOnlyAdvances(last, looks, offset, i, k - 1); }
  }

  lemma SameMondayIsClose(a: int, b: int)
    requires Trends.WeekdayHour(a).0 == 0 && Trends.WeekdayHour(b).0 == 0
    requires Trends.WeekdayHour(a).1 >= 9 && b - a >= DIGEST_GUARD_SECS
    ensures b / 86400 - a / 86400 >= 7
  {
    var da, db, sa, sb := a / 86400, b / 86400, a % 86400, b % 86400;
    assert a == da * 86400 + sa && b == db * 86400 + sb;
    assert sa >= 9 * 3600 && sb < 86400;
    assert db > da;
    assert (da + 3) % 7 == 0 && (db + 3) % 7 == 0;
    assert (db - da) % 7 == 0;
  }

  /** The slot is the fifteen hours from nine on a Monday, 5 January 2026 being one. */
  lemma DigestSlotAsPublished(now: int, offset: int)
    ensures IsDigestSlot(now, offset) <==> (now + offset - 1_767_603_600) % 604_800 < 54_000
  {
    var t := now + offset;
    var day, second := t / 86400, t % 86400;
    assert t == day * 86400 + second;
    var week, weekday := (day - 20_458) / 7, (day - 20_458) % 7;
    assert day - 20_458 == week * 7 + weekday;
    assert (day + 3) % 7 == weekday by { assert day + 3 == (week + 2923) * 7 + weekday; }
    var ahead := weekday * 86400 + second - 32_400;
    assert t - 1_767_603_600 == week * 604_800 + ahead;
    if ahead >= 0 {
      SecondsIntoWeek(t - 1_767_603_600, week, ahead);
    } else {
      SecondsIntoWeek(t - 1_767_603_600, week - 1, ahead + 604_800);
    }
  }

  lemma SecondsIntoWeek(seconds: int, week: int, rest: int)
    requires seconds == week * 604_800 + rest && 0 <= rest < 604_800
    ensures seconds % 604_800 == rest
  {}

  /** A digest goes out on every look in the slot with the setting on, unless one did in the last twenty hours. */
  lemma DigestGoesOut(last: Option<int>, looks: seq<Look>, offset: int, k: nat)
    requires k < |looks|
    ensures
      var mark, now := LastSent(last, looks, offset, k), looks[k].now;
      var due := looks[k].enabled && IsDigestSlot(now, offset) && (mark.Some? ==> now >= mark.value + 72_000);
      && (Sends(mark, looks[k], offset) <==> due)
      && LastSent(last, looks, offset, k + 1) == if due then Some(now) else mark
  {}

  /** However the clock jumps, two digests go out on different Mondays, at least the guard time apart. */
  lemma OneDigestPerMonday(last: Option<int>, looks: seq<Look>, offset: int, i: nat, j: nat)
    requires i < j < |looks|
    requires Sends(LastSent(last, looks, offset, i), looks[i], offset)
    requires Sends(LastSent(last, looks, offset, j), looks[j], offset)
    ensures looks[j].now - looks[i].now >= DIGEST_GUARD_SECS
    ensures (looks[j].now + offset) / 86400 - (looks[i].now + offset) / 86400 >= 7
  {
    hide LastSent, Trends.WeekdayHour;
    MarkOnlyAdvances(last, looks, offset, i, j);
    SameMondayIsClose(looks[i].now + offset, looks[j].now + offset);
  }

  class DigestGuard {
    const offset: int
    const detached: bool
    var digestLastSent: Option<int>

    constructor (offset: int, detached: bool, digestLastSent: Option<int>)
      ensures this.offset == offset && this.detached == detached && this.digestLastSent == digestLastSent
    {
      this.offset, this.detached, this.digestLastSent := offset, detached, digestLastSent;
    }

    method MaybeSendWeeklyDigest(look: Look) returns (fire: bool)
      modifies this
      ensures fire <==> !detached && Sends(old(digestLastSent), look, offset)
      ensures digestLastSent == if fire then Some(look.now) else old(digestLastSent)
    {
      fire := false;
      if detached { return; }
      if !IsDigestSlot(look.now, offset) { return; }
      if !look.enabled { return; }
      if digestLastSent.Some? && look.now - digestLastSent.value < DIGEST_GUARD_SECS { return; }
      digestLastSent := Some(look.now);
      fire := true;
    }
  }
}
