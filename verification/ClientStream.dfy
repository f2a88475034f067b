/** The client connection: one reader thread forwarding messages, subscribers joining at any moment. */
module ClientStream {
  import opened Order
  import opened Fanout
  import opened Protocol
  import opened LastValue
  import Dashboard

  /** Where the reader thread stands between two critical sections. */
  datatype Phase = Reading | Inserted(message: Message) | Flagged | Cleared | Ended

  datatype State = State(
    cache: Cache,
    dashboard: seq<int>,
    channels: map<int, Channel<Message>>,
    disconnected: bool,
    phase: Phase)

  datatype Action =
    | Insert(message: Message)   // first half of a forward: under the cache lock
    | FanOut                     // second half: under the dashboard lock
    | Subscribe(id: int)         // under both locks
    | Drop(id: int)              // the subscriber goes away
    | StoreFlag
    | ClearDashboard
    | ClearCache

  const CONNECTED := State(map[], [], map[], false, Reading)

  predicate Enabled(s: State, a: Action) {
    match a
    case Insert(_) => s.phase.Reading?
    case FanOut => s.phase.Inserted?
    case Subscribe(id) => id !in s.channels
    case Drop(id) => id in s.channels
    case StoreFlag => s.phase.Reading?
    case ClearDashboard => s.phase.Flagged?
    case ClearCache => s.phase.Cleared?
  }

  ghost function Next(s: State, a: Action): State
    requires Enabled(s, a)
  {
    match a
    case Insert(m) => s.(cache := Remember(s.cache, m), phase := Inserted(m))
    case FanOut =>
      var n := |s.dashboard|;
      s.(dashboard := Retained(s.dashboard, s.channels, n),
         channels := Sent(s.dashboard, s.channels, s.phase.message, n),
         phase := Reading)
    case Subscribe(id) =>
      s.(channels := s.channels[id := Channel(Replay(s.cache), true)],
         dashboard := if s.disconnected then s.dashboard else s.dashboard + [id])
    case Drop(id) => s.(channels := s.channels[id := s.channels[id].(open := false)])
    case StoreFlag => s.(disconnected := true, phase := Flagged)
    case ClearDashboard => s.(dashboard := [], phase := Cleared)
    case ClearCache => s.(cache := map[], phase := Ended)
  }

  // ----- what an observer remembers of a run -----

  /** `log`: messages forwarded so far; `joined`: how many of them were in the cache when a subscriber came;
      `start`: the first message it was sent live. */
  datatype History = History(log: seq<Message>, joined: map<int, nat>, start: map<int, nat>)

  datatype Run = Run(state: State, history: History)

  function FannedOut(s: State, h: History): int {
    if s.phase.Inserted? then |h.log| - 1 else |h.log|
  }

  function Observed(s: State, h: History, a: Action): History {
    match a
    case Insert(m) => h.(log := h.log + [m])
    case Subscribe(id) =>
      if s.disconnected || FannedOut(s, h) < 0 then h
      else h.(joined := h.joined[id := |h.log|], start := h.start[id := FannedOut(s, h)])
    case _ => h
  }

  /** The run after `k` attempted steps of an interleaving; a step that is not enabled waits. */
  ghost function After(actions: seq<Action>, k: nat): Run
    requires k <= |actions|
  {
    if k == 0 then Run(CONNECTED, History([], map[], map[]))
    else
      var r, a := After(actions, k - 1), actions[k - 1];
      if Enabled(r.state, a) then Run(Next(r.state, a), Observed(r.state, r.history, a)) else r
  }

  // ----- invariant -----

  ghost predicate PhaseInv(s: State, h: History) {
    && (s.phase.Inserted? ==> h.log != [] && h.log[|h.log| - 1] == s.phase.message)
    && (!s.phase.Ended? ==> s.cache == CacheOf(h.log))
    && (s.disconnected <==> s.phase.Flagged? || s.phase.Cleared? || s.phase.Ended?)
    && (s.phase.Cleared? || s.phase.Ended? ==> s.dashboard == [])
    && (s.phase.Ended? ==> s.cache == map[])
  }

  /** A registered subscriber got the replay taken when it joined, then every later message in order;
      if it joined between the two halves of a forward, the message in between comes a second time. */
  ghost predicate ChannelInv(s: State, h: History, id: int) {
    && id in s.channels && id in h.joined && id in h.start
    && h.joined[id] <= |h.log|
    && (h.start[id] == h.joined[id] || h.start[id] + 1 == h.joined[id])
    && h.start[id] <= FannedOut(s, h)
    && s.channels[id].received == Replay(CacheOf(h.log[..h.joined[id]])) + h.log[h.start[id]..FannedOut(s, h)]
  }

  ghost predicate Inv(s: State, h: History) {
    && PhaseInv(s, h)
    && Distinct(s.dashboard)
    && (forall id :: id in h.joined ==> id in s.channels)
    && (forall id :: id in s.dashboard ==> id in s.channels)
    && (forall id {:trigger ChannelInv(s, h, id)} :: id in s.dashboard && s.channels[id].open ==> ChannelInv(s, h, id))
    && (forall id :: Open(s.channels, id) && id in h.joined && !s.phase.Cleared? && !s.phase.Ended?
          ==> id in s.dashboard)
  }

  lemma LogGrows(log: seq<Message>, m: Message, joined: nat, start: nat)
    requires joined <= |log| && start <= |log|
    ensures (log + [m])[..joined] == log[..joined]
    ensures (log + [m])[start..|log|] == log[start..]
    ensures (log + [m])[start..|log| + 1] == log[start..] + [m]
  {}

  lemma CacheOfOneMore(log: seq<Message>, m: Message)
    ensures CacheOf(log + [m]) == Remember(CacheOf(log), m)
  {
    FoldedPrefix(map[], log, [m], |log|);
  }

  lemma InsertKeepsInv(s: State, h: History, m: Message)
    requires Inv(s, h) && s.phase.Reading?
    ensures Inv(Next(s, Insert(m)), Observed(s, h, Insert(m)))
  {
    hide CacheOf, Replay, Remember;
    var s', h' := Next(s, Insert(m)), Observed(s, h, Insert(m));
    CacheOfOneMore(h.log, m);
    forall id | id in s'.dashboard && s'.channels[id].open ensures ChannelInv(s', h', id) {
      assert ChannelInv(s, h, id);
      LogGrows(h.log, m, h.joined[id], h.start[id]);
    }
  }

  lemma FanOutKeepsInv(s: State, h: History)
    requires Inv(s, h) && s.phase.Inserted?
    ensures Inv(Next(s, FanOut), h)
  {
    hide CacheOf, Replay, Sent, Retained;
    var s', n, m := Next(s, FanOut), |s.dashboard|, s.phase.message;
    SentOnce(s.dashboard, s.channels, m, n);
    RetainedMembers(s.dashboard, s.channels, n);
    assert s.dashboard[..n] == s.dashboard;
    forall id | id in s'.dashboard && s'.channels[id].open ensures ChannelInv(s', h, id) {
      assert ChannelInv(s, h, id);
      var f := |h.log| - 1;
      assert h.log[h.start[id]..f + 1] == h.log[h.start[id]..f] + [m];
    }
  }

  lemma {:induction false} SubscribeKeepsInv(s: State, h: History, id: int)
    requires Inv(s, h) && id !in s.channels
    ensures Inv(Next(s, Subscribe(id)), Observed(s, h, Subscribe(id)))
  {
    hide CacheOf, Replay;
    var s', h' := Next(s, Subscribe(id)), Observed(s, h, Subscribe(id));
    forall x | x in s'.dashboard && s'.channels[x].open ensures ChannelInv(s', h', x) {
      if x != id {
        assert x in s.dashboard;
        assert ChannelInv(s, h, x);
      } else {
        assert !s.disconnected;
        assert h.log[..|h.log|] == h.log;
        assert h.log[FannedOut(s, h)..FannedOut(s, h)] == [];
      }
    }
  }

  lemma OtherStepsKeepInv(s: State, h: History, a: Action)
    requires Inv(s, h) && Enabled(s, a) && !a.Insert? && !a.FanOut? && !a.Subscribe?
    ensures Inv(Next(s, a), h)
  {
    var s' := Next(s, a);
    forall x | x in s'.dashboard && s'.channels[x].open ensures ChannelInv(s', h, x) {
      assert x in s.dashboard;
      assert ChannelInv(s, h, x);
    }
  }

  lemma StepKeepsInv(s: State, h: History, a: Action)
    requires Inv(s, h) && Enabled(s, a)
    ensures Inv(Next(s, a), Observed(s, h, a))
  {
    match a {
      case Insert(m) => InsertKeepsInv(s, h, m);
      case FanOut => FanOutKeepsInv(s, h);
      case Subscribe(id) => SubscribeKeepsInv(s, h, id);
      case _ => OtherStepsKeepInv(s, h, a);
    }
  }

  /** Every reachable state of every interleaving satisfies the invariant. */
  lemma {:induction false} Reachable(actions: seq<Action>, k: nat)
    requires k <= |actions|
    ensures Inv(After(actions, k).state, After(actions, k).history)
  {
    hide Inv, Next, Observed;
    if k > 0 {
      Reachable(actions, k - 1);
      var r, a := After(actions, k - 1), actions[k - 1];
      if Enabled(r.state, a) { StepKeepsInv(r.state, r.history, a); }
    } else {
      StartIsSound();
    }
  }

  lemma StartIsSound()
    ensures Inv(CONNECTED, History([], map[], map[]))
  {}

  // ----- what subscribers can rely on -----

  predicate LiveSubscriber(r: Run, id: int) {
    Open(r.state.channels, id) && id in r.history.joined
  }

  lemma RememberTwice(c: Cache, m: Message)
    ensures Remember(Remember(c, m), m) == Remember(c, m)
  {}

  lemma {:induction false} FoldedOverlap(log: seq<Message>, joined: nat, start: nat)
    requires joined <= |log| && (start == joined || start + 1 == joined)
    ensures Folded(CacheOf(log[..joined]), log[start..], |log| - start) == CacheOf(log)
  {
    assert log[..joined] + log[joined..] == log;
    FoldedPrefix(map[], log[..joined], log[joined..], joined);
    if start == joined {
      FoldedSlice(map[], log, start, |log| - start);
    } else {
      // The message the subscriber gets twice leaves the cache as it was.
      var m := log[start];
      RememberTwice(Folded(map[], log, start), m);
      FoldedSlice(map[], log, joined, |log| - joined);
      assert log[start..] == [m] + log[joined..];
      FoldedAppend(CacheOf(log[..joined]), [m], log[joined..], |log| - joined);
      assert Folded(CacheOf(log[..joined]), [m], 1) == Remember(CacheOf(log[..joined]), m);
    }
  }

  lemma StreamFoldsToCache(log: seq<Message>, joined: nat, start: nat)
    requires joined <= |log| && (start == joined || start + 1 == joined)
    ensures CacheOf(Replay(CacheOf(log[..joined])) + log[start..]) == CacheOf(log)
  {
    hide Replay, Folded;
    var c := CacheOf(log[..joined]);
    var replay, tail := Replay(c), log[start..];
    FoldedIsKeyed(map[], log[..joined], joined);
    ReplayRestoresCache(c);
    FoldedAppend(map[], replay, tail, |tail|);
    FoldedOverlap(log, joined, start);
    assert |replay + tail| == |replay| + |tail|;
  }

  lemma RegisteredFoldsToCache(s: State, h: History, id: int)
    requires Inv(s, h) && s.phase.Reading? && Open(s.channels, id) && id in h.joined
    ensures CacheOf(s.channels[id].received) == s.cache
  {
    hide CacheOf, Replay;
    assert ChannelInv(s, h, id);
    hide Inv, PhaseInv;
    assert h.log[h.start[id]..|h.log|] == h.log[h.start[id]..];
    StreamFoldsToCache(h.log, h.joined[id], h.start[id]);
  }

  /** No gap: between forwards each live subscriber's stream folds to the reader's cache, whatever the interleaving. */
  lemma NoGap(actions: seq<Action>, k: nat, id: int)
    requires k <= |actions| && After(actions, k).state.phase.Reading? && LiveSubscriber(After(actions, k), id)
    ensures CacheOf(After(actions, k).state.channels[id].received) == After(actions, k).state.cache
  {
    hide After, Inv, CacheOf;
    Reachable(actions, k);
    RegisteredFoldsToCache(After(actions, k).state, After(actions, k).history, id);
  }

  /** A replay of the first `joined` messages, then everything from `start` on: all of it, at most one message twice. */
  ghost predicate GotEverythingSince(received: seq<Message>, log: seq<Message>, joined: nat, start: nat) {
    && joined <= |log| && joined - 1 <= start <= joined
    && received == Replay(CacheOf(log[..joined])) + log[start..]
  }

  lemma RegisteredGotEverything(s: State, h: History, id: int)
    requires Inv(s, h) && s.phase.Reading? && Open(s.channels, id) && id in h.joined
    ensures id in h.start && GotEverythingSince(s.channels[id].received, h.log, h.joined[id], h.start[id])
  {
    hide CacheOf, Replay;
    assert ChannelInv(s, h, id);
    assert h.log[h.start[id]..|h.log|] == h.log[h.start[id]..];
  }

  /** Every message forwarded after a subscriber joined reaches it in order; at most the one in flight repeats. */
  lemma EveryLaterMessageArrives(actions: seq<Action>, k: nat, id: int)
    requires k <= |actions| && After(actions, k).state.phase.Reading? && LiveSubscriber(After(actions, k), id)
    ensures id in After(actions, k).history.start
    ensures
      var s, h := After(actions, k).state, After(actions, k).history;
      GotEverythingSince(s.channels[id].received, h.log, h.joined[id], h.start[id])
  {
    hide After;
    Reachable(actions, k);
    RegisteredGotEverything(After(actions, k).state, After(actions, k).history, id);
  }

  /** Once the dashboard list has been cleared no sender is registered, then or ever after. */
  lemma {:induction false} NoSenderStaysRegistered(actions: seq<Action>, k: nat, j: nat)
    requires k <= j <= |actions|
    requires After(actions, k).state.phase.Cleared? || After(actions, k).state.phase.Ended?
    ensures After(actions, j).state.dashboard == []
    ensures After(actions, j).state.phase.Cleared? || After(actions, j).state.phase.Ended?
  {
    Reachable(actions, j);
    if k < j { NoSenderStaysRegistered(actions, k, j - 1); }
  }

  /** After a fan-out only subscribers whose receiver still exists are registered. */
  lemma GoneSubscribersAreForgotten(actions: seq<Action>, k: nat)
    requires k < |actions| && actions[k] == FanOut && Enabled(After(actions, k).state, FanOut)
    ensures
      var s, s' := After(actions, k).state, After(actions, k + 1).state;
      forall id :: id in s'.dashboard <==> id in s.dashboard && Open(s.channels, id)
  {
    Reachable(actions, k);
    var s := After(actions, k).state;
    RetainedMembers(s.dashboard, s.channels, |s.dashboard|);
    assert s.dashboard[..|s.dashboard|] == s.dashboard;
  }

  lemma ClosedStep(s: State, h: History, a: Action, id: int)
    requires Inv(s, h) && Enabled(s, a) && id in s.channels && !s.channels[id].open
    ensures id in Next(s, a).channels && Next(s, a).channels[id] == s.channels[id]
  {
    hide Sent, Retained, Replay, CacheOf;
    if a.FanOut? { SentOnce(s.dashboard, s.channels, s.phase.message, |s.dashboard|); }
  }

  /** A subscriber that went away receives nothing more, and stays away. */
  lemma {:induction false} GoneSubscribersGetNothing(actions: seq<Action>, k: nat, m: nat, id: int)
    requires k < m <= |actions| && actions[k] == Drop(id) && id in After(actions, k).state.channels
    ensures id in After(actions, m).state.channels
    ensures
      After(actions, m).state.channels[id] == Channel(After(actions, k).state.channels[id].received, false)
  {
    hide Inv, Observed;
    Reachable(actions, m - 1);
    var r := After(actions, m - 1);
    if k < m - 1 {
      GoneSubscribersGetNothing(actions, k, m - 1, id);
      hide Next;
      if Enabled(r.state, actions[m - 1]) { ClosedStep(r.state, r.history, actions[m - 1], id); }
    }
  }

  predicate Disconnecting(s: State) { s.phase.Flagged? || s.phase.Cleared? || s.phase.Ended? }

  /** The cache of an ended connection is empty. */
  lemma EndedHoldsNothing(actions: seq<Action>, k: nat)
    requires k <= |actions| && After(actions, k).state.phase.Ended?
    ensures After(actions, k).state.cache == map[] && After(actions, k).state.dashboard == []
  {
    Reachable(actions, k);
  }

  lemma DisconnectedStep(s: State, h: History, a: Action, id: int)
    requires Inv(s, h) && Enabled(s, a) && Disconnecting(s)
    ensures Disconnecting(Next(s, a)) && (s.phase.Ended? ==> Next(s, a).phase.Ended?)
    ensures Observed(s, h, a).log == h.log
    ensures
      id in s.channels ==>
        id in Next(s, a).channels && Next(s, a).channels[id].received == s.channels[id].received
  {
    hide Replay, CacheOf;
  }

  /** Once the flag is up nothing more is forwarded: every channel holds what it held. */
  lemma {:induction false} NothingArrivesAfterTheFlag(actions: seq<Action>, k: nat, m: nat, id: int)
    requires k <= m <= |actions| && Disconnecting(After(actions, k).state)
    ensures Disconnecting(After(actions, m).state) && After(actions, m).history.log == After(actions, k).history.log
    ensures After(actions, k).state.phase.Ended? ==> After(actions, m).state.phase.Ended?
    ensures
      id in After(actions, k).state.channels ==>
        id in After(actions, m).state.channels
        && After(actions, m).state.channels[id].received == After(actions, k).state.channels[id].received
  {
    hide Next, Observed, Inv, Disconnecting;
    if k < m {
      NothingArrivesAfterTheFlag(actions, k, m - 1, id);
      Reachable(actions, m - 1);
      var r := After(actions, m - 1);
      if Enabled(r.state, actions[m - 1]) { DisconnectedStep(r.state, r.history, actions[m - 1], id); }
    }
  }

  /**
   * A subscriber that joins while the connection is being cleaned up gets the replay of everything forwarded so
   * far, as long as the cache is not cleared, and afterwards an empty replay; never anything after it.
   */
  lemma LateJoinersGetTheReplayOnly(actions: seq<Action>, k: nat, m: nat, id: int)
    requires k < m <= |actions| && actions[k] == Subscribe(id)
    requires Disconnecting(After(actions, k).state) && id !in After(actions, k).state.channels
    ensures id in After(actions, m).state.channels
    ensures
      var r := After(actions, k);
      After(actions, m).state.channels[id].received
      == if r.state.phase.Ended? then [] else Replay(CacheOf(r.history.log))
  {
    hide CacheOf;
    Reachable(actions, k);
    var r := After(actions, k);
    assert After(actions, k + 1).state == Next(r.state, Subscribe(id));
    EmptyReplay();
    hide Replay, After, Inv;
    assert After(actions, k + 1).state.channels[id].received == Replay(r.state.cache);
    NothingArrivesAfterTheFlag(actions, k, k + 1, id);
    NothingArrivesAfterTheFlag(actions, k + 1, m, id);
  }

  lemma EmptyReplay()
    ensures Replay(map[]) == []
  {}

  /** Whoever first subscribes to an ended connection never receives anything. */
  lemma {:induction false} EndedConnectionsAreSilent(actions: seq<Action>, k: nat, m: nat, id: int)
    requires k <= m <= |actions| && After(actions, k).state.phase.Ended?
    requires id !in After(actions, k).state.channels && id in After(actions, m).state.channels
    ensures After(actions, m).state.channels[id].received == []
  {
    hide Replay, CacheOf, Inv, Next, Observed;
    if k < m {
      if id in After(actions, m - 1).state.channels {
        EndedConnectionsAreSilent(actions, k, m - 1, id);
        NothingArrivesAfterTheFlag(actions, k, m - 1, id);
        NothingArrivesAfterTheFlag(actions, m - 1, m, id);
      } else {
        NothingArrivesAfterTheFlag(actions, k, m - 1, id);
        OnlySubscribingOpens(actions, m - 1, id);
        LateJoinersGetTheReplayOnly(actions, m - 1, m, id);
      }
    }
  }

  lemma OnlySubscribingOpens(actions: seq<Action>, k: nat, id: int)
    requires k < |actions| && Disconnecting(After(actions, k).state)
    requires id !in After(actions, k).state.channels && id in After(actions, k + 1).state.channels
    ensures actions[k] == Subscribe(id)
  {
    Reachable(actions, k);
  }

  /** What a live subscriber shows between forwards is what a desktop that saw every message shows. */
  lemma SubscriberShowsEverything(actions: seq<Action>, k: nat, id: int, series: Series)
    requires k <= |actions| && After(actions, k).state.phase.Reading? && LiveSubscriber(After(actions, k), id)
    requires Unambiguous(series)
    requires Dashboard.UnambiguousStream(After(actions, k).history.log)
    requires Dashboard.AlwaysListed(After(actions, k).history.log, series.env)
    ensures var r := After(actions, k);
      && Dashboard.Shown(r.state.channels[id].received).environments == Dashboard.Shown(r.history.log).environments
      && Dashboard.Lookup(Dashboard.Shown(r.state.channels[id].received), series)
           == Dashboard.Lookup(Dashboard.Shown(r.history.log), series)
  {
    var r := After(actions, k);
    var log, received := r.history.log, r.state.channels[id].received;
    Reachable(actions, k);
    NoGap(actions, k, id);
    EveryLaterMessageArrives(actions, k, id);
    forall i | 0 <= i < |received| ensures received[i] in log {
      ReceivedFromLog(log, r.history.joined[id], r.history.start[id], i);
    }
    Dashboard.SameCacheSameDashboard(received, log, series);
  }

  lemma {:induction false} ReceivedFromLog(log: seq<Message>, joined: nat, start: nat, i: nat)
    requires joined <= |log| && start <= |log|
    requires i < |Replay(CacheOf(log[..joined])) + log[start..]|
    ensures (Replay(CacheOf(log[..joined])) + log[start..])[i] in log
  {
    var c := CacheOf(log[..joined]);
    if i < |Replay(c)| {
      var key := Sorted(c.Keys)[i];
      assert Replay(c)[i] == c[key];
      hide Replay, Folded, At, LexLe, Sorted;
      Dashboard.FoldedHoldsStreamMessages(log[..joined], joined, key);
      var j :| 0 <= j < joined && log[..joined][j] == c[key];
      assert log[j] == c[key];
    } else {
      hide Replay;
      assert log[start..][i - |Replay(c)|] == log[start + i - |Replay(c)|];
    }
  }

  // ----- the shared connection object -----

  method FirstKey(keys: set<string>) returns (first: string)
    requires keys != {}
    ensures first == First(keys)
  {
    FirstExists(keys);
    first :| first in keys && forall k :: k in keys ==> LexLe(first, k);
    FirstIsUnique(first, keys);
  }

  ghost function ReplayFrom(c: Cache, todo: set<string>): seq<Message>
    requires todo <= c.Keys
  {
    At(c, Sorted(todo))
  }

  lemma ReplayFromFirst(c: Cache, todo: set<string>)
    requires todo <= c.Keys && todo != {}
    ensures ReplayFrom(c, todo) == [c[First(todo)]] + ReplayFrom(c, todo - {First(todo)})
  {
    assert Sorted(todo) == [First(todo)] + Sorted(todo - {First(todo)});
  }

  /** Walks the cache in key order. */
  method CacheValues(cache: Cache) returns (replay: seq<Message>)
    ensures replay == Replay(cache)
  {
    replay := [];
    var todo := cache.Keys;
    while todo != {}
      invariant todo <= cache.Keys
      invariant replay + ReplayFrom(cache, todo) == Replay(cache)
      decreases |todo|
    {
      var key := FirstKey(todo);
      ReplayFromFirst(cache, todo);
      AppendAssociates(replay, [cache[key]], ReplayFrom(cache, todo - {key}));
      replay := replay + [cache[key]];
      todo := todo - {key};
    }
  }

  class ClientInner {
    var cache: Cache
    var dashboard: seq<int>
    var channels: map<int, Channel<Message>>
    var disconnected: bool
    ghost var phase: Phase

    ghost function View(): State
      reads this
    {
      State(cache, dashboard, channels, disconnected, phase)
    }

    constructor ()
      ensures View() == CONNECTED
    {
      cache, dashboard, channels, disconnected, phase := map[], [], map[], false, Reading;
    }

    /** First half of a forward. */
    method RememberLatest(m: Message)
      requires Enabled(View(), Insert(m))
      modifies this
      ensures View() == Next(old(View()), Insert(m))
    {
      var key := CacheKey(m);
      if key.Some? { cache := cache[key.value := m]; }
      phase := Inserted(m);
    }

    /** Second half: sends to every registered subscriber and forgets those that are gone. */
    method SendToSubscribers(m: Message)
      requires phase == Inserted(m)
      modifies this
      ensures View() == Next(old(View()), FanOut)
    {
      var kept: seq<int> := [];
      for i := 0 to |dashboard|
        invariant dashboard == old(dashboard) && cache == old(cache)
        invariant disconnected == old(disconnected) && phase == old(phase)
        invariant channels == Sent(dashboard, old(channels), m, i)
        invariant kept == Retained(dashboard, old(channels), i)
      {
        var id := dashboard[i];
        SentKeepsOpen(dashboard, old(channels), m, i, id);
        if id in channels && channels[id].open {
          channels := channels[id := channels[id].(received := channels[id].received + [m])];
          kept := kept + [id];
        }
      }
      dashboard := kept;
      phase := Reading;
    }

    /** Replays the cache and registers, in one critical section. */
    method SubscribeDashboard(id: int)
      requires Enabled(View(), Subscribe(id))
      modifies this
      ensures View() == Next(old(View()), Subscribe(id))
    {
      var replay := CacheValues(cache);
      channels := channels[id := Channel(replay, true)];
      if !disconnected { dashboard := dashboard + [id]; }
    }

    /** The three cleanup steps after the read loop. */
    method MarkDisconnected()
      requires Enabled(View(), StoreFlag)
      modifies this
      ensures View() == Next(old(View()), StoreFlag)
    {
      disconnected := true;
      phase := Flagged;
    }

    method ClearSubscribers()
      requires Enabled(View(), ClearDashboard)
      modifies this
      ensures View() == Next(old(View()), ClearDashboard)
    {
      dashboard := [];
      phase := Cleared;
    }

    method ClearCacheEntries()
      requires Enabled(View(), ClearCache)
      modifies this
      ensures View() == Next(old(View()), ClearCache)
    {
      cache := map[];
      phase := Ended;
    }
  }
}
