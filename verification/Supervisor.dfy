/** The daemon supervisor: one monitor thread replacing the daemon, subscribers joining at any moment. */
module Supervisor {
  import opened Fanout
  import opened Protocol

  // ----- backoff -----

  const RESTART_BACKOFF_MIN := 500
  const RESTART_BACKOFF_MAX := 30_000

  function NextBackoff(current: nat): nat {
    if current * 2 <= RESTART_BACKOFF_MAX then current * 2 else RESTART_BACKOFF_MAX
  }

  function Pow2(n: nat): nat { if n == 0 then 1 else 2 * Pow2(n - 1) }

  function Min(a: int, b: int): int { if a <= b then a else b }

  /**
   * The delay variable in milliseconds once `n` failures in a row have doubled it. A failure pauses for the value
   * before it doubles it, so the pause after the n-th failure is that of n - 1.
   */
  function BackoffAfter(n: nat): nat { Min(RESTART_BACKOFF_MIN * Pow2(n), RESTART_BACKOFF_MAX) }

  lemma BackoffDoublesToCeiling(n: nat)
    ensures NextBackoff(BackoffAfter(n)) == BackoffAfter(n + 1)
    ensures BackoffAfter(0) == RESTART_BACKOFF_MIN
    ensures n >= 6 ==> BackoffAfter(n) == RESTART_BACKOFF_MAX
  {
    if n >= 6 { PowGrows(6, n); }
  }

  lemma {:induction false} PowGrows(m: nat, n: nat)
    requires m <= n
    ensures Pow2(m) <= Pow2(n)
  {
    if m < n { PowGrows(m, n - 1); }
  }

  // ----- the state machine -----

  /** A connection is named by the order in which it was made. */
  type Client = nat

  datatype Target = Local(client: Client) | Restarting(client: Client) | Remote(client: Client)

  /** Where the monitor thread stands. */
  datatype Monitor =
    | Polling
    | Replacing
    | Swapped(previous: Option<Client>)
    | Spawning
    | Spawned(client: Client)
    | Dialing
    | Dialed(client: Client)
    | Installed(client: Client)

  /** A subscriber registering: it holds the target lock from `Locked` until it is done. */
  datatype Joining = Nobody | Locked(id: int) | Pushed(id: int)

  datatype State = State(
    target: Target,
    monitor: Monitor,
    children: set<Client>,
    made: nat,
    updates: seq<int>,
    channels: map<int, Channel<Client>>,
    joining: Joining,
    backoff: nat,
    lastError: bool)

  datatype Action =
    | Poll(unhealthy: bool)
    | Swap
    | DropPrevious
    | Spawn(succeeds: bool)
    | Dial(succeeds: bool)
    | Install
    | Notify
    | Lock(id: int)
    | Push
    | SendCurrent
    | DropReceiver(id: int)
    | ChildExits(client: Client)

  /** Both monitors start with the first client connected and nobody subscribed. */
  function Started(local: bool): State {
    State(if local then Local(0) else Remote(0), Polling, if local then {0} else {}, 1, [], map[], Nobody,
          RESTART_BACKOFF_MIN, false)
  }

  predicate Enabled(s: State, a: Action) {
    match a
    case Poll(_) => s.monitor.Polling? && s.joining.Nobody?
    case Swap => s.monitor.Replacing? && s.joining.Nobody?
    case DropPrevious => s.monitor.Swapped?
    case Spawn(_) => s.monitor.Spawning?
    case Dial(_) => s.monitor.Dialing?
    case Install => (s.monitor.Spawned? || s.monitor.Dialed?) && s.joining.Nobody?
    case Notify => s.monitor.Installed?
    case Lock(id) => s.joining.Nobody? && id !in s.channels
    case Push => s.joining.Locked?
    case SendCurrent => s.joining.Pushed? && s.joining.id in s.channels
    case DropReceiver(id) => id in s.channels && s.joining != Pushed(id)
    case ChildExits(c) => c in s.children
  }

  function Healthy(s: State): State { s.(backoff := RESTART_BACKOFF_MIN) }

  function Failed(s: State): State {
    s.(monitor := Polling, backoff := NextBackoff(s.backoff), lastError := true)
  }

  function Next(s: State, a: Action): State
    requires Enabled(s, a)
  {
    match a
    case Poll(unhealthy) =>
      if s.target.Remote? then (if unhealthy then s.(monitor := Dialing) else Healthy(s))
      else if s.target.Restarting? || unhealthy then s.(monitor := Replacing)
      else Healthy(s)
    case Swap =>
      if s.target.Local? then s.(target := Restarting(s.target.client), monitor := Swapped(Some(s.target.client)))
      else if s.target.Restarting? then s.(monitor := Swapped(None))
      else Failed(s)
    case DropPrevious =>
      s.(monitor := Spawning,
         children := if s.monitor.previous.Some? then s.children - {s.monitor.previous.value} else s.children)
    case Spawn(succeeds) =>
      if succeeds then s.(monitor := Spawned(s.made), children := s.children + {s.made}, made := s.made + 1)
      else Failed(s)
    case Dial(succeeds) =>
      if succeeds then s.(monitor := Dialed(s.made), made := s.made + 1) else Failed(s)
    case Install =>
      var client := s.monitor.client;
      s.(target := if s.monitor.Spawned? then Local(client) else Remote(client), monitor := Installed(client))
    case Notify =>
      var n := |s.updates|;
      Healthy(s).(channels := Sent(s.updates, s.channels, s.monitor.client, n),
                  updates := Retained(s.updates, s.channels, n),
                  monitor := Polling, lastError := false)
    case Lock(id) => s.(joining := Locked(id))
    case Push =>
      s.(updates := s.updates + [s.joining.id],
         channels := s.channels[s.joining.id := Channel([], true)],
         joining := Pushed(s.joining.id))
    case SendCurrent => s.(channels := Appended(s.channels, s.joining.id, s.target.client), joining := Nobody)
    case DropReceiver(id) => s.(channels := s.channels[id := s.channels[id].(open := false)])
    case ChildExits(c) => s.(children := s.children - {c})
  }

  /** The supervisor after `k` attempted steps; a step that is not enabled waits. */
  function After(local: bool, actions: seq<Action>, k: nat): State
    requires k <= |actions|
  {
    if k == 0 then Started(local)
    else
      var s := After(local, actions, k - 1);
      if Enabled(s, actions[k - 1]) then Next(s, actions[k - 1]) else s
  }

  // ----- invariant -----

  /** Which child processes may be alive. */
  function Owned(s: State): set<Client> {
    match s.monitor
    case Swapped(previous) => if previous.Some? then {previous.value} else {}
    case Spawned(client) => {client}
    case _ => if s.target.Local? then {s.target.client} else {}
  }

  predicate MonitorInv(s: State) {
    && s.target.client < s.made
    && s.children <= Owned(s)
    && match s.monitor
       case Polling => true
       case Replacing => !s.target.Remote?
       case Swapped(previous) => s.target.Restarting? && (previous.Some? ==> previous.value == s.target.client)
       case Spawning => s.target.Restarting?
       case Spawned(client) => s.target.Restarting? && s.target.client < client < s.made
       case Dialing => s.target.Remote?
       case Dialed(client) => s.target.Remote? && s.target.client < client < s.made
       case Installed(client) => !s.target.Restarting? && s.target.client == client
  }

  predicate Ascending(s: seq<Client>) { forall i, j :: 0 <= i < j < |s| ==> s[i] <= s[j] }

  predicate ChannelInv(s: State, id: int)
    requires id in s.channels
  {
    var r := s.channels[id].received;
    && Ascending(r)
    && (forall i :: 0 <= i < |r| ==> r[i] <= s.target.client)
    && (s.joining == Pushed(id) ==> forall i :: 0 <= i < |r| ==> r[i] == s.target.client)
    && (s.channels[id].open && s.joining != Pushed(id) ==>
          r != [] && (s.monitor.Installed? || r[|r| - 1] == s.target.client))
  }

  ghost predicate SubscriberInv(s: State) {
    && Distinct(s.updates)
    && (forall id :: id in s.updates ==> id in s.channels)
    && (forall id :: Open(s.channels, id) ==> id in s.updates)
    && (s.joining.Locked? ==> s.joining.id !in s.channels)
    && (s.joining.Pushed? ==> s.joining.id in s.channels)
    && (forall id :: id in s.channels ==> ChannelInv(s, id))
  }

  lemma StepKeepsMonitorInv(s: State, a: Action)
    requires MonitorInv(s) && Enabled(s, a)
    ensures MonitorInv(Next(s, a))
  {}

  lemma NotifyKeepsSubscriberInv(s: State)
    requires MonitorInv(s) && SubscriberInv(s) && s.monitor.Installed?
    ensures SubscriberInv(Next(s, Notify))
  {
    hide Sent, Retained;
    var n, s' := |s.updates|, Next(s, Notify);
    SentOnce(s.updates, s.channels, s.monitor.client, n);
    RetainedMembers(s.updates, s.channels, n);
    assert s.updates[..n] == s.updates;
    forall id | id in s'.channels ensures ChannelInv(s', id) {
      assert ChannelInv(s, id);
    }
  }

  predicate Joins(a: Action) { a.Lock? || a.Push? || a.SendCurrent? || a.DropReceiver? }

  lemma MonitorStepKeepsSubscriberInv(s: State, a: Action)
    requires MonitorInv(s) && SubscriberInv(s) && Enabled(s, a) && !a.Notify? && !Joins(a)
    ensures SubscriberInv(Next(s, a))
  {
    var s' := Next(s, a);
    assert s'.channels == s.channels && s'.updates == s.updates && s'.joining == s.joining;
    forall id | id in s'.channels ensures ChannelInv(s', id) {
      assert ChannelInv(s, id);
    }
  }

  lemma SendCurrentKeepsSubscriberInv(s: State)
    requires MonitorInv(s) && SubscriberInv(s) && Enabled(s, SendCurrent)
    ensures SubscriberInv(Next(s, SendCurrent))
  {
    var s', joined := Next(s, SendCurrent), s.joining.id;
    forall id | id in s'.channels ensures ChannelInv(s', id) {
      assert ChannelInv(s, id);
    }
    forall id | Open(s'.channels, id) ensures id in s'.updates {
      assert Open(s.channels, id);
    }
  }

  lemma JoinStepKeepsSubscriberInv(s: State, a: Action)
    requires SubscriberInv(s) && Enabled(s, a) && (a.Lock? || a.Push? || a.DropReceiver?)
    ensures SubscriberInv(Next(s, a))
  {
    var s' := Next(s, a);
    forall id | id in s'.channels ensures ChannelInv(s', id) {
      if id in s.channels { assert ChannelInv(s, id); }
    }
    forall id | Open(s'.channels, id) ensures id in s'.updates {
      if id in s.channels { assert Open(s.channels, id); }
    }
  }

  /** Every interleaving of the monitor with subscribers keeps the invariant. */
  lemma {:induction false} Reachable(local: bool, actions: seq<Action>, k: nat)
    requires k <= |actions|
    ensures MonitorInv(After(local, actions, k)) && SubscriberInv(After(local, actions, k))
  {
    if k > 0 {
      Reachable(local, actions, k - 1);
      var s, a := After(local, actions, k - 1), actions[k - 1];
      if Enabled(s, a) {
        StepKeepsMonitorInv(s, a);
        if a.Notify? { NotifyKeepsSubscriberInv(s); }
        else if a.SendCurrent? { SendCurrentKeepsSubscriberInv(s); }
        else if Joins(a) { JoinStepKeepsSubscriberInv(s, a); }
        else { MonitorStepKeepsSubscriberInv(s, a); }
      }
    }
  }

  // ----- results -----

  /** Never two daemon children: the previous one is gone before its replacement is spawned. */
  lemma AtMostOneChild(local: bool, actions: seq<Action>, k: nat)
    requires k <= |actions|
    ensures |After(local, actions, k).children| <= 1
    ensures After(local, actions, k).monitor.Spawning? ==> After(local, actions, k).children == {}
    ensures !local ==> After(local, actions, k).children == {}
  {
    Reachable(local, actions, k);
    var s := After(local, actions, k);
    if s.children != {} {
      assert s.children == Owned(s);
    }
    if !local { RemoteStaysRemote(actions, k); }
  }

  /** A daemon child stays alive until it exits by itself or the monitor drops it: the owned one is there. */
  lemma {:induction false} AliveUntilItExits(local: bool, actions: seq<Action>, k: nat, c: Client)
    requires k <= |actions| && c in Owned(After(local, actions, k))
    requires forall j :: 0 <= j < k ==> actions[j] != ChildExits(c)
    ensures c in After(local, actions, k).children
  {
    if k > 0 {
      Reachable(local, actions, k - 1);
      var s := After(local, actions, k - 1);
      if c in Owned(s) { AliveUntilItExits(local, actions, k - 1, c); }
    }
  }

  /** After an announcement only subscribers whose receiver still exists are registered. */
  lemma GoneSubscribersAreForgotten(local: bool, actions: seq<Action>, k: nat)
    requires k < |actions| && actions[k] == Notify && Enabled(After(local, actions, k), Notify)
    ensures
      var s, s' := After(local, actions, k), After(local, actions, k + 1);
      forall id :: id in s'.updates <==> id in s.updates && Open(s.channels, id)
  {
    Reachable(local, actions, k);
    var s := After(local, actions, k);
    RetainedMembers(s.updates, s.channels, |s.updates|);
    assert s.updates[..|s.updates|] == s.updates;
  }

  /** A remote supervisor never owns a process: its target stays remote. */
  lemma {:induction false} RemoteStaysRemote(actions: seq<Action>, k: nat)
    requires k <= |actions|
    ensures After(false, actions, k).target.Remote?
    ensures !After(false, actions, k).monitor.Spawned?
  {
    if k > 0 {
      RemoteStaysRemote(actions, k - 1);
      Reachable(false, actions, k - 1);
    }
  }

  lemma {:induction false} LocalStaysLocal(actions: seq<Action>, k: nat)
    requires k <= |actions|
    ensures !After(true, actions, k).target.Remote?
    ensures !After(true, actions, k).monitor.Dialing? && !After(true, actions, k).monitor.Dialed?
  {
    if k > 0 {
      LocalStaysLocal(actions, k - 1);
      Reachable(true, actions, k - 1);
    }
  }

  /** Each subscriber sees clients in the order they were made; once it has joined, its latest is the
      current one except between a replacement's installation and its announcement. */
  lemma SubscribersFollowTheTarget(local: bool, actions: seq<Action>, k: nat, id: int)
    requires k <= |actions| && id in After(local, actions, k).channels
    ensures Ascending(After(local, actions, k).channels[id].received)
    ensures var s := After(local, actions, k);
      var r := s.channels[id].received;
      (s.channels[id].open && s.joining != Pushed(id) && !s.monitor.Installed? ==>
         r != [] && r[|r| - 1] == s.target.client)
  {
    Reachable(local, actions, k);
    assert ChannelInv(After(local, actions, k), id);
  }

  lemma ClosedStep(s: State, a: Action, id: int)
    requires MonitorInv(s) && SubscriberInv(s) && Enabled(s, a)
    requires id in s.channels && !s.channels[id].open && s.joining != Pushed(id)
    ensures
      var s' := Next(s, a);
      id in s'.channels && s'.channels[id] == s.channels[id] && s'.joining != Pushed(id)
  {
    hide Sent, Retained;
    if a.Notify? { SentOnce(s.updates, s.channels, s.monitor.client, |s.updates|); }
  }

  /** A subscriber that went away receives no client any more, and stays away. */
  lemma {:induction false} GoneSubscribersGetNothing(local: bool, actions: seq<Action>, k: nat, m: nat, id: int)
    requires k < m <= |actions| && actions[k] == DropReceiver(id) && Enabled(After(local, actions, k), actions[k])
    ensures id in After(local, actions, m).channels && After(local, actions, m).joining != Pushed(id)
    ensures
      After(local, actions, m).channels[id] == Channel(After(local, actions, k).channels[id].received, false)
  {
    hide MonitorInv, SubscriberInv;
    Reachable(local, actions, m - 1);
    var s := After(local, actions, m - 1);
    if k < m - 1 {
      GoneSubscribersGetNothing(local, actions, k, m - 1, id);
      hide Next;
      if Enabled(s, actions[m - 1]) { ClosedStep(s, actions[m - 1], id); }
    }
  }

  /** What a subscriber has while it joins and while a replacement awaits its announcement. */
  predicate FirstMayRepeat(s: State, r: seq<Client>, joining: bool) {
    && (forall i, j :: 1 <= i < j < |r| ==> r[i] < r[j])
    && (joining ==> |r| <= 1 && (s.monitor.Installed? ==> r == []))
    && (s.monitor.Installed? ==> |r| <= 1 || r[|r| - 1] < s.target.client)
  }

  lemma RepeatStep(s: State, a: Action, id: int)
    requires MonitorInv(s) && SubscriberInv(s) && Enabled(s, a) && id in Next(s, a).channels
    requires id in s.channels ==> FirstMayRepeat(s, s.channels[id].received, s.joining == Pushed(id))
    ensures FirstMayRepeat(Next(s, a), Next(s, a).channels[id].received, Next(s, a).joining == Pushed(id))
  {
    hide Sent, Retained;
    if a.Notify? { SentOnce(s.updates, s.channels, s.monitor.client, |s.updates|); }
    if id in s.channels { assert ChannelInv(s, id); }
  }

  /** Each subscriber gets every client at most once, except that the first it gets may come a second time. */
  lemma {:induction false} OnlyTheFirstClientRepeats(local: bool, actions: seq<Action>, k: nat, id: int)
    requires k <= |actions| && id in After(local, actions, k).channels
    ensures
      var r := After(local, actions, k).channels[id].received;
      forall i, j :: 1 <= i < j < |r| ==> r[i] < r[j]
    ensures
      var s := After(local, actions, k);
      FirstMayRepeat(s, s.channels[id].received, s.joining == Pushed(id))
  {
    hide Next, MonitorInv, SubscriberInv;
    if k > 0 {
      var s := After(local, actions, k - 1);
      Reachable(local, actions, k - 1);
      if id in s.channels { OnlyTheFirstClientRepeats(local, actions, k - 1, id); }
      if Enabled(s, actions[k - 1]) { RepeatStep(s, actions[k - 1], id); }
    }
  }

  /** How many of the first `k` steps made a connection. */
  function Connections(local: bool, actions: seq<Action>, k: nat): nat
    requires k <= |actions|
  {
    if k == 0 then 0
    else
      var a := actions[k - 1];
      Connections(local, actions, k - 1)
      + if Enabled(After(local, actions, k - 1), a) && (a == Spawn(true) || a == Dial(true)) then 1 else 0
  }

  /** The target's connection, or the new one that waits to be installed. */
  function Newest(s: State): Client {
    if s.monitor.Spawned? || s.monitor.Dialed? then s.monitor.client else s.target.client
  }

  lemma NewestStep(s: State, a: Action)
    requires MonitorInv(s) && Enabled(s, a) && s.made == Newest(s) + 1
    ensures
      var s' := Next(s, a);
      s'.made == Newest(s') + 1 == s.made + if a == Spawn(true) || a == Dial(true) then 1 else 0
  {
    hide Sent, Retained;
  }

  /** Every connection made becomes the target: it is the newest one, or the newest one waits to be installed. */
  lemma {:induction false} NewestConnectionTakesOver(local: bool, actions: seq<Action>, k: nat)
    requires k <= |actions|
    ensures
      var s := After(local, actions, k);
      && s.made == Connections(local, actions, k) + 1
      && (if s.monitor.Spawned? || s.monitor.Dialed? then s.monitor.client else s.target.client)
         == Connections(local, actions, k)
  {
    hide Next, MonitorInv, SubscriberInv;
    if k > 0 {
      NewestConnectionTakesOver(local, actions, k - 1);
      Reachable(local, actions, k - 1);
      var s := After(local, actions, k - 1);
      if Enabled(s, actions[k - 1]) { NewestStep(s, actions[k - 1]); }
    }
  }

  /** A child that has exited is never alive again. */
  lemma {:induction false} ExitedChildrenStayGone(local: bool, actions: seq<Action>, k: nat, m: nat, c: Client)
    requires k < m <= |actions| && actions[k] == ChildExits(c) && c in After(local, actions, k).children
    ensures c !in After(local, actions, m).children && c < After(local, actions, m).made
  {
    hide Sent, Retained;
    Reachable(local, actions, m - 1);
    if k < m - 1 { ExitedChildrenStayGone(local, actions, k, m - 1, c); }
  }

  /** A respawn or a dial that fails, or a replacement asked of a remote target. */
  predicate Fails(s: State, a: Action) {
    Enabled(s, a) && (a == Spawn(false) || a == Dial(false) || (a.Swap? && s.target.Remote?))
  }

  /** A new client announced, or a poll that finds the current one healthy. */
  predicate Recovers(s: State, a: Action) {
    Enabled(s, a) && (a == Notify || (a == Poll(false) && !s.target.Restarting?))
  }

  /** The failures among the first `k` steps since the last recovery. */
  function FailuresInARow(local: bool, actions: seq<Action>, k: nat): nat
    requires k <= |actions|
  {
    if k == 0 then 0
    else
      var s, a := After(local, actions, k - 1), actions[k - 1];
      if Recovers(s, a) then 0
      else FailuresInARow(local, actions, k - 1) + if Fails(s, a) then 1 else 0
  }

  lemma OtherStepsKeepBackoff(s: State, a: Action)
    requires Enabled(s, a)
    ensures Recovers(s, a) ==> Next(s, a).backoff == RESTART_BACKOFF_MIN
    ensures Fails(s, a) ==> Next(s, a).backoff == NextBackoff(s.backoff) && Next(s, a).lastError
    ensures !Recovers(s, a) && !Fails(s, a) ==> Next(s, a).backoff == s.backoff
    ensures !Fails(s, a) ==> Next(s, a).lastError == (s.lastError && a != Notify)
  {
    hide Sent, Retained;
  }

  /** The delay is the minimum doubled once for each failure since the last recovery, capped. */
  lemma {:induction false} BackoffCountsFailures(local: bool, actions: seq<Action>, k: nat)
    requires k <= |actions|
    ensures After(local, actions, k).backoff == BackoffAfter(FailuresInARow(local, actions, k))
  {
    hide Next, Fails, Recovers, BackoffAfter;
    BackoffDoublesToCeiling(0);
    if k > 0 {
      BackoffCountsFailures(local, actions, k - 1);
      var s, a := After(local, actions, k - 1), actions[k - 1];
      BackoffDoublesToCeiling(FailuresInARow(local, actions, k - 1));
      if Enabled(s, a) {
        OtherStepsKeepBackoff(s, a);
        RecoveringIsNotFailing(s, a);
      } else {
        DisabledStepsAreNeither(s, a);
      }
    }
  }

  lemma RecoveringIsNotFailing(s: State, a: Action)
    ensures !(Recovers(s, a) && Fails(s, a))
  {}

  lemma DisabledStepsAreNeither(s: State, a: Action)
    requires !Enabled(s, a)
    ensures !Recovers(s, a) && !Fails(s, a)
  {}

  /** Right after a recovery the delay is the minimum again. */
  lemma RecoveryResetsTheDelay(local: bool, actions: seq<Action>, k: nat)
    requires k < |actions| && Recovers(After(local, actions, k), actions[k])
    ensures After(local, actions, k + 1).backoff == RESTART_BACKOFF_MIN
  {
    OtherStepsKeepBackoff(After(local, actions, k), actions[k]);
  }

  /** The n-th failure in a row pauses for the minimum doubled n - 1 times, capped. */
  lemma FailurePauses(local: bool, actions: seq<Action>, k: nat)
    requires k < |actions| && Fails(After(local, actions, k), actions[k])
    ensures
      var n := FailuresInARow(local, actions, k + 1);
      n == FailuresInARow(local, actions, k) + 1 && After(local, actions, k).backoff == BackoffAfter(n - 1)
  {
    BackoffCountsFailures(local, actions, k);
    RecoveringIsNotFailing(After(local, actions, k), actions[k]);
  }

  /** How far a replacement has come. */
  function Progress(m: Monitor): nat {
    match m
    case Polling => 0
    case Replacing | Dialing => 1
    case Swapped(_) => 2
    case Spawning => 3
    case Spawned(_) | Dialed(_) => 4
    case Installed(_) => 5
  }

  predicate Announces(s: State, a: Action) { Enabled(s, a) && a == Notify }

  /** A poll that finds the daemon gone, unhealthy or outdated. */
  predicate BadPoll(s: State, a: Action) {
    Enabled(s, a) && a.Poll? && (a.unhealthy || s.target.Restarting?)
  }

  /**
   * A bad poll starts a replacement, each of its steps brings it further, only a failure or the announcement ends
   * it, and nothing else moves it.
   */
  lemma ReplacementProgress(s: State, a: Action)
    requires MonitorInv(s) && Enabled(s, a)
    ensures
      var before, after := Progress(s.monitor), Progress(Next(s, a).monitor);
      if BadPoll(s, a) then before == 0 && after == 1
      else if Fails(s, a) || a == Notify then after == 0
      else if a.Swap? || a.DropPrevious? || a.Spawn? || a.Dial? || a.Install? then after > before > 0
      else after == before
  {
    hide Sent, Retained;
  }

  /** The monitor polls again after a bad poll only once a step of the replacement failed or a client was announced. */
  lemma {:induction false} EveryBadPollIsActedOn(local: bool, actions: seq<Action>, k: nat, m: nat)
    requires k < m <= |actions| && BadPoll(After(local, actions, k), actions[k])
    requires
      forall j :: k < j < m ==>
        !Fails(After(local, actions, j), actions[j]) && !Announces(After(local, actions, j), actions[j])
    ensures Progress(After(local, actions, m).monitor) > 0
  {
    hide Next, MonitorInv, SubscriberInv, Fails;
    var s, a := After(local, actions, m - 1), actions[m - 1];
    Reachable(local, actions, m - 1);
    if k < m - 1 { EveryBadPollIsActedOn(local, actions, k, m - 1); }
    if Enabled(s, a) { ReplacementProgress(s, a); }
  }

  /** Whether the last failure has not been followed by an announcement. */
  predicate ErrorStands(local: bool, actions: seq<Action>, k: nat)
    requires k <= |actions|
  {
    if k == 0 then false
    else
      var s, a := After(local, actions, k - 1), actions[k - 1];
      if Fails(s, a) then true
      else ErrorStands(local, actions, k - 1) && !(Enabled(s, a) && a == Notify)
  }

  /** An error is shown from a failure until the next announced client; a healthy poll does not clear it. */
  lemma {:induction false} ErrorShownUntilReplaced(local: bool, actions: seq<Action>, k: nat)
    requires k <= |actions|
    ensures After(local, actions, k).lastError == ErrorStands(local, actions, k)
  {
    hide Next, Fails, Recovers;
    if k > 0 {
      ErrorShownUntilReplaced(local, actions, k - 1);
      var s, a := After(local, actions, k - 1), actions[k - 1];
      if Enabled(s, a) { OtherStepsKeepBackoff(s, a); } else { DisabledStepsAreNeither(s, a); }
    }
  }

  // ----- the supervisor object: each method is one critical section -----

  class DaemonSupervisor {
    var target: Target
    var children: set<Client>
    var made: nat
    var updates: seq<int>
    var channels: map<int, Channel<Client>>
    var joining: Joining
    var backoff: nat
    var lastError: bool
    ghost var monitor: Monitor

    ghost function View(): State
      reads this
    {
      State(target, monitor, children, made, updates, channels, joining, backoff, lastError)
    }

    constructor (local: bool)
      ensures View() == Started(local)
    {
      target, children, made := if local then Local(0) else Remote(0), if local then {0} else {}, 1;
      updates, channels, joining := [], map[], Nobody;
      backoff, lastError, monitor := RESTART_BACKOFF_MIN, false, Polling;
    }

    /** Reads the target under its lock; `act` says whether a restart or reconnect is due. */
    method PollTarget(unhealthy: bool) returns (act: bool)
      requires Enabled(View(), Poll(unhealthy))
      modifies this
      ensures View() == Next(old(View()), Poll(unhealthy))
      ensures act <==> monitor.Replacing? || monitor.Dialing?
    {
      match target {
        case Local(_) => act := unhealthy;
        case Restarting(_) => act := true;
        case Remote(_) => act := unhealthy;
      }
      if act {
        monitor := if target.Remote? then Dialing else Replacing;
      } else {
        backoff := RESTART_BACKOFF_MIN;
      }
    }

    method RecordFailure()
      requires
        Enabled(View(), Spawn(false)) || Enabled(View(), Dial(false)) || (Enabled(View(), Swap) && target.Remote?)
      modifies this
      ensures View() == Failed(old(View()))
    {
      lastError := true;
      backoff := if backoff * 2 <= RESTART_BACKOFF_MAX then backoff * 2 else RESTART_BACKOFF_MAX;
      monitor := Polling;
    }

    /** Takes the process out of the target, leaving its client behind for readers. */
    method TakePrevious() returns (previous: Option<Client>)
      requires Enabled(View(), Swap) && !target.Remote?
      modifies this
      ensures View() == Next(old(View()), Swap)
      ensures monitor == Swapped(previous)
    {
      previous := None;
      if target.Local? {
        previous := Some(target.client);
        target := Restarting(target.client);
      }
      monitor := Swapped(previous);
    }

    method ReleasePrevious(previous: Option<Client>)
      requires monitor == Swapped(previous)
      modifies this
      ensures View() == Next(old(View()), DropPrevious)
    {
      if previous.Some? { children := children - {previous.value}; }
      monitor := Spawning;
    }

    method SpawnReplacement() returns (client: Client)
      requires Enabled(View(), Spawn(true))
      modifies this
      ensures View() == Next(old(View()), Spawn(true)) && monitor == Spawned(client)
    {
      client := made;
      children, made, monitor := children + {made}, made + 1, Spawned(made);
    }

    method DialRemote() returns (client: Client)
      requires Enabled(View(), Dial(true))
      modifies this
      ensures View() == Next(old(View()), Dial(true)) && monitor == Dialed(client)
    {
      client := made;
      made, monitor := made + 1, Dialed(made);
    }

    method InstallClient(client: Client, spawned: bool)
      requires Enabled(View(), Install) && monitor == (if spawned then Spawned(client) else Dialed(client))
      modifies this
      ensures View() == Next(old(View()), Install)
    {
      target := if spawned then Local(client) else Remote(client);
      monitor := Installed(client);
    }

    /** Sends the new client to every subscriber and forgets those that are gone. */
    method AnnounceClient(client: Client)
      requires monitor == Installed(client)
      modifies this
      ensures View() == Next(old(View()), Notify)
    {
      var kept: seq<int> := [];
      for i := 0 to |updates|
        invariant View() == old(View()).(channels := channels)
        invariant channels == Sent(updates, old(channels), client, i)
        invariant kept == Retained(updates, old(channels), i)
      {
        var id := updates[i];
        SentKeepsOpen(updates, old(channels), client, i, id);
        if id in channels && channels[id].open {
          channels := channels[id := channels[id].(received := channels[id].received + [client])];
          kept := kept + [id];
        }
      }
      updates := kept;
      backoff, lastError, monitor := RESTART_BACKOFF_MIN, false, Polling;
    }

    method LockTarget(id: int)
      requires Enabled(View(), Lock(id))
      modifies this
      ensures View() == Next(old(View()), Lock(id))
    {
      joining := Locked(id);
    }

    method RegisterSubscriber()
      requires Enabled(View(), Push)
      modifies this
      ensures View() == Next(old(View()), Push)
    {
      var id := joining.id;
      updates, channels, joining := updates + [id], channels[id := Channel([], true)], Pushed(id);
    }

    method SendCurrentClient()
      requires Enabled(View(), SendCurrent)
      modifies this
      ensures View() == Next(old(View()), SendCurrent)
    {
      var id := joining.id;
      channels := channels[id := channels[id].(received := channels[id].received + [target.client])];
      joining := Nobody;
    }
  }
}
