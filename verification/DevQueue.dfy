/** The development watcher's rebuild queue: a single-threaded protocol that interleaves at every await. */
module DevQueue {
  import opened Protocol

  datatype Target = App | Daemon

  /** An app build also builds the daemon. */
  predicate Includes(build: Target, change: Target) { build == App || build == change }

  function MergedTarget(current: Option<Target>, next: Target): (t: Target)
    ensures Includes(t, next) && (current.Some? ==> Includes(t, current.value))
    ensures t == next || current == Some(t)
  {
    if current == Some(App) || next == App then App else Daemon
  }

  /** A suspended activation of the drain loop: awaiting a build, or awaiting the old app's exit.
      `build` is the build awaited; `began` and `decided` count the changes seen when it began and when its bundle
      was accepted. */
  datatype Drain =
    | Building(target: Target, appRevision: nat, began: nat, build: nat)
    | StoppingApp(began: nat, decided: nat)

  /** `outcome` is whether the build succeeded, once it has settled. */
  datatype Build = Build(target: Target, began: nat, outcome: Option<bool>)

  datatype Launch = Launch(began: nat, decided: nat)

  /** `changes`, `builds` and `launches` record what happened; the rest are the script's variables. */
  datatype State = State(
    stopping: bool,
    building: bool,
    queued: Option<Target>,
    debounced: Option<Target>,
    timer: bool,
    appRevision: nat,
    daemonRevision: nat,
    drains: seq<Drain>,
    changes: seq<Target>,
    builds: seq<Build>,
    launches: seq<Launch>)

  datatype Action =
    | Change(target: Target)
    | TimerFires
    | BuildFinishes(drain: nat, succeeded: bool)
    | AppStopped(drain: nat)
    | Stop

  predicate Enabled(s: State, a: Action) {
    match a
    case Change(_) => true
    case TimerFires => s.timer
    case BuildFinishes(i, _) => i < |s.drains| && s.drains[i].Building?
    case AppStopped(i) => i < |s.drains| && s.drains[i].StoppingApp?
    case Stop => true
  }

  function Scheduled(s: State, t: Target): State {
    if s.stopping then s
    else s.(daemonRevision := s.daemonRevision + 1,
            appRevision := if t == App then s.appRevision + 1 else s.appRevision,
            debounced := Some(MergedTarget(s.debounced, t)),
            timer := true,
            changes := s.changes + [t])
  }

  function Moved(s: State): State {
    if s.debounced.Some?
    then s.(queued := Some(MergedTarget(s.queued, s.debounced.value)), debounced := None)
    else s
  }

  /** The loop head, reached by the activation that would become suspended last. */
  function LoopHead(s: State): State {
    if s.queued.Some? && !s.stopping
    then s.(queued := None,
            drains := s.drains + [Building(s.queued.value, s.appRevision, |s.changes|, |s.builds|)],
            builds := s.builds + [Build(s.queued.value, |s.changes|, None)])
    else s.(building := false)
  }

  function Drained(s: State): State {
    if s.building || s.stopping then s else LoopHead(s.(building := true))
  }

  function Without(drains: seq<Drain>, i: nat): seq<Drain>
    requires i < |drains|
  {
    drains[..i] + drains[i + 1..]
  }

  function Finished(builds: seq<Build>, j: nat, succeeded: bool): seq<Build> {
    if j < |builds| then builds[j := builds[j].(outcome := Some(succeeded))] else builds
  }

  function BuildFinished(s: State, i: nat, succeeded: bool): State
    requires i < |s.drains| && s.drains[i].Building?
  {
    var d, done := s.drains[i], s.(builds := Finished(s.builds, s.drains[i].build, succeeded));
    if succeeded && !s.stopping && d.target == App && s.appRevision == d.appRevision
    then done.(drains := s.drains[i := StoppingApp(d.began, |s.changes|)])
    else LoopHead(done.(drains := Without(s.drains, i)))
  }

  function AppIsStopped(s: State, i: nat): State
    requires i < |s.drains| && s.drains[i].StoppingApp?
  {
    var d, rest := s.drains[i], s.(drains := Without(s.drains, i));
    LoopHead(if s.stopping then rest else rest.(launches := s.launches + [Launch(d.began, d.decided)]))
  }

  function Next(s: State, a: Action): State
    requires Enabled(s, a)
  {
    match a
    case Change(t) => Scheduled(s, t)
    case TimerFires => Drained(Moved(s.(timer := false)))
    case BuildFinishes(i, succeeded) => BuildFinished(s, i, succeeded)
    case AppStopped(i) => AppIsStopped(s, i)
    case Stop => s.(stopping := true, timer := false)
  }

  // ----- invariant after startup -----

  function AppChanges(changes: seq<Target>, k: nat): nat
    requires k <= |changes|
  {
    if k == 0 then 0 else AppChanges(changes, k - 1) + if changes[k - 1] == App then 1 else 0
  }

  predicate Built(builds: seq<Build>, i: nat, t: Target) {
    exists j :: 0 <= j < |builds| && builds[j].began > i && Includes(builds[j].target, t)
  }

  /** Change `i` waits in an armed debounce, waits in the queue, or was built by a build begun after it. */
  predicate Covered(s: State, i: nat)
    requires i < |s.changes|
  {
    || (s.debounced.Some? && Includes(s.debounced.value, s.changes[i]))
    || (s.queued.Some? && Includes(s.queued.value, s.changes[i]))
    || Built(s.builds, i, s.changes[i])
  }

  ghost predicate NothingLost(s: State) {
    forall i {:trigger Covered(s, i)} :: 0 <= i < |s.changes| ==> Covered(s, i)
  }

  predicate NoAppChange(changes: seq<Target>, from: nat, to: nat) {
    from <= to <= |changes| && forall i :: from <= i < to ==> changes[i] != App
  }

  predicate Bookkeeping(s: State) {
    && s.daemonRevision == |s.changes|
    && s.appRevision == AppChanges(s.changes, |s.changes|)
    && (forall i :: 0 <= i < |s.drains| ==>
          match s.drains[i]
          case Building(_, revision, began, _) => began <= |s.changes| && revision == AppChanges(s.changes, began)
          case StoppingApp(began, decided) => NoAppChange(s.changes, began, decided))
    && (forall i :: 0 <= i < |s.launches| ==> NoAppChange(s.changes, s.launches[i].began, s.launches[i].decided))
  }

  /** One drain activation exactly while building, a queued target only while building, a timer for every debounce. */
  predicate Exclusive(s: State) {
    && |s.drains| == (if s.building then 1 else 0)
    && (!s.stopping ==> (s.timer <==> s.debounced.Some?) && (s.queued.Some? ==> s.building))
  }

  predicate AppChangedSince(changes: seq<Target>, began: nat) {
    exists k :: began <= k < |changes| && changes[k] == App
  }

  predicate LaunchedAs(launches: seq<Launch>, began: nat) {
    exists l :: 0 <= l < |launches| && launches[l].began == began
  }

  predicate StoppingFor(drains: seq<Drain>, began: nat) {
    exists d :: 0 <= d < |drains| && drains[d].StoppingApp? && drains[d].began == began
  }

  predicate GoodAppBuild(builds: seq<Build>, began: nat) {
    exists j :: 0 <= j < |builds| && builds[j] == Build(App, began, Some(true))
  }

  /** The records agree with the suspended activations, and only the build awaited has no outcome. */
  predicate BuildLog(s: State) {
    && (forall d {:trigger s.drains[d]} :: 0 <= d < |s.drains| ==>
          match s.drains[d]
          case Building(target, _, began, j) => j < |s.builds| && s.builds[j] == Build(target, began, None)
          case StoppingApp(began, _) => GoodAppBuild(s.builds, began))
    && (forall j :: 0 <= j < |s.builds| && s.builds[j].outcome == None ==>
          |s.drains| == 1 && s.drains[0].Building? && s.drains[0].build == j)
    && (forall l :: 0 <= l < |s.launches| ==> GoodAppBuild(s.builds, s.launches[l].began))
  }

  /** A good app build was overtaken by another app change, or is launched, or awaits the old app's exit. */
  predicate Answered(s: State, began: nat) {
    AppChangedSince(s.changes, began) || LaunchedAs(s.launches, began) || StoppingFor(s.drains, began)
  }

  ghost predicate GoodBuildsAnswered(s: State) {
    forall began: nat {:trigger Answered(s, began)} :: GoodAppBuild(s.builds, began) ==> Answered(s, began)
  }

  ghost predicate Inv(s: State) {
    && Bookkeeping(s)
    && Exclusive(s)
    && BuildLog(s)
    && (!s.stopping ==> NothingLost(s) && GoodBuildsAnswered(s))
  }

  lemma {:induction false} AppChangesStable(changes: seq<Target>, t: Target, k: nat)
    requires k <= |changes|
    ensures AppChanges(changes + [t], k) == AppChanges(changes, k)
  {
    if k > 0 { AppChangesStable(changes, t, k - 1); }
  }

  lemma {:induction false} SameCountMeansNoAppChange(changes: seq<Target>, from: nat, to: nat)
    requires from <= to <= |changes|
    ensures AppChanges(changes, from) <= AppChanges(changes, to)
    ensures AppChanges(changes, from) == AppChanges(changes, to) ==> NoAppChange(changes, from, to)
  {
    if from < to { SameCountMeansNoAppChange(changes, from, to - 1); }
  }

  lemma ScheduledKeepsInv(s: State, t: Target)
    requires Inv(s)
    ensures Inv(Scheduled(s, t))
  {
    var s' := Scheduled(s, t);
    if !s.stopping {
      AppChangesStable(s.changes, t, |s.changes|);
      forall i | 0 <= i < |s'.drains| && s'.drains[i].Building?
        ensures AppChanges(s'.changes, s'.drains[i].began) == AppChanges(s.changes, s.drains[i].began)
      {
        AppChangesStable(s.changes, t, s.drains[i].began);
      }
      forall i | 0 <= i < |s'.changes| ensures Covered(s', i) {
        if i < |s.changes| { assert Covered(s, i); }
      }
      ChangeKeepsAnswers(s, s');
    }
  }

  /** More changes and an unchanged record of builds, launches and activations keep every answer. */
  lemma ChangeKeepsAnswers(s: State, s': State)
    requires GoodBuildsAnswered(s) && s.changes <= s'.changes
    requires s'.builds == s.builds && s'.launches == s.launches && s'.drains == s.drains
    ensures GoodBuildsAnswered(s')
  {
    forall began: nat | GoodAppBuild(s'.builds, began) ensures Answered(s', began) {
      assert Answered(s, began);
      if AppChangedSince(s.changes, began) {
        var k :| began <= k < |s.changes| && s.changes[k] == App;
        assert s'.changes[k] == App;
      }
    }
  }

  lemma MovedKeepsCoverage(s: State)
    requires NothingLost(s)
    ensures NothingLost(Moved(s.(timer := false)))
  {
    var s' := Moved(s.(timer := false));
    forall i | 0 <= i < |s'.changes| ensures Covered(s', i) { assert Covered(s, i); }
  }

  /** Starting the queued build covers everything the queue stood for. */
  lemma LoopHeadKeepsCoverage(s: State)
    requires NothingLost(s)
    ensures NothingLost(LoopHead(s))
  {
    var s' := LoopHead(s);
    forall i | 0 <= i < |s'.changes| ensures Covered(s', i) {
      assert Covered(s, i);
      if Built(s.builds, i, s.changes[i]) {
        var j :| 0 <= j < |s.builds| && s.builds[j].began > i && Includes(s.builds[j].target, s.changes[i]);
        assert s'.builds[j] == s.builds[j];
      } else if s.queued.Some? && !s.stopping && Includes(s.queued.value, s.changes[i]) {
        assert s'.builds[|s.builds|].began > i;
      }
    }
  }

  lemma LoopHeadKeepsBookkeeping(s: State)
    requires Bookkeeping(s)
    ensures Bookkeeping(LoopHead(s))
  {}

  lemma GoodBuildsGrow(builds: seq<Build>, more: seq<Build>, began: nat)
    requires GoodAppBuild(builds, began)
    ensures GoodAppBuild(builds + more, began)
  {
    var j :| 0 <= j < |builds| && builds[j] == Build(App, began, Some(true));
    assert (builds + more)[j] == builds[j];
  }

  /** Starting a build adds one record without an outcome. */
  lemma LoopHeadKeepsLog(s: State)
    requires BuildLog(s) && s.drains == []
    ensures BuildLog(LoopHead(s))
    ensures GoodBuildsAnswered(s) ==> GoodBuildsAnswered(LoopHead(s))
  {
    var s' := LoopHead(s);
    forall l | 0 <= l < |s'.launches| ensures GoodAppBuild(s'.builds, s'.launches[l].began) {
      assert GoodAppBuild(s.builds, s.launches[l].began);
      GoodBuildsGrow(s.builds, s'.builds[|s.builds|..], s.launches[l].began);
      assert s'.builds == s.builds + s'.builds[|s.builds|..];
    }
    if GoodBuildsAnswered(s) {
      forall began: nat | GoodAppBuild(s'.builds, began) ensures Answered(s', began) {
        var j :| 0 <= j < |s'.builds| && s'.builds[j] == Build(App, began, Some(true));
        assert s.builds[j] == s'.builds[j];
        assert Answered(s, began);
        assert !StoppingFor(s.drains, began);
      }
    }
  }

  /** What finishing the awaited build records, with its activation gone. */
  function Settled(s: State, succeeded: bool): State
    requires |s.drains| == 1 && s.drains[0].Building?
  {
    s.(builds := Finished(s.builds, s.drains[0].build, succeeded), drains := [])
  }

  lemma FinishedGoodBuilds(builds: seq<Build>, j: nat, succeeded: bool, began: nat)
    requires j < |builds| && builds[j].outcome == None
    ensures
      GoodAppBuild(Finished(builds, j, succeeded), began)
      <==> GoodAppBuild(builds, began) || (succeeded && builds[j].target == App && builds[j].began == began)
  {
    var after := Finished(builds, j, succeeded);
    if GoodAppBuild(builds, began) {
      var m :| 0 <= m < |builds| && builds[m] == Build(App, began, Some(true));
      assert after[m] == builds[m];
    }
    if GoodAppBuild(after, began) {
      var m :| 0 <= m < |after| && after[m] == Build(App, began, Some(true));
      assert m != j ==> builds[m] == after[m];
    }
    if succeeded && builds[j].target == App && builds[j].began == began {
      assert after[j] == Build(App, began, Some(true));
    }
  }

  lemma SettledKeepsLog(s: State, succeeded: bool)
    requires BuildLog(s) && |s.drains| == 1 && s.drains[0].Building?
    ensures BuildLog(Settled(s, succeeded))
    ensures
      GoodBuildsAnswered(s)
      && (succeeded && s.drains[0].target == App ==> AppChangedSince(s.changes, s.drains[0].began)) ==>
        GoodBuildsAnswered(Settled(s, succeeded))
  {
    var d, s' := s.drains[0], Settled(s, succeeded);
    forall began: nat ensures
      GoodAppBuild(s'.builds, began)
      <==> GoodAppBuild(s.builds, began) || (succeeded && d.target == App && d.began == began)
    {
      FinishedGoodBuilds(s.builds, d.build, succeeded, began);
    }
    if GoodBuildsAnswered(s) && (succeeded && d.target == App ==> AppChangedSince(s.changes, d.began)) {
      forall began: nat | GoodAppBuild(s'.builds, began) ensures Answered(s', began) {
        if GoodAppBuild(s.builds, began) {
          assert Answered(s, began);
          assert !StoppingFor(s.drains, began);
        }
      }
    }
  }

  lemma {:induction false} MoreAppChanges(changes: seq<Target>, from: nat, to: nat)
    requires from <= to <= |changes| && AppChanges(changes, from) != AppChanges(changes, to)
    ensures AppChangedSince(changes, from)
  {
    if changes[to - 1] != App { MoreAppChanges(changes, from, to - 1); }
  }

  lemma DropActivation(s: State, rest: State)
    requires NothingLost(s) && rest.changes == s.changes && rest.queued == s.queued && rest.debounced == s.debounced
    requires |rest.builds| == |s.builds|
    requires forall j :: 0 <= j < |s.builds| ==>
      rest.builds[j].target == s.builds[j].target && rest.builds[j].began == s.builds[j].began
    ensures NothingLost(rest)
  {
    forall i | 0 <= i < |rest.changes| ensures Covered(rest, i) {
      assert Covered(s, i);
      if Built(s.builds, i, s.changes[i]) {
        var j :| 0 <= j < |s.builds| && s.builds[j].began > i && Includes(s.builds[j].target, s.changes[i]);
        assert rest.builds[j].began > i && Includes(rest.builds[j].target, s.changes[i]);
      }
    }
  }

  lemma BuildFinishesKeepsInv(s: State, succeeded: bool)
    requires Inv(s) && Enabled(s, BuildFinishes(0, succeeded))
    ensures Inv(Next(s, BuildFinishes(0, succeeded)))
  {
    hide AppChangedSince, LaunchedAs, GoodAppBuild, NothingLost;
    var d, rest, s' := s.drains[0], Settled(s, succeeded), Next(s, BuildFinishes(0, succeeded));
    assert Without(s.drains, 0) == [];
    if !s.stopping { DropActivation(s, rest); }
    if succeeded && !s.stopping && d.target == App && s.appRevision == d.appRevision {
      SameCountMeansNoAppChange(s.changes, d.began, |s.changes|);
      AcceptedBundle(s);
      assert s.drains[0 := StoppingApp(d.began, |s.changes|)] == [StoppingApp(d.began, |s.changes|)];
      DropActivation(s, s');
    } else {
      assert s' == LoopHead(rest);
      if succeeded && d.target == App && !s.stopping { MoreAppChanges(s.changes, d.began, |s.changes|); }
      SettledKeepsLog(s, succeeded);
      LoopHeadKeepsLog(rest);
      if !s.stopping { LoopHeadKeepsCoverage(rest); }
      LoopHeadKeepsBookkeeping(rest);
    }
  }

  /** A good bundle accepted for launch: recorded as good, with the old app's exit awaited. */
  lemma AcceptedBundle(s: State)
    requires BuildLog(s) && GoodBuildsAnswered(s)
    requires |s.drains| == 1 && s.drains[0].Building? && s.drains[0].target == App
    ensures
      var s' := s.(builds := Finished(s.builds, s.drains[0].build, true),
                   drains := [StoppingApp(s.drains[0].began, |s.changes|)]);
      BuildLog(s') && GoodBuildsAnswered(s')
  {
    var d := s.drains[0];
    var s' := s.(builds := Finished(s.builds, d.build, true), drains := [StoppingApp(d.began, |s.changes|)]);
    forall began: nat ensures GoodAppBuild(s'.builds, began) <==> GoodAppBuild(s.builds, began) || d.began == began {
      FinishedGoodBuilds(s.builds, d.build, true, began);
    }
    forall began: nat | GoodAppBuild(s'.builds, began) ensures Answered(s', began) {
      if GoodAppBuild(s.builds, began) {
        assert Answered(s, began);
        assert !StoppingFor(s.drains, began);
      } else {
        assert s'.drains[0].StoppingApp? && s'.drains[0].began == began;
      }
    }
  }

  /** The launch answers the build whose activation ends. */
  lemma LaunchKeepsAnswers(s: State, launched: State)
    requires BuildLog(s) && GoodBuildsAnswered(s) && |s.drains| == 1 && s.drains[0].StoppingApp?
    requires launched == s.(drains := [], launches := s.launches + [Launch(s.drains[0].began, s.drains[0].decided)])
    ensures BuildLog(launched) && GoodBuildsAnswered(launched)
  {
    var d := s.drains[0];
    forall l | 0 <= l < |launched.launches| ensures GoodAppBuild(s.builds, launched.launches[l].began) {
      if l < |s.launches| { assert launched.launches[l] == s.launches[l]; }
    }
    forall began: nat | GoodAppBuild(launched.builds, began) ensures Answered(launched, began) {
      assert Answered(s, began);
      if LaunchedAs(s.launches, began) {
        var l :| 0 <= l < |s.launches| && s.launches[l].began == began;
        assert launched.launches[l].began == began;
      }
      if StoppingFor(s.drains, began) {
        assert d.began == began;
        assert launched.launches[|s.launches|].began == began;
      }
    }
  }

  lemma AppStoppedKeepsInv(s: State)
    requires Inv(s) && Enabled(s, AppStopped(0))
    ensures Inv(Next(s, AppStopped(0)))
  {
    var d, rest := s.drains[0], s.(drains := []);
    assert Without(s.drains, 0) == [];
    var launched := if s.stopping then rest else rest.(launches := s.launches + [Launch(d.began, d.decided)]);
    assert Next(s, AppStopped(0)) == LoopHead(launched);
    hide GoodAppBuild, AppChangedSince, LaunchedAs, NothingLost;
    if !s.stopping {
      LaunchKeepsAnswers(s, launched);
      DropActivation(s, launched);
      LoopHeadKeepsCoverage(launched);
    }
    LoopHeadKeepsLog(launched);
    LoopHeadKeepsBookkeeping(launched);
  }

  lemma TimerKeepsInv(s: State)
    requires Inv(s) && s.timer
    ensures Inv(Next(s, TimerFires))
  {
    var moved := Moved(s.(timer := false));
    if !s.stopping {
      MovedKeepsCoverage(s);
      if !s.building {
        var started := moved.(building := true);
        forall j | 0 <= j < |started.changes| ensures Covered(started, j) { assert Covered(moved, j); }
        LoopHeadKeepsCoverage(started);
        ChangeKeepsAnswers(s, started);
        LoopHeadKeepsLog(started);
      } else {
        ChangeKeepsAnswers(s, moved);
      }
    }
  }

  lemma StepKeepsInv(s: State, a: Action)
    requires Inv(s) && Enabled(s, a)
    ensures Inv(Next(s, a))
  {
    match a {
      case Change(t) => ScheduledKeepsInv(s, t);
      case TimerFires => TimerKeepsInv(s);
      case Stop =>
      case BuildFinishes(_, succeeded) => BuildFinishesKeepsInv(s, succeeded);
      case AppStopped(_) => AppStoppedKeepsInv(s);
    }
  }

  /** The state after `k` attempted steps from `start`; a step that is not enabled does nothing. */
  function After(start: State, actions: seq<Action>, k: nat): State
    requires k <= |actions|
  {
    if k == 0 then start
    else
      var s := After(start, actions, k - 1);
      if Enabled(s, actions[k - 1]) then Next(s, actions[k - 1]) else s
  }

  /** No rebuild is lost and builds never overlap, in every interleaving from a sound start. */
  lemma {:induction false} NoRebuildIsLost(start: State, actions: seq<Action>, k: nat)
    requires Inv(start) && k <= |actions|
    ensures Inv(After(start, actions, k))
  {
    if k > 0 {
      NoRebuildIsLost(start, actions, k - 1);
      var s := After(start, actions, k - 1);
      if Enabled(s, actions[k - 1]) { StepKeepsInv(s, actions[k - 1]); }
    }
  }

  lemma StoppedStep(s: State, a: Action)
    requires s.stopping && Enabled(s, a)
    ensures
      var s' := Next(s, a);
      && s'.stopping && |s'.builds| == |s.builds| && s'.launches == s.launches && s'.changes == s.changes
      && (!s.timer ==> !s'.timer)
  {}

  /** Once stopping, the watcher counts no change, begins no build and launches nothing, whatever still settles. */
  lemma {:induction false} NothingStartsAfterStop(start: State, actions: seq<Action>, k: nat, m: nat)
    requires k < m <= |actions| && actions[k] == Stop
    ensures
      var s, t := After(start, actions, k), After(start, actions, m);
      && t.stopping && !t.timer && |t.builds| == |s.builds| && t.launches == s.launches && t.changes == s.changes
  {
    if k < m - 1 {
      NothingStartsAfterStop(start, actions, k, m - 1);
      var t := After(start, actions, m - 1);
      if Enabled(t, actions[m - 1]) { StoppedStep(t, actions[m - 1]); }
    }
  }

  predicate AtRest(s: State) { !s.stopping && !s.timer && s.drains == [] }

  predicate BuildCovers(b: Build, i: nat, t: Target) { b.began > i && Includes(b.target, t) && b.outcome.Some? }

  /** At rest every change is covered by a finished including build begun after it; that build may have failed. */
  lemma IdleMeansEverythingAttempted(s: State)
    requires Inv(s) && AtRest(s)
    ensures
      forall i :: 0 <= i < |s.changes| ==>
        exists j :: 0 <= j < |s.builds| && BuildCovers(s.builds[j], i, s.changes[i])
  {
    forall i | 0 <= i < |s.changes|
      ensures exists j :: 0 <= j < |s.builds| && BuildCovers(s.builds[j], i, s.changes[i])
    {
      assert Covered(s, i);
      var j :| 0 <= j < |s.builds| && s.builds[j].began > i && Includes(s.builds[j].target, s.changes[i]);
      assert BuildCovers(s.builds[j], i, s.changes[i]);
    }
  }

  predicate Launched(s: State, i: nat) { exists l :: 0 <= l < |s.launches| && s.launches[l].began > i }

  predicate EveryAppChangeLaunched(s: State) {
    forall i :: 0 <= i < |s.changes| && s.changes[i] == App ==> Launched(s, i)
  }

  /** Some app build succeeded that began after every app change. */
  predicate CurrentAppBuilt(s: State) {
    exists j :: 0 <= j < |s.builds| && s.builds[j].target == App && s.builds[j].outcome == Some(true)
      && !AppChangedSince(s.changes, s.builds[j].began)
  }

  lemma {:induction false} LastAppChange(changes: seq<Target>, k: nat) returns (last: nat)
    requires k <= |changes| && exists i :: 0 <= i < k && changes[i] == App
    ensures last < k && changes[last] == App && forall i :: last < i < k ==> changes[i] != App
  {
    if changes[k - 1] == App { last := k - 1; } else { last := LastAppChange(changes, k - 1); }
  }

  /** At rest the running app has every app change exactly when an app build begun after all of them succeeded. */
  lemma IdleMeansLaunchedIff(s: State)
    requires Inv(s) && AtRest(s) && exists i :: 0 <= i < |s.changes| && s.changes[i] == App
    ensures EveryAppChangeLaunched(s) <==> CurrentAppBuilt(s)
  {
    if EveryAppChangeLaunched(s) {
      var last := LastAppChange(s.changes, |s.changes|);
      assert Launched(s, last);
      var l :| 0 <= l < |s.launches| && s.launches[l].began > last;
      var j :| 0 <= j < |s.builds| && s.builds[j] == Build(App, s.launches[l].began, Some(true));
      assert !AppChangedSince(s.changes, s.builds[j].began);
    }
    if CurrentAppBuilt(s) {
      var j :| 0 <= j < |s.builds| && s.builds[j].target == App && s.builds[j].outcome == Some(true)
        && !AppChangedSince(s.changes, s.builds[j].began);
      var began := s.builds[j].began;
      assert GoodAppBuild(s.builds, began);
      assert Answered(s, began) && !StoppingFor(s.drains, began);
      var l :| 0 <= l < |s.launches| && s.launches[l].began == began;
      forall i | 0 <= i < |s.changes| && s.changes[i] == App ensures Launched(s, i) {
        assert s.launches[l].began > i;
      }
    }
  }

  predicate NoAppBuildFailed(s: State) {
    forall j :: 0 <= j < |s.builds| && s.builds[j].target == App && s.builds[j].outcome.Some? ==>
      s.builds[j].outcome.value
  }

  /** In every run from a sound start that comes to rest, if no app build failed every app change is running. */
  lemma GoodBuildsReachTheApp(start: State, actions: seq<Action>, k: nat)
    requires Inv(start) && k <= |actions|
    requires AtRest(After(start, actions, k)) && NoAppBuildFailed(After(start, actions, k))
    ensures EveryAppChangeLaunched(After(start, actions, k))
  {
    NoRebuildIsLost(start, actions, k);
    var s := After(start, actions, k);
    hide After, Inv;
    if exists i :: 0 <= i < |s.changes| && s.changes[i] == App {
      var last := LastAppChange(s.changes, |s.changes|);
      IdleMeansEverythingAttempted(s);
      var j :| 0 <= j < |s.builds| && BuildCovers(s.builds[j], last, s.changes[last]);
      assert !AppChangedSince(s.changes, s.builds[j].began);
      assert s.builds[j].target == App && s.builds[j].outcome == Some(true);
      assert CurrentAppBuilt(s);
      IdleMeansLaunchedIff(s);
    }
  }

  /** The queue as a successful initial build without changes leaves it. */
  const QUIET: State := STARTING.(building := false)

  /** A failed build is not retried: the queue comes to rest with the change's only build failed. */
  lemma FailedBuildIsNotRetried()
    ensures
      var s := After(QUIET, [Change(App), TimerFires, BuildFinishes(0, false)], 3);
      Inv(QUIET) && AtRest(s) && s.builds == [Build(App, 1, Some(false))] && !Launched(s, 0)
  {
    var actions := [Change(App), TimerFires, BuildFinishes(0, false)];
    assert After(QUIET, actions, 1) == Scheduled(QUIET, App);
    assert After(QUIET, actions, 2) == Drained(Moved(Scheduled(QUIET, App).(timer := false)));
    assert After(QUIET, actions, 2).drains == [Building(App, 1, 1, 0)];
  }

  function Pending(s: State): nat {
    (if s.queued.Some? then 3 else 0)
    + (if s.drains == [] then 0 else if s.drains[0].Building? then 2 else 1)
  }

  /** Without new changes each resumed await brings the queue closer to idle. */
  lemma ResumingMakesProgress(s: State, a: Action)
    requires Inv(s) && !s.stopping && Enabled(s, a) && (a.BuildFinishes? || a.AppStopped?)
    ensures Pending(Next(s, a)) < Pending(s)
    ensures Next(s, a).timer == s.timer && Next(s, a).changes == s.changes
  {
    assert a.drain == 0 && Without(s.drains, 0) == [];
  }

  /** An app bundle is accepted only when no app change arrived while it was being built. */
  lemma LaunchesAreFresh(start: State, actions: seq<Action>, k: nat, i: nat)
    requires Inv(start) && k <= |actions| && i < |After(start, actions, k).launches|
    ensures var s := After(start, actions, k);
      NoAppChange(s.changes, s.launches[i].began, s.launches[i].decided)
  {
    NoRebuildIsLost(start, actions, k);
  }

  // ----- startup -----

  /** While the initial build runs: the building flag is up without a drain activation. */
  const STARTING: State := State(false, true, None, None, false, 0, 0, [], [], [], [])

  ghost predicate StartupInv(s: State) {
    && Bookkeeping(s) && BuildLog(s) && s.building && s.drains == [] && s.builds == [] && s.launches == []
    && (!s.stopping ==> (s.timer <==> s.debounced.Some?) && NothingLost(s))
  }

  lemma {:induction false} StartupRun(actions: seq<Action>, k: nat)
    requires k <= |actions|
    ensures StartupInv(After(STARTING, actions, k))
  {
    if k > 0 {
      StartupRun(actions, k - 1);
      var s, a := After(STARTING, actions, k - 1), actions[k - 1];
      if Enabled(s, a) {
        match a {
          case Change(t) =>
            if !s.stopping {
              var s' := Scheduled(s, t);
              AppChangesStable(s.changes, t, |s.changes|);
              forall i | 0 <= i < |s'.changes| ensures Covered(s', i) {
                if i < |s.changes| { assert Covered(s, i); }
              }
            }
          case TimerFires => if !s.stopping { MovedKeepsCoverage(s); }
          case Stop =>
          case BuildFinishes(_, _) =>
          case AppStopped(_) =>
        }
      }
    }
  }

  /** End of a successful initial build: relaunch if no app source changed, otherwise drain the queue. */
  function StartupFinished(s: State): State {
    var idle := s.(building := false);
    if s.appRevision == 0 then idle
    else if s.queued.Some? then Drained(idle) else idle
  }

  /** After startup the queue is sound exactly when no daemon-only build was queued during the initial build. */
  lemma StartupIsSoundIff(actions: seq<Action>, k: nat)
    requires k <= |actions| && !After(STARTING, actions, k).stopping
    ensures var s := After(STARTING, actions, k);
      Inv(StartupFinished(s)) <==> (s.appRevision != 0 || s.queued == None)
  {
    StartupRun(actions, k);
    var s := After(STARTING, actions, k);
    var idle := s.(building := false);
    forall i | 0 <= i < |s.changes| ensures Covered(idle, i) { assert Covered(s, i); }
    if s.appRevision != 0 && s.queued.Some? {
      var started := idle.(building := true);
      forall i | 0 <= i < |s.changes| ensures Covered(started, i) { assert Covered(s, i); }
      LoopHeadKeepsCoverage(started);
    }
  }

  /** A daemon edit debounced during the initial build is left queued with no build running... */
  lemma DaemonEditDuringStartupIsStuck()
    ensures var s := StartupFinished(After(STARTING, [Change(Daemon), TimerFires], 2));
      s.queued == Some(Daemon) && !s.building && !s.timer && s.builds == []
  {
    var actions := [Change(Daemon), TimerFires];
    assert After(STARTING, actions, 1) == Scheduled(STARTING, Daemon);
  }

  /** Nothing forgotten and nothing running; the queue may hold a target. */
  ghost predicate Resting(s: State) {
    && Bookkeeping(s) && BuildLog(s) && !s.building && s.drains == [] && !s.stopping
    && (s.timer <==> s.debounced.Some?) && NothingLost(s) && GoodBuildsAnswered(s)
  }

  lemma ScheduledKeepsResting(s: State, t: Target)
    requires Resting(s)
    ensures Resting(Scheduled(s, t)) && Scheduled(s, t).timer
  {
    var s' := Scheduled(s, t);
    AppChangesStable(s.changes, t, |s.changes|);
    forall i | 0 <= i < |s'.changes| ensures Covered(s', i) {
      if i < |s.changes| { assert Covered(s, i); }
    }
    ChangeKeepsAnswers(s, s');
  }

  lemma TimerEndsResting(s: State)
    requires Resting(s) && s.timer
    ensures Inv(Next(s, TimerFires))
  {
    var moved := Moved(s.(timer := false));
    MovedKeepsCoverage(s);
    var started := moved.(building := true);
    forall j | 0 <= j < |started.changes| ensures Covered(started, j) { assert Covered(moved, j); }
    LoopHeadKeepsCoverage(started);
    ChangeKeepsAnswers(s, started);
    LoopHeadKeepsLog(started);
  }

  /** ...until the next change's debounce fires, which restores soundness. */
  lemma NextChangeUnsticks(actions: seq<Action>, k: nat, t: Target)
    requires k <= |actions| && !After(STARTING, actions, k).stopping
    ensures var s := StartupFinished(After(STARTING, actions, k));
      Inv(Next(Scheduled(s, t), TimerFires))
  {
    StartupRun(actions, k);
    var s := After(STARTING, actions, k);
    if s.appRevision == 0 && s.queued.Some? {
      var idle := s.(building := false);
      forall i | 0 <= i < |s.changes| ensures Covered(idle, i) { assert Covered(s, i); }
      ScheduledKeepsResting(idle, t);
      TimerEndsResting(Scheduled(idle, t));
    } else {
      StartupIsSoundIff(actions, k);
      ScheduledKeepsInv(StartupFinished(s), t);
      TimerKeepsInv(Scheduled(StartupFinished(s), t));
    }
  }

  // ----- the script's module state -----

  class Watcher {
    var stopping: bool
    var building: bool
    var queuedBuild: Option<Target>
    var debouncedBuild: Option<Target>
    var timer: bool
    var appChangeRevision: nat
    var daemonChangeRevision: nat
    ghost var drains: seq<Drain>
    ghost var changes: seq<Target>
    ghost var builds: seq<Build>
    ghost var launches: seq<Launch>

    ghost function View(): State
      reads this
    {
      State(stopping, building, queuedBuild, debouncedBuild, timer, appChangeRevision, daemonChangeRevision,
            drains, changes, builds, launches)
    }

    constructor ()
      ensures View() == STARTING
    {
      stopping, building, queuedBuild, debouncedBuild, timer := false, true, None, None, false;
      appChangeRevision, daemonChangeRevision, drains := 0, 0, [];
      changes, builds, launches := [], [], [];
    }

    method ScheduleBuild(target: Target)
      modifies this
      ensures View() == Next(old(View()), Change(target))
    {
      if stopping { return; }
      daemonChangeRevision := daemonChangeRevision + 1;
      if target == App { appChangeRevision := appChangeRevision + 1; }
      debouncedBuild := Some(MergedTarget(debouncedBuild, target));
      timer := true;
      changes := changes + [target];
    }

    method OnTimer()
      requires timer
      modifies this
      ensures View() == Next(old(View()), TimerFires)
    {
      timer := false;
      if debouncedBuild.Some? {
        queuedBuild := Some(MergedTarget(queuedBuild, debouncedBuild.value));
        debouncedBuild := None;
      }
      DrainBuildQueue();
    }

    /** Runs the drain loop up to its first await. */
    method DrainBuildQueue()
      modifies this
      ensures View() == Drained(old(View()))
    {
      if building || stopping { return; }
      building := true;
      ContinueLoop();
    }

    /** Loop head and, when there is nothing to build, the cleanup after the loop. */
    method ContinueLoop()
      modifies this
      ensures View() == LoopHead(old(View()))
    {
      if queuedBuild.Some? && !stopping {
        var target := queuedBuild.value;
        queuedBuild := None;
        drains := drains + [Building(target, appChangeRevision, |changes|, |builds|)];
        builds := builds + [Build(target, |changes|, None)];
      } else {
        building := false;
      }
    }

    /** What the loop does when the build it awaited settles; `relaunch` asks for the old app to be stopped. */
    method AfterBuild(ghost i: nat, target: Target, buildAppRevision: nat, succeeded: bool) returns (relaunch: bool)
      requires i < |drains| && drains[i].Building?
      requires drains[i].target == target && drains[i].appRevision == buildAppRevision
      modifies this
      ensures View() == Next(old(View()), BuildFinishes(i, succeeded))
      ensures relaunch <==> succeeded && !stopping && target == App && old(appChangeRevision) == buildAppRevision
    {
      relaunch := false;
      builds := Finished(builds, drains[i].build, succeeded);
      if succeeded && !stopping {
        if target == App && appChangeRevision == buildAppRevision {
          relaunch := true;
          drains := drains[i := StoppingApp(drains[i].began, |changes|)];
          return;
        }
      }
      drains := Without(drains, i);
      ContinueLoop();
    }

    /** Launches the fresh bundle once the old app has exited. */
    method AfterAppStopped(ghost i: nat)
      requires i < |drains| && drains[i].StoppingApp?
      modifies this
      ensures View() == Next(old(View()), AppStopped(i))
    {
      if !stopping { launches := launches + [Launch(drains[i].began, drains[i].decided)]; }
      drains := Without(drains, i);
      ContinueLoop();
    }

    method Shutdown()
      modifies this
      ensures View() == Next(old(View()), Stop)
    {
      stopping, timer := true, false;
    }
  }
}
