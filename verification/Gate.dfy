/** One tick of the collectors: per-environment groups run concurrently over a shared snapshot store. */
module Gate {
  import opened Protocol

  datatype Reachability = Reachable | Unreachable | Asleep

  datatype SignalState = Healthy | Degraded | Down | Skipped

  /** A stored snapshot: what of its payload later reads depend on. */
  datatype Row = Row(observedAt: int, state: SignalState, reachability: Option<Reachability>,
                     build: Option<string>, skipped: Option<Reachability>)

  type Key = (string, string)
  type Rows = map<Key, Row>

  const AVAILABILITY := "availability"
  const REACHABILITY_REUSE_SECS := 300

  datatype Signal = Signal(id: string, gated: bool)

  datatype ProbeResult =
    | Observation(state: SignalState, reachability: Option<Reachability>, build: Option<string>)
    | ProbeError

  /** What the availability signal recorded for an environment, if recent enough. */
  function RecentReachability(rows: Rows, env: string, observedAt: int): Option<Reachability> {
    if (env, AVAILABILITY) !in rows then None
    else if observedAt - rows[(env, AVAILABILITY)].observedAt > REACHABILITY_REUSE_SECS then None
    else rows[(env, AVAILABILITY)].reachability
  }

  predicate Blocks(r: Option<Reachability>) { r == Some(Asleep) || r == Some(Unreachable) }

  function SkippedRow(at: int, reason: Reachability): Row { Row(at, Skipped, None, None, Some(reason)) }

  function ProbedRow(at: int, p: ProbeResult): Row {
    match p
    case Observation(state, reachability, build) => Row(at, state, reachability, build, None)
    case ProbeError => Row(at, Down, Some(Unreachable), None, None)
  }

  // ----- interleaved group threads -----

  /** Where a group thread stands in its current collector; `readable` is whether its gate read worked. */
  datatype Stage =
    | Ready
    | Started(at: int)
    | Skipping(at: int, reason: Reachability)
    | Probing(at: int, readable: bool)
    | Writing(at: int, readable: bool, result: ProbeResult)
    | Crashed

  /**
   * What one collector did this tick, from its gate read on: when it read the clock, whether the gate read worked,
   * what its probe found if it called it, and, once it came to its write, whether that stored the row.
   */
  datatype Record = Record(at: int, gateRead: bool, found: Option<ProbeResult>, wrote: Option<bool>)

  datatype Group = Group(signals: seq<Signal>, position: nat, stage: Stage, records: map<nat, Record>)

  datatype Tick = Tick(rows: Rows, groups: map<string, Group>, probes: set<Key>)

  datatype Action =
    | OpenFails(env: string)                      // the store does not open: the collector returns an error
    | Begin(env: string, at: int)                 // reads the clock
    | ReadGate(env: string, readable: bool)       // reads the availability row
    | Probe(env: string, result: ProbeResult)
    | Write(env: string, stored: bool)
    | Panic(env: string)

  function Current(g: Group): Signal
    requires g.position < |g.signals|
  {
    g.signals[g.position]
  }

  predicate Enabled(t: Tick, a: Action) {
    && a.env in t.groups
    && var g := t.groups[a.env];
       g.position < |g.signals| &&
       match a
       case OpenFails(_) => g.stage.Ready?
       case Begin(_, _) => g.stage.Ready?
       case ReadGate(_, _) => g.stage.Started?
       case Probe(_, _) => g.stage.Probing?
       case Write(_, _) => g.stage.Skipping? || g.stage.Writing?
       case Panic(_) => !g.stage.Crashed?
  }

  function Decided(rows: Rows, env: string, s: Signal, at: int, readable: bool): Stage {
    var r := if readable then RecentReachability(rows, env, at) else None;
    if s.gated && Blocks(r) then Skipping(at, r.value) else Probing(at, readable)
  }

  function Pending(stage: Stage): Row
    requires stage.Skipping? || stage.Writing?
  {
    if stage.Skipping? then SkippedRow(stage.at, stage.reason) else ProbedRow(stage.at, stage.result)
  }

  /** The record of a collector that comes to its write. */
  function Concluded(stage: Stage, stored: bool): Record
    requires stage.Skipping? || stage.Writing?
  {
    if stage.Skipping? then Record(stage.at, true, None, Some(stored))
    else Record(stage.at, stage.readable, Some(stage.result), Some(stored))
  }

  function Next(t: Tick, a: Action): (t': Tick)
    requires Enabled(t, a)
    ensures t'.groups.Keys == t.groups.Keys
  {
    var g := t.groups[a.env];
    var key := (a.env, Current(g).id);
    match a
    case OpenFails(_) => t.(groups := t.groups[a.env := g.(position := g.position + 1)])
    case Begin(_, at) => t.(groups := t.groups[a.env := g.(stage := Started(at))])
    case ReadGate(_, readable) =>
      t.(groups := t.groups[a.env :=
           g.(stage := Decided(t.rows, a.env, Current(g), g.stage.at, readable),
              records := g.records[g.position := Record(g.stage.at, readable, None, None)])])
    case Probe(_, result) =>
      t.(groups := t.groups[a.env :=
           g.(stage := Writing(g.stage.at, g.stage.readable, result),
              records := g.records[g.position := Record(g.stage.at, g.stage.readable, Some(result), None)])],
         probes := t.probes + {key})
    case Write(_, stored) =>
      var row := Pending(g.stage);
      t.(rows := if stored then t.rows[key := row] else t.rows,
         groups := t.groups[a.env := g.(position := g.position + 1, stage := Ready,
                      records := g.records[g.position := Concluded(g.stage, stored)])])
    case Panic(_) => t.(groups := t.groups[a.env := g.(stage := Crashed)])
  }

  /** The tick after `k` attempted steps; a step that is not enabled waits. */
  function After(start: Tick, actions: seq<Action>, k: nat): (t: Tick)
    requires k <= |actions|
    ensures t.groups.Keys == start.groups.Keys
  {
    if k == 0 then start
    else
      var t := After(start, actions, k - 1);
      if Enabled(t, actions[k - 1]) then Next(t, actions[k - 1]) else t
  }

  /** A group as it is registered: availability first and ungated, no signal twice. */
  predicate WellWired(signals: seq<Signal>) {
    && signals != [] && signals[0] == Signal(AVAILABILITY, false)
    && forall i, j :: 0 <= i < j < |signals| ==> signals[i].id != signals[j].id
  }

  /** The start of a tick: any rows from earlier ticks, every group at its first collector. */
  predicate TickStarts(t: Tick) {
    && t.probes == {}
    && forall e :: e in t.groups ==> t.groups[e] == Group(t.groups[e].signals, 0, Ready, map[])
  }

  // ----- invariant of one environment -----

  /** What the gate makes of collector `i`, read against the availability row in the store. */
  function Verdict(t: Tick, env: string, i: nat, at: int, gateRead: bool): Option<Reachability>
    requires env in t.groups && i < |t.groups[env].signals|
  {
    var r := RecentReachability(t.rows, env, at);
    if t.groups[env].signals[i].gated && gateRead && Blocks(r) then r else None
  }

  function KeyOf(t: Tick, env: string, i: nat): Key
    requires env in t.groups && i < |t.groups[env].signals|
  {
    (env, t.groups[env].signals[i].id)
  }

  /** A recorded collector that is held back never probes; once it has come to its write, the rest is settled too. */
  predicate Settled(t: Tick, env: string, i: nat)
    requires env in t.groups && i < |t.groups[env].signals| && i in t.groups[env].records
  {
    var r, key := t.groups[env].records[i], KeyOf(t, env, i);
    var verdict := Verdict(t, env, i, r.at, r.gateRead);
    && (r.found.Some? ==> key in t.probes)
    && if verdict.Some? then
         && key !in t.probes && r.found == None
         && (r.wrote == Some(true) ==> key in t.rows && t.rows[key] == SkippedRow(r.at, verdict.value))
       else
         && (r.wrote.Some? ==> r.found.Some?)
         && (r.wrote == Some(true) ==> key in t.rows && t.rows[key] == ProbedRow(r.at, r.found.value))
  }

  predicate StageInv(t: Tick, env: string)
    requires env in t.groups
  {
    var g := t.groups[env];
    g.position < |g.signals| ==>
      var key := KeyOf(t, env, g.position);
      match g.stage
      case Ready => key !in t.probes
      case Started(_) => key !in t.probes
      case Skipping(at, reason) => key !in t.probes && Verdict(t, env, g.position, at, true) == Some(reason)
      case Probing(at, readable) => key !in t.probes && Verdict(t, env, g.position, at, readable) == None
      case Writing(at, readable, _) => key in t.probes && Verdict(t, env, g.position, at, readable) == None
      case Crashed => true
  }

  /** The current collector has a record exactly from its gate read on. */
  predicate RecordInv(g: Group) {
    && (forall i :: i in g.records ==> i <= g.position && i < |g.signals|)
    && (g.position in g.records ==> !g.stage.Ready? && !g.stage.Started?)
    && (g.stage.Skipping? ==> g.position in g.records && g.records[g.position] == Record(g.stage.at, true, None, None))
    && (g.stage.Probing? ==>
          g.position in g.records && g.records[g.position] == Record(g.stage.at, g.stage.readable, None, None))
    && (g.stage.Writing? ==>
          && g.position in g.records
          && g.records[g.position] == Record(g.stage.at, g.stage.readable, Some(g.stage.result), None))
  }

  ghost predicate GroupInv(t: Tick, env: string)
    requires env in t.groups
  {
    var g := t.groups[env];
    && WellWired(g.signals)
    && g.position <= |g.signals|
    && (g.position == |g.signals| ==> g.stage.Ready?)
    && RecordInv(g)
    && (forall i :: g.position < i < |g.signals| ==> KeyOf(t, env, i) !in t.probes)
    && StageInv(t, env)
    && (forall i {:trigger Settled(t, env, i)} :: i in g.records ==> Settled(t, env, i))
  }

  /** A step of another group changes none of this environment's rows, probes or progress. */
  lemma OtherGroupsNeverInterfere(t: Tick, a: Action, env: string)
    requires Enabled(t, a) && env in t.groups && a.env != env
    ensures Next(t, a).groups.Keys == t.groups.Keys && Next(t, a).groups[env] == t.groups[env]
    ensures forall s :: (env, s) in Next(t, a).rows <==> (env, s) in t.rows
    ensures forall s :: (env, s) in t.rows ==> Next(t, a).rows[(env, s)] == t.rows[(env, s)]
    ensures forall s :: (env, s) in Next(t, a).probes <==> (env, s) in t.probes
  {}

  /** The two stores hold the same availability row for this environment. */
  predicate SameAvailability(rows: Rows, rows': Rows, env: string) {
    && ((env, AVAILABILITY) in rows <==> (env, AVAILABILITY) in rows')
    && ((env, AVAILABILITY) in rows ==> rows[(env, AVAILABILITY)] == rows'[(env, AVAILABILITY)])
  }

  lemma OtherStepKeepsInv(t: Tick, a: Action, env: string)
    requires Enabled(t, a) && env in t.groups && a.env != env && GroupInv(t, env)
    ensures GroupInv(Next(t, a), env)
  {
    OtherGroupsNeverInterfere(t, a, env);
    var t' := Next(t, a);
    hide Next;
    var g := t'.groups[env];
    assert SameAvailability(t.rows, t'.rows, env);
    forall i | g.position < i < |g.signals| ensures KeyOf(t', env, i) !in t'.probes {
      assert KeyOf(t, env, i) !in t.probes;
    }
    forall i | i in g.records ensures Settled(t', env, i) { assert Settled(t, env, i); }
    assert StageInv(t, env);
  }

  lemma OwnStepKeepsInv(t: Tick, a: Action)
    requires Enabled(t, a) && GroupInv(t, a.env) && !a.Write?
    ensures GroupInv(Next(t, a), a.env)
  {
    var t', env := Next(t, a), a.env;
    var g, g' := t.groups[env], t'.groups[env];
    assert SameAvailability(t.rows, t'.rows, env) && g'.signals == g.signals;
    forall i | 0 <= i < |g.signals| && i != g.position && KeyOf(t, env, i) !in t.probes
      ensures KeyOf(t', env, i) !in t'.probes
    {
      DistinctKeys(g.signals, i, g.position);
    }
    forall i | g'.position < i < |g.signals| ensures KeyOf(t', env, i) !in t'.probes {
      assert KeyOf(t, env, i) !in t.probes;
    }
    forall i | i in g'.records ensures Settled(t', env, i) {
      if i != g.position {
        assert Settled(t, env, i);
        DistinctKeys(g.signals, i, g.position);
      } else {
        assert StageInv(t, env);
        assert i in g.records ==> Settled(t, env, i);
      }
    }
    assert StageInv(t', env) by {
      assert StageInv(t, env);
      assert g.position + 1 < |g.signals| ==> KeyOf(t, env, g.position + 1) !in t.probes;
    }
  }

  lemma DistinctKeys(signals: seq<Signal>, i: nat, j: nat)
    requires WellWired(signals) && i < |signals| && j < |signals| && i != j
    ensures signals[i].id != signals[j].id
  {
    if i < j { assert signals[i].id != signals[j].id; } else { assert signals[j].id != signals[i].id; }
  }

  lemma OwnWriteKeepsInv(t: Tick, env: string, stored: bool)
    requires Enabled(t, Write(env, stored)) && GroupInv(t, env)
    ensures GroupInv(Next(t, Write(env, stored)), env)
  {
    var t' := Next(t, Write(env, stored));
    var g, g' := t.groups[env], t'.groups[env];
    var key := KeyOf(t, env, g.position);
    assert g.position > 0 ==> SameAvailability(t.rows, t'.rows, env) by {
      if g.position > 0 { DistinctKeys(g.signals, 0, g.position); }
    }
    assert forall i :: i in g'.records ==> 0 < i || i == g.position || g.position > 0;
    forall i | g'.position <= i < |g.signals| ensures KeyOf(t', env, i) !in t'.probes {
      assert KeyOf(t, env, i) !in t.probes;
    }
    forall i | i in g'.records ensures Settled(t', env, i) {
      if i != g.position {
        assert Settled(t, env, i);
        DistinctKeys(g.signals, i, g.position);
      } else {
        assert StageInv(t, env);
      }
    }
  }

  lemma {:induction false} Reachable(start: Tick, actions: seq<Action>, k: nat, env: string)
    requires k <= |actions| && TickStarts(start)
    requires env in start.groups && WellWired(start.groups[env].signals)
    ensures After(start, actions, k).groups[env].signals == start.groups[env].signals
    ensures GroupInv(After(start, actions, k), env)
  {
    if k > 0 {
      Reachable(start, actions, k - 1, env);
      var t, a := After(start, actions, k - 1), actions[k - 1];
      if Enabled(t, a) {
        if a.env != env {
          OtherGroupsNeverInterfere(t, a, env);
          OtherStepKeepsInv(t, a, env);
        } else if a.Write? {
          OwnWriteKeepsInv(t, env, a.stored);
        } else {
          OwnStepKeepsInv(t, a);
        }
      }
    }
  }

  /**
   * A collector that read the gate and is held back by it, its availability row saying asleep or unreachable
   * within the reuse window, never calls its probe, even if it panics afterwards, and stores a skip with that
   * reason. One that came to its write and was not held back called its probe and stores what it found.
   */
  predicate FollowsGate(t: Tick, env: string, i: nat)
    requires env in t.groups && i < |t.groups[env].signals| && i in t.groups[env].records
  {
    var signal, r := t.groups[env].signals[i], t.groups[env].records[i];
    var availability, key := (env, AVAILABILITY), (env, signal.id);
    var held :=
      && signal.gated && r.gateRead && availability in t.rows
      && r.at - t.rows[availability].observedAt <= 300
      && (t.rows[availability].reachability == Some(Asleep) || t.rows[availability].reachability == Some(Unreachable));
    && (held ==> key !in t.probes && r.found == None)
    && (r.wrote.Some? && !held ==> key in t.probes && r.found.Some?)
    && (r.wrote == Some(true) ==> key in t.rows)
    && (r.wrote == Some(true) && held ==>
          t.rows[key] == Row(r.at, Skipped, None, None, Some(t.rows[availability].reachability.value)))
    && (r.wrote == Some(true) && !held ==>
          match r.found.value
          case Observation(state, reachability, build) => t.rows[key] == Row(r.at, state, reachability, build, None)
          case ProbeError => t.rows[key] == Row(r.at, Down, Some(Unreachable), None, None))
  }

  lemma SettledFollowsGate(t: Tick, env: string, i: nat)
    requires env in t.groups && i < |t.groups[env].signals| && i in t.groups[env].records && Settled(t, env, i)
    ensures FollowsGate(t, env, i)
  {}

  /** Under every interleaving of the groups, every collector that read the gate followed it. */
  lemma GateSound(start: Tick, actions: seq<Action>, env: string, i: nat)
    requires TickStarts(start) && env in start.groups && WellWired(start.groups[env].signals)
    requires i in After(start, actions, |actions|).groups[env].records
    ensures i < |start.groups[env].signals| == |After(start, actions, |actions|).groups[env].signals|
    ensures FollowsGate(After(start, actions, |actions|), env, i)
  {
    hide After, FollowsGate, Settled;
    Reachable(start, actions, |actions|, env);
    SettledFollowsGate(After(start, actions, |actions|), env, i);
  }

  /**
   * A collector whose store does not open, or that comes to its write, whether or not that works, hands over to
   * the next one of its list; no other step moves on, and none but a panic ends the list early.
   */
  lemma ErrorsAreIsolated(t: Tick, a: Action)
    requires Enabled(t, a)
    ensures
      var g, g' := t.groups[a.env], Next(t, a).groups[a.env];
      && g'.signals == g.signals
      && g'.position == g.position + (if a.OpenFails? || a.Write? then 1 else 0)
      && (a.OpenFails? || a.Write? ==> g'.stage == Ready)
      && (g'.stage == Crashed <==> a.Panic?)
      && (forall i :: i != g.position ==>
            (i in g'.records <==> i in g.records) && (i in g.records ==> g'.records[i] == g.records[i]))
  {}

  /** In a run a row changes only by the write of its own collector: whoever stored nothing this tick leaves it. */
  lemma {:induction false} UnwrittenRowsStay(start: Tick, actions: seq<Action>, k: nat, env: string, i: nat)
    requires k <= |actions| && TickStarts(start) && env in start.groups && WellWired(start.groups[env].signals)
    requires i < |start.groups[env].signals|
    requires
      var records := After(start, actions, k).groups[env].records;
      i in records ==> records[i].wrote != Some(true)
    ensures
      var key := (env, start.groups[env].signals[i].id);
      Find(After(start, actions, k).rows, key) == Find(start.rows, key)
  {
    if k > 0 {
      var t, a := After(start, actions, k - 1), actions[k - 1];
      Reachable(start, actions, k - 1, env);
      if Enabled(t, a) {
        RecordsGrow(t, a, env, i);
        if a.env != env { OtherGroupsNeverInterfere(t, a, env); }
        if a.env == env && i != t.groups[env].position {
          DistinctKeys(t.groups[env].signals, i, t.groups[env].position);
        }
      }
      UnwrittenRowsStay(start, actions, k - 1, env, i);
    }
  }

  lemma RecordsGrow(t: Tick, a: Action, env: string, i: nat)
    requires Enabled(t, a) && env in t.groups && GroupInv(t, env)
    ensures
      var before, after := t.groups[env].records, Next(t, a).groups[env].records;
      i in before && before[i].wrote == Some(true) ==> i in after && after[i].wrote == Some(true)
  {
    if a.env != env { OtherGroupsNeverInterfere(t, a, env); }
  }

  /** The environment's own rows and progress depend only on its own steps: the other groups may run at any speed. */
  lemma {:induction false} GroupsAreIndependent(start: Tick, actions: seq<Action>, k: nat, env: string)
    requires k <= |actions| && env in start.groups
    ensures After(start, actions, k).groups[env] == Alone(start, actions, k, env).groups[env]
    ensures SameRows(After(start, actions, k), Alone(start, actions, k, env), env)
  {
    if k > 0 {
      GroupsAreIndependent(start, actions, k - 1, env);
      var t, u, a := After(start, actions, k - 1), Alone(start, actions, k - 1, env), actions[k - 1];
      if a.env != env {
        if Enabled(t, a) { OtherGroupsNeverInterfere(t, a, env); }
      } else {
        OwnStepIsLocal(t, u, a);
      }
    }
  }

  /** The same run with every other group standing still. */
  function Alone(start: Tick, actions: seq<Action>, k: nat, env: string): (t: Tick)
    requires k <= |actions|
    ensures t.groups.Keys == start.groups.Keys
  {
    if k == 0 then start
    else
      var t := Alone(start, actions, k - 1, env);
      if actions[k - 1].env == env && Enabled(t, actions[k - 1]) then Next(t, actions[k - 1]) else t
  }

  ghost predicate SameRows(t: Tick, u: Tick, env: string) {
    && (forall s {:trigger (env, s) in t.rows} :: (env, s) in t.rows <==> (env, s) in u.rows)
    && (forall s {:trigger t.rows[(env, s)]} ::
          (env, s) in t.rows && (env, s) in u.rows ==> t.rows[(env, s)] == u.rows[(env, s)])
    && (forall s {:trigger (env, s) in t.probes} :: (env, s) in t.probes <==> (env, s) in u.probes)
  }

  lemma OwnStepIsLocal(t: Tick, u: Tick, a: Action)
    requires a.env in t.groups && a.env in u.groups && t.groups[a.env] == u.groups[a.env] && SameRows(t, u, a.env)
    ensures Enabled(t, a) <==> Enabled(u, a)
    ensures
      Enabled(t, a) ==>
        Next(t, a).groups[a.env] == Next(u, a).groups[a.env] && SameRows(Next(t, a), Next(u, a), a.env)
  {
    assert (a.env, AVAILABILITY) in t.rows <==> (a.env, AVAILABILITY) in u.rows;
  }

  /** A panicked group does nothing more this tick; its earlier rows stand. */
  lemma {:induction false} PanicCutsOffItsOwnList(start: Tick, actions: seq<Action>, k: nat, m: nat, env: string)
    requires k <= m <= |actions| && env in start.groups
    requires After(start, actions, k).groups[env].stage.Crashed?
    ensures After(start, actions, m).groups[env] == After(start, actions, k).groups[env]
    ensures SameRows(After(start, actions, m), After(start, actions, k), env)
  {
    if k < m {
      PanicCutsOffItsOwnList(start, actions, k, m - 1, env);
      var t, a := After(start, actions, m - 1), actions[m - 1];
      if Enabled(t, a) && a.env != env { OtherGroupsNeverInterfere(t, a, env); }
    }
  }

  // ----- one group thread, run without interleaving -----

  /** What the outside world answers while one collector runs. */
  datatype Turn = Turn(opens: bool, at: int, readable: bool, result: ProbeResult, stored: bool)

  function Step(t: Tick, a: Action): Tick { if Enabled(t, a) then Next(t, a) else t }

  /** One collector as the four steps of the concurrent model. */
  function Collected(t: Tick, env: string, turn: Turn): Tick {
    if !turn.opens then Step(t, OpenFails(env))
    else
      var read := Step(Step(t, Begin(env, turn.at)), ReadGate(env, turn.readable));
      Step(Step(read, Probe(env, turn.result)), Write(env, turn.stored))
  }

  /** The row the collector ends up with, and what its probe found if it was called. */
  function Outcome(rows: Rows, env: string, signal: Signal, turn: Turn): (Row, Option<ProbeResult>) {
    var recent := if turn.readable then RecentReachability(rows, env, turn.at) else None;
    if signal.gated && (recent == Some(Asleep) || recent == Some(Unreachable))
    then (Row(turn.at, Skipped, None, None, recent), None)
    else (ProbedRow(turn.at, turn.result), Some(turn.result))
  }

  function RecordOf(turn: Turn, found: Option<ProbeResult>): Record {
    Record(turn.at, turn.readable, found, Some(turn.stored))
  }

  lemma CollectedOutcome(t: Tick, env: string, turn: Turn)
    requires env in t.groups && t.groups[env].position < |t.groups[env].signals|
    requires t.groups[env].stage == Ready && turn.opens
    ensures
      var g := t.groups[env];
      var key := (env, Current(g).id);
      var outcome := Outcome(t.rows, env, Current(g), turn);
      Collected(t, env, turn)
      == Tick(if turn.stored then t.rows[key := outcome.0] else t.rows,
              t.groups[env := Group(g.signals, g.position + 1, Ready,
                                    g.records[g.position := RecordOf(turn, outcome.1)])],
              if outcome.1.Some? then t.probes + {key} else t.probes)
  {
    var begun := Next(t, Begin(env, turn.at));
    var read := Next(begun, ReadGate(env, turn.readable));
    var probed := Step(read, Probe(env, turn.result));
    var written := Next(probed, Write(env, turn.stored));
    assert Collected(t, env, turn) == written;
    var g := t.groups[env];
    var outcome := Outcome(t.rows, env, Current(g), turn);
    assert written.groups[env].records == g.records[g.position := RecordOf(turn, outcome.1)];
    assert written.groups == t.groups[env := written.groups[env]];
  }

  function CollectedAll(t: Tick, env: string, turns: seq<Turn>, k: nat): Tick
    requires k <= |turns|
  {
    if k == 0 then t else Collected(CollectedAll(t, env, turns, k - 1), env, turns[k - 1])
  }

  /** The snapshot store and the group threads working on it. */
  class CollectorThreads {
    var rows: Rows
    var groups: map<string, Group>
    var probes: set<Key>

    ghost function View(): Tick
      reads this
    {
      Tick(rows, groups, probes)
    }

    constructor (rows: Rows, groups: map<string, seq<Signal>>)
      ensures TickStarts(View()) && this.rows == rows && this.groups.Keys == groups.Keys
      ensures forall e :: e in groups ==> this.groups[e].signals == groups[e]
    {
      this.rows := rows;
      this.groups := map e | e in groups :: Group(groups[e], 0, Ready, map[]);
      this.probes := {};
    }

    method CollectEnvironment(env: string, turn: Turn)
      requires env in groups && groups[env].position < |groups[env].signals| && groups[env].stage == Ready
      modifies this
      ensures View() == Collected(old(View()), env, turn)
      ensures env in groups && groups[env].stage == Ready && groups[env].signals == old(groups[env].signals)
      ensures groups[env].position == old(groups[env].position) + 1
    {
      var g := groups[env];
      if !turn.opens {
        groups := groups[env := g.(position := g.position + 1)];
        return;
      }
      CollectedOutcome(View(), env, turn);
      hide Collected;
      var signal := g.signals[g.position];
      var row;
      var found := None;
      var recent := if turn.readable then RecentReachability(rows, env, turn.at) else None;
      if signal.gated && Blocks(recent) {
        row := SkippedRow(turn.at, recent.value);
      } else {
        probes := probes + {(env, signal.id)};
        found := Some(turn.result);
        row := ProbedRow(turn.at, turn.result);
      }
      if turn.stored {
        rows := rows[(env, signal.id) := row];
      }
      groups := groups[env := Group(g.signals, g.position + 1, Ready,
                                    g.records[g.position := RecordOf(turn, found)])];
    }

    method RunSequential(env: string, turns: seq<Turn>)
      requires env in groups && groups[env].position == 0 && groups[env].stage == Ready
      requires |turns| == |groups[env].signals|
      modifies this
      ensures View() == CollectedAll(old(View()), env, turns, |turns|)
      ensures env in groups && groups[env].position == |groups[env].signals|
    {
      var k := 0;
      while k < |turns|
        invariant 0 <= k <= |turns|
        invariant env in groups && groups[env].position == k && groups[env].stage == Ready
        invariant |turns| == |groups[env].signals|
        invariant View() == CollectedAll(old(View()), env, turns, k)
      {
        CollectEnvironment(env, turns[k]);
        k := k + 1;
      }
    }
  }
}
