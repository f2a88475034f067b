/** What every pass of the drift collector, and every run of passes, guarantees. */
module DriftVerdicts {
  import opened Protocol
  import opened Gate
  import opened DriftPass

  // ----- what the stored availability rows say -----

  /** A readable availability row, recent enough to be reused, that says the environment is asleep or unreachable. */
  predicate SeenDown(w: World, id: string, how: Reachability) {
    && w.gateReads(id) && (id, "availability") in w.rows
    && w.at - w.rows[(id, "availability")].observedAt <= 300
    && w.rows[(id, "availability")].reachability == Some(how)
    && (how == Asleep || how == Unreachable)
  }

  predicate OutOfReach(w: World, id: string) { SeenDown(w, id, Asleep) || SeenDown(w, id, Unreachable) }

  lemma HeldIffOutOfReach(w: World, id: string)
    ensures Held(w, id) <==> OutOfReach(w, id)
    ensures Held(w, id) ==> SeenDown(w, id, Seen(w, id).value)
    ensures forall how :: SeenDown(w, id, how) ==> Seen(w, id) == Some(how)
  {}

  // ----- inventories do not depend on the order of the pass -----

  /** Refreshing any environment's inventory changes no inventory read later in the same pass. */
  lemma RefreshKeepsInventories(cache: Cache, w: World, refreshed: string, id: string, poll: nat)
    ensures InventoryOf(Refreshed(cache, w, refreshed), w, id, poll) == InventoryOf(cache, w, id, poll)
    ensures PagesOf(Refreshed(cache, w, refreshed), w, id) == PagesOf(cache, w, id)
  {
    hide BuildOf;
    assert PagesOf(Refreshed(cache, w, refreshed), w, id) == PagesOf(cache, w, id);
  }

  // ----- verdicts of one pass -----

  function Count(log: seq<Entry>, id: string, k: nat): nat
    requires k <= |log|
  {
    if k == 0 then 0 else Count(log, id, k - 1) + if log[k - 1].env == id then 1 else 0
  }

  lemma {:induction false} CountPrefix(a: seq<Entry>, b: seq<Entry>, id: string, k: nat)
    requires k <= |a|
    ensures Count(a + b, id, k) == Count(a, id, k)
  {
    if k > 0 { CountPrefix(a, b, id, k - 1); }
  }

  lemma RecordedCounts(p: Progress, w: World, written: string, v: Verdict, id: string)
    ensures
      var q := Recorded(p, w, written, v);
      Count(q.log, id, |q.log|) == Count(p.log, id, |p.log|) + if written == id then 1 else 0
  {
    var q := Recorded(p, w, written, v);
    CountPrefix(p.log, [Entry(written, v)], id, |p.log|);
    assert q.log[|q.log| - 1] == Entry(written, v);
  }

  predicate DistinctIds(envs: seq<Environment>) {
    forall i, j :: 0 <= i < j < |envs| ==> envs[i].id != envs[j].id
  }

  predicate Configured(envs: seq<Environment>, k: nat, id: string)
    requires k <= |envs|
  {
    exists i :: 0 <= i < k && envs[i].id == id
  }

  lemma {:induction false} SkippedEachCounts(
    envs: seq<Environment>, rule: SkipRule, w: World, p: Progress, k: nat, id: string)
    requires k <= |envs| && DistinctIds(envs)
    ensures
      var q := SkippedEach(envs, rule, w, p, k);
      Count(q.log, id, |q.log|) == Count(p.log, id, |p.log|) + if Configured(envs, k, id) then 1 else 0
  {
    if k > 0 {
      SkippedEachCounts(envs, rule, w, p, k - 1, id);
      var q, last := SkippedEach(envs, rule, w, p, k - 1), envs[k - 1].id;
      RecordedCounts(q, w, last, SkipRow(ReasonFor(rule, last)), id);
      ConfiguredStep(envs, k, id);
    }
  }

  lemma ConfiguredStep(envs: seq<Environment>, k: nat, id: string)
    requires 0 < k <= |envs| && DistinctIds(envs)
    ensures Configured(envs, k, id) <==> Configured(envs, k - 1, id) || envs[k - 1].id == id
    ensures !(Configured(envs, k - 1, id) && envs[k - 1].id == id)
  {}

  lemma TargetRecords(p: Progress, e: Environment, source: Fetch<EnvInventory>, w: World, poll: nat)
    ensures
      var q := Target(p, e, source, w, poll);
      var verdict := TargetVerdict(e, source, InventoryOf(p.cache, w, e.id, poll), w);
      && q.log == p.log + [Entry(e.id, verdict)]
      && q.table == (if w.stores(e.id) then p.table[e.id := verdict] else p.table)
      && q.failed == (p.failed || !w.stores(e.id))
      && q.cache == (if Held(w, e.id) || source.Failed? then p.cache else Refreshed(p.cache, w, e.id))
      && (q.asked == p.asked || (!Held(w, e.id) && q.asked == p.asked + [e.id]))
  {
    hide TargetVerdict, InventoryOf, AsksInstance, Refreshed, Held;
  }

  lemma {:induction false} TargetsCounts(
    envs: seq<Environment>, sourceId: string, source: Fetch<EnvInventory>, w: World, poll: nat, p: Progress, k: nat,
    id: string)
    requires k <= |envs| && DistinctIds(envs)
    ensures
      var q := Targets(envs, sourceId, source, w, poll, p, k);
      Count(q.log, id, |q.log|)
      == Count(p.log, id, |p.log|) + if Configured(envs, k, id) && id != sourceId then 1 else 0
  {
    hide Target, Configured, Count;
    if k > 0 {
      TargetsCounts(envs, sourceId, source, w, poll, p, k - 1, id);
      var q := Targets(envs, sourceId, source, w, poll, p, k - 1);
      ConfiguredStep(envs, k, id);
      if envs[k - 1].id != sourceId {
        TargetRecords(q, envs[k - 1], source, w, poll);
        var verdict := TargetVerdict(envs[k - 1], source, InventoryOf(q.cache, w, envs[k - 1].id, poll), w);
        RecordedCounts(q, w, envs[k - 1].id, verdict, id);
      }
    } else {
      assert !Configured(envs, 0, id) by { NoneConfigured(envs, id); }
    }
  }

  lemma NoneConfigured(envs: seq<Environment>, id: string)
    ensures !Configured(envs, 0, id)
  {}

  /** A pass whose store opens writes one verdict for every configured environment and none for anything else. */
  lemma OneVerdictEach(
    envs: seq<Environment>, cache: Cache, table: map<string, Verdict>, w: World, poll: nat, id: string)
    requires DistinctIds(envs)
    ensures
      var log := Pass(envs, cache, table, w, poll).log;
      Count(log, id, |log|) == if w.opens && exists i :: 0 <= i < |envs| && envs[i].id == id then 1 else 0
  {
    hide Targets, Target, SkippedEach, RecentReachability, Asked, InventoryOf, SourceVerdict;
    var p := Progress(cache, [], table, [], false);
    var i := FirstSource(envs, |envs|);
    SkippedEachCounts(envs, Everywhere("no_clone_source"), w, p, |envs|, id);
    SkippedEachCounts(envs, Everywhere("need_two_environments"), w, p, |envs|, id);
    if i < |envs| {
      var source := envs[i].id;
      if Held(w, source) {
        SkippedEachCounts(envs, SourceHeld(source, Seen(w, source).value), w, p, |envs|, id);
      } else {
        var inventory := InventoryOf(cache, w, source, poll);
        var asked := Asked(p, w, source, poll);
        AskedWritesNothing(p, w, source, poll);
        RecordedCounts(asked, w, source, SourceVerdict(inventory), id);
        var begun := Recorded(asked, w, source, SourceVerdict(inventory));
        TargetsCounts(envs, source, inventory, w, poll, begun, |envs|, id);
      }
    }
  }

  lemma AskedWritesNothing(p: Progress, w: World, id: string, poll: nat)
    ensures var q := Asked(p, w, id, poll); q.log == p.log && q.table == p.table && q.failed == p.failed
    ensures Asked(p, w, id, poll).cache == Refreshed(p.cache, w, id)
    ensures Asked(p, w, id, poll).asked == p.asked || Asked(p, w, id, poll).asked == p.asked + [id]
  {}

  /** The verdict an environment is due, from the configuration, the cache before the pass and the world alone. */
  ghost function DueVerdict(envs: seq<Environment>, cache: Cache, w: World, poll: nat, e: Environment): Verdict {
    var i := FirstSource(envs, |envs|);
    if i == |envs| then SkipRow("no_clone_source")
    else if |envs| < 2 then SkipRow("need_two_environments")
    else
      var source := envs[i].id;
      if Held(w, source) then
        SkipRow(if e.id == source then Named(Seen(w, source).value) else "clone_source_" + Named(Seen(w, source).value))
      else if e.id == source then SourceVerdict(InventoryOf(cache, w, source, poll))
      else TargetVerdict(e, InventoryOf(cache, w, source, poll), InventoryOf(cache, w, e.id, poll), w)
  }

  lemma {:induction false} SkippedEachLogs(envs: seq<Environment>, rule: SkipRule, w: World, p: Progress, k: nat)
    requires k <= |envs|
    ensures
      var q := SkippedEach(envs, rule, w, p, k);
      && q.cache == p.cache && q.asked == p.asked && p.log <= q.log
      && forall j :: 0 <= j < k ==> Entry(envs[j].id, SkipRow(ReasonFor(rule, envs[j].id))) in q.log
  {
    if k > 0 { SkippedEachLogs(envs, rule, w, p, k - 1); }
  }

  lemma {:induction false} TargetsLogs(
    envs: seq<Environment>, sourceId: string, source: Fetch<EnvInventory>, w: World, poll: nat, p: Progress, k: nat,
    j: nat)
    requires j <= k <= |envs|
    ensures p.log <= Targets(envs, sourceId, source, w, poll, p, k).log
    ensures Targets(envs, sourceId, source, w, poll, p, j).log <= Targets(envs, sourceId, source, w, poll, p, k).log
  {
    hide Target;
    if k > 0 {
      TargetsLogs(envs, sourceId, source, w, poll, p, k - 1, if j == k then k - 1 else j);
      TargetRecords(Targets(envs, sourceId, source, w, poll, p, k - 1), envs[k - 1], source, w, poll);
    }
  }

  lemma {:induction false} TargetsKeepInventories(
    envs: seq<Environment>, sourceId: string, source: Fetch<EnvInventory>, w: World, poll: nat, p: Progress, k: nat,
    id: string)
    requires k <= |envs|
    ensures
      InventoryOf(Targets(envs, sourceId, source, w, poll, p, k).cache, w, id, poll)
      == InventoryOf(p.cache, w, id, poll)
  {
    hide Target, InventoryOf, Refreshed;
    if k > 0 {
      var q := Targets(envs, sourceId, source, w, poll, p, k - 1);
      TargetsKeepInventories(envs, sourceId, source, w, poll, p, k - 1, id);
      TargetRecords(q, envs[k - 1], source, w, poll);
      RefreshKeepsInventories(q.cache, w, envs[k - 1].id, id, poll);
    }
  }

  /** Every environment is given exactly the verdict it is due, whatever was refreshed before it in the pass. */
  lemma EveryVerdictIsDue(
    envs: seq<Environment>, cache: Cache, table: map<string, Verdict>, w: World, poll: nat, j: nat)
    requires j < |envs| && w.opens
    ensures Entry(envs[j].id, DueVerdict(envs, cache, w, poll, envs[j])) in Pass(envs, cache, table, w, poll).log
  {
    hide Targets, Target, TargetVerdict, SkippedEach, RecentReachability, Asked, InventoryOf, SourceVerdict;
    var p := Progress(cache, [], table, [], false);
    var i := FirstSource(envs, |envs|);
    var e := envs[j];
    SkippedEachLogs(envs, Everywhere("no_clone_source"), w, p, |envs|);
    SkippedEachLogs(envs, Everywhere("need_two_environments"), w, p, |envs|);
    if i < |envs| && |envs| >= 2 {
      var source := envs[i].id;
      if Held(w, source) {
        SkippedEachLogs(envs, SourceHeld(source, Seen(w, source).value), w, p, |envs|);
      } else {
        var inventory := InventoryOf(cache, w, source, poll);
        AskedWritesNothing(p, w, source, poll);
        var begun := Recorded(Asked(p, w, source, poll), w, source, SourceVerdict(inventory));
        assert begun.log == [Entry(source, SourceVerdict(inventory))];
        if e.id == source {
          TargetsLogs(envs, source, inventory, w, poll, begun, |envs|, 0);
          var ended := Targets(envs, source, inventory, w, poll, begun, |envs|);
          assert ended.log[0] == Entry(source, SourceVerdict(inventory));
        } else {
          TargetIsDue(envs, source, inventory, w, poll, begun, j);
          RefreshKeepsInventories(cache, w, source, e.id, poll);
        }
      }
    }
  }

  lemma TargetIsDue(
    envs: seq<Environment>, sourceId: string, source: Fetch<EnvInventory>, w: World, poll: nat, p: Progress, j: nat)
    requires j < |envs| && envs[j].id != sourceId
    ensures
      Entry(envs[j].id, TargetVerdict(envs[j], source, InventoryOf(p.cache, w, envs[j].id, poll), w))
      in Targets(envs, sourceId, source, w, poll, p, |envs|).log
  {
    hide Target, TargetVerdict, InventoryOf;
    var q := Targets(envs, sourceId, source, w, poll, p, j);
    TargetRecords(q, envs[j], source, w, poll);
    TargetsKeepInventories(envs, sourceId, source, w, poll, p, j, envs[j].id);
    var next := Targets(envs, sourceId, source, w, poll, p, j + 1);
    var own := InventoryOf(p.cache, w, envs[j].id, poll);
    assert next.log[|next.log| - 1] == Entry(envs[j].id, TargetVerdict(envs[j], source, own, w));
    TargetsLogs(envs, sourceId, source, w, poll, p, |envs|, j + 1);
  }

  // ----- who is probed -----

  lemma {:induction false} TargetsAsk(
    envs: seq<Environment>, sourceId: string, source: Fetch<EnvInventory>, w: World, poll: nat, p: Progress, k: nat)
    requires k <= |envs| && forall id :: id in p.asked ==> !Held(w, id)
    ensures forall id :: id in Targets(envs, sourceId, source, w, poll, p, k).asked ==> !Held(w, id)
  {
    hide Target, Held;
    if k > 0 {
      TargetsAsk(envs, sourceId, source, w, poll, p, k - 1);
      TargetRecords(Targets(envs, sourceId, source, w, poll, p, k - 1), envs[k - 1], source, w, poll);
    }
  }

  /** No instance recently seen asleep or unreachable is sent a request; if it is the source, nobody is. */
  lemma {:induction false} HeldInstancesAreNotAsked(
    envs: seq<Environment>, cache: Cache, table: map<string, Verdict>, w: World, poll: nat)
    ensures forall id :: id in Pass(envs, cache, table, w, poll).asked ==> !OutOfReach(w, id)
    ensures
      (var i := FirstSource(envs, |envs|);
       !w.opens || i == |envs| || |envs| < 2 || OutOfReach(w, envs[i].id) ==>
         Pass(envs, cache, table, w, poll).asked == [] && Pass(envs, cache, table, w, poll).cache == cache)
  {
    forall id ensures Held(w, id) <==> OutOfReach(w, id) { HeldIffOutOfReach(w, id); }
    hide Targets, Target, SkippedEach, RecentReachability, InventoryOf, SourceVerdict, AsksInstance;
    hide Refreshed, OutOfReach;
    var p := Progress(cache, [], table, [], false);
    var i := FirstSource(envs, |envs|);
    SkippedEachLogs(envs, Everywhere("no_clone_source"), w, p, |envs|);
    SkippedEachLogs(envs, Everywhere("need_two_environments"), w, p, |envs|);
    if i < |envs| {
      var source := envs[i].id;
      if Held(w, source) {
        SkippedEachLogs(envs, SourceHeld(source, Seen(w, source).value), w, p, |envs|);
      } else {
        AskedWritesNothing(p, w, source, poll);
        var inventory := InventoryOf(cache, w, source, poll);
        var begun := Recorded(Asked(p, w, source, poll), w, source, SourceVerdict(inventory));
        TargetsAsk(envs, source, inventory, w, poll, begun, |envs|);
      }
    }
  }

  // ----- what reaches the store -----

  /** Some entry of the log is for this environment. */
  predicate Logged(log: seq<Entry>, id: string) { Count(log, id, |log|) > 0 }

  /** The table holds the logged verdict of each environment whose write worked, and is untouched elsewhere. */
  ghost predicate TableFollows(p: Progress, before: map<string, Verdict>, w: World) {
    && (forall id :: w.stores(id) && Logged(p.log, id) ==> id in p.table && Entry(id, p.table[id]) in p.log)
    && (forall id :: !w.stores(id) || !Logged(p.log, id) ==> Find(p.table, id) == Find(before, id))
    && (p.failed <==> exists id :: Logged(p.log, id) && !w.stores(id))
  }

  lemma RecordedIsLogged(p: Progress, w: World, id: string, v: Verdict, x: string)
    ensures Logged(Recorded(p, w, id, v).log, x) <==> Logged(p.log, x) || x == id
  {
    RecordedCounts(p, w, id, v, x);
  }

  lemma RecordedFollows(p: Progress, before: map<string, Verdict>, w: World, id: string, v: Verdict)
    requires TableFollows(p, before, w)
    ensures TableFollows(Recorded(p, w, id, v), before, w)
  {
    hide Logged;
    var q := Recorded(p, w, id, v);
    forall x ensures Logged(q.log, x) <==> Logged(p.log, x) || x == id { RecordedIsLogged(p, w, id, v, x); }
    assert q.log[|q.log| - 1] == Entry(id, v);
    assert forall x :: x in p.log ==> x in q.log;
    if p.failed {
      var x :| Logged(p.log, x) && !w.stores(x);
      assert Logged(q.log, x);
    }
  }

  lemma {:induction false} SkippedEachFollows(
    envs: seq<Environment>, rule: SkipRule, w: World, p: Progress, before: map<string, Verdict>, k: nat)
    requires k <= |envs| && TableFollows(p, before, w)
    ensures TableFollows(SkippedEach(envs, rule, w, p, k), before, w)
  {
    hide TableFollows, Recorded;
    if k > 0 {
      SkippedEachFollows(envs, rule, w, p, before, k - 1);
      var q := SkippedEach(envs, rule, w, p, k - 1);
      RecordedFollows(q, before, w, envs[k - 1].id, SkipRow(ReasonFor(rule, envs[k - 1].id)));
    }
  }

  lemma AskedFollows(p: Progress, before: map<string, Verdict>, w: World, id: string, poll: nat)
    requires TableFollows(p, before, w)
    ensures TableFollows(Asked(p, w, id, poll), before, w)
  {
    hide Asked;
    AskedWritesNothing(p, w, id, poll);
  }

  lemma {:induction false} TargetsFollow(
    envs: seq<Environment>, sourceId: string, source: Fetch<EnvInventory>, w: World, poll: nat, p: Progress,
    before: map<string, Verdict>, k: nat)
    requires k <= |envs| && TableFollows(p, before, w)
    ensures TableFollows(Targets(envs, sourceId, source, w, poll, p, k), before, w)
  {
    hide TableFollows, Recorded, TargetVerdict, InventoryOf, Asked, Held;
    if k > 0 {
      TargetsFollow(envs, sourceId, source, w, poll, p, before, k - 1);
      var q, e := Targets(envs, sourceId, source, w, poll, p, k - 1), envs[k - 1];
      var verdict := TargetVerdict(e, source, InventoryOf(q.cache, w, e.id, poll), w);
      AskedFollows(q, before, w, e.id, poll);
      RecordedFollows(q, before, w, e.id, verdict);
      RecordedFollows(Asked(q, w, e.id, poll), before, w, e.id, verdict);
    }
  }

  /** A pass whose store does not open fails and changes nothing. */
  lemma ClosedStoreChangesNothing(
    envs: seq<Environment>, cache: Cache, table: map<string, Verdict>, w: World, poll: nat)
    requires !w.opens
    ensures Pass(envs, cache, table, w, poll) == Progress(cache, [], table, [], true)
  {}

  lemma PassFollows(envs: seq<Environment>, cache: Cache, table: map<string, Verdict>, w: World, poll: nat)
    requires w.opens
    ensures TableFollows(Pass(envs, cache, table, w, poll), table, w)
  {
    hide TableFollows, Recorded, Targets, SkippedEach, RecentReachability, Asked, InventoryOf, SourceVerdict;
    var p := Progress(cache, [], table, [], false);
    NothingLogged(p, w);
    var i := FirstSource(envs, |envs|);
    SkippedEachFollows(envs, Everywhere("no_clone_source"), w, p, table, |envs|);
    SkippedEachFollows(envs, Everywhere("need_two_environments"), w, p, table, |envs|);
    if i < |envs| {
      var source := envs[i].id;
      if Held(w, source) {
        SkippedEachFollows(envs, SourceHeld(source, Seen(w, source).value), w, p, table, |envs|);
      } else {
        var inventory := InventoryOf(cache, w, source, poll);
        AskedFollows(p, table, w, source, poll);
        RecordedFollows(Asked(p, w, source, poll), table, w, source, SourceVerdict(inventory));
        TargetsFollow(envs, source, inventory, w, poll,
                      Recorded(Asked(p, w, source, poll), w, source, SourceVerdict(inventory)), table, |envs|);
      }
    }
  }

  lemma NothingLogged(p: Progress, w: World)
    requires p.log == [] && !p.failed
    ensures TableFollows(p, p.table, w)
  {}

  lemma {:induction false} CountedEntries(log: seq<Entry>, id: string, k: nat, i: nat, j: nat)
    requires i <= j < k <= |log| && log[i].env == id && log[j].env == id
    ensures Count(log, id, k) >= if i == j then 1 else 2
  {
    if j < k - 1 {
      CountedEntries(log, id, k - 1, i, j);
    } else if i < j {
      CountedEntries(log, id, k - 1, i, i);
    }
  }

  lemma OnlyEntry(log: seq<Entry>, id: string, a: Verdict, b: Verdict)
    requires Count(log, id, |log|) <= 1 && Entry(id, a) in log && Entry(id, b) in log
    ensures a == b && Count(log, id, |log|) == 1
  {
    var i :| 0 <= i < |log| && log[i] == Entry(id, a);
    var j :| 0 <= j < |log| && log[j] == Entry(id, b);
    if i <= j { CountedEntries(log, id, |log|, i, j); } else { CountedEntries(log, id, |log|, j, i); }
  }

  /**
   * After a pass the stored verdict of every environment whose write worked is the one it was due, every other
   * stored verdict is as before, and the pass reports failure exactly when some environment's write failed.
   */
  lemma StoredVerdictsAreDue(envs: seq<Environment>, cache: Cache, table: map<string, Verdict>, w: World, poll: nat)
    requires DistinctIds(envs)
    ensures
      var p := Pass(envs, cache, table, w, poll);
      && (forall j :: 0 <= j < |envs| && w.opens && w.stores(envs[j].id) ==>
            envs[j].id in p.table && p.table[envs[j].id] == DueVerdict(envs, cache, w, poll, envs[j]))
      && (forall id :: !w.opens || !w.stores(id) || !Configured(envs, |envs|, id) ==>
            Find(p.table, id) == Find(table, id))
      && (p.failed <==> !w.opens || exists j :: 0 <= j < |envs| && !w.stores(envs[j].id))
  {
    hide Pass, DueVerdict;
    var p := Pass(envs, cache, table, w, poll);
    if !w.opens {
      ClosedStoreChangesNothing(envs, cache, table, w, poll);
      return;
    }
    PassFollows(envs, cache, table, w, poll);
    forall id ensures Count(p.log, id, |p.log|) == if Configured(envs, |envs|, id) then 1 else 0 {
      OneVerdictEach(envs, cache, table, w, poll, id);
    }
    hide Count;
    forall j | 0 <= j < |envs| && w.stores(envs[j].id)
      ensures envs[j].id in p.table && p.table[envs[j].id] == DueVerdict(envs, cache, w, poll, envs[j])
    {
      EveryVerdictIsDue(envs, cache, table, w, poll, j);
      assert Configured(envs, |envs|, envs[j].id);
      OnlyEntry(p.log, envs[j].id, p.table[envs[j].id], DueVerdict(envs, cache, w, poll, envs[j]));
    }
    if exists j :: 0 <= j < |envs| && !w.stores(envs[j].id) {
      var j :| 0 <= j < |envs| && !w.stores(envs[j].id);
      assert Configured(envs, |envs|, envs[j].id);
      assert Logged(p.log, envs[j].id);
    }
  }

  /** An environment recently seen asleep or unreachable is skipped by the pass, never down and never compared. */
  lemma HeldTargetsAreSkipped(
    envs: seq<Environment>, cache: Cache, table: map<string, Verdict>, w: World, poll: nat, j: nat, v: Verdict)
    requires DistinctIds(envs) && j < |envs| && OutOfReach(w, envs[j].id)
    requires Entry(envs[j].id, v) in Pass(envs, cache, table, w, poll).log
    ensures v.SkipRow?
  {
    HeldIffOutOfReach(w, envs[j].id);
    hide OutOfReach;
    hide InventoryOf, RecentReachability, SourceVerdict, Pass, Count;
    if !w.opens {
      ClosedStoreChangesNothing(envs, cache, table, w, poll);
      assert false;
    }
    OneVerdictEach(envs, cache, table, w, poll, envs[j].id);
    EveryVerdictIsDue(envs, cache, table, w, poll, j);
    OnlyEntry(Pass(envs, cache, table, w, poll).log, envs[j].id, v, DueVerdict(envs, cache, w, poll, envs[j]));
  }

  // ----- the inventory cache over runs of passes -----

  /** The cache left by the first `k` passes of a run that starts with an empty cache. */
  ghost function CacheAfter(envs: seq<Environment>, worlds: seq<World>, poll: nat, k: nat): Cache
    requires k <= |worlds|
  {
    if k == 0 then map[] else Pass(envs, CacheAfter(envs, worlds, poll, k - 1), map[], worlds[k - 1], poll).cache
  }

  /** An entry is either kept or replaced, when stale, by what this pass fetched. */
  predicate Steps(before: Cache, after: Cache, w: World, id: string) {
    || Find(after, id) == Find(before, id)
    || (!Fresh(before, id, w.at) && id in after && FetchedPages(w, id) == Fetched(after[id]))
  }

  lemma RefreshedSteps(cache: Cache, middle: Cache, w: World, refreshed: string, id: string)
    requires Steps(cache, middle, w, id)
    ensures Steps(cache, Refreshed(middle, w, refreshed), w, id)
  {}

  lemma {:induction false} TargetsStep(
    envs: seq<Environment>, sourceId: string, source: Fetch<EnvInventory>, w: World, poll: nat, p: Progress,
    before: Cache, k: nat, id: string)
    requires k <= |envs| && Steps(before, p.cache, w, id)
    ensures Steps(before, Targets(envs, sourceId, source, w, poll, p, k).cache, w, id)
  {
    hide Target, Steps;
    if k > 0 {
      TargetsStep(envs, sourceId, source, w, poll, p, before, k - 1, id);
      var q := Targets(envs, sourceId, source, w, poll, p, k - 1);
      TargetRecords(q, envs[k - 1], source, w, poll);
      RefreshedSteps(before, q.cache, w, envs[k - 1].id, id);
    }
  }

  /** A pass changes a cached inventory only to replace a stale or missing one by pages that both arrived. */
  lemma PassSteps(envs: seq<Environment>, cache: Cache, table: map<string, Verdict>, w: World, poll: nat, id: string)
    ensures Steps(cache, Pass(envs, cache, table, w, poll).cache, w, id)
  {
    hide Targets, SkippedEach, RecentReachability, Asked, InventoryOf, SourceVerdict, Steps;
    HeldInstancesAreNotAsked(envs, cache, table, w, poll);
    var p := Progress(cache, [], table, [], false);
    var i := FirstSource(envs, |envs|);
    SameSteps(cache, w, id);
    if i < |envs| { HeldIffOutOfReach(w, envs[i].id); }
    if i < |envs| && |envs| >= 2 && !Held(w, envs[i].id) {
      var source := envs[i].id;
      var inventory := InventoryOf(cache, w, source, poll);
      AskedWritesNothing(p, w, source, poll);
      RefreshedSteps(cache, cache, w, source, id);
      TargetsStep(envs, source, inventory, w, poll,
                  Recorded(Asked(p, w, source, poll), w, source, SourceVerdict(inventory)), cache, |envs|, id);
    }
  }

  lemma SameSteps(cache: Cache, w: World, id: string)
    ensures Steps(cache, cache, w, id)
  {}

  predicate FetchedIn(worlds: seq<World>, j: nat, id: string, entry: Cached)
    requires j < |worlds|
  {
    FetchedPages(worlds[j], id) == Fetched(entry)
  }

  lemma {:induction false} CacheIsGrounded(envs: seq<Environment>, worlds: seq<World>, poll: nat, k: nat, id: string)
    requires k <= |worlds| && id in CacheAfter(envs, worlds, poll, k)
    ensures exists j :: 0 <= j < k && FetchedIn(worlds, j, id, CacheAfter(envs, worlds, poll, k)[id])
  {
    hide Pass;
    if k > 0 {
      var before := CacheAfter(envs, worlds, poll, k - 1);
      PassSteps(envs, before, map[], worlds[k - 1], poll, id);
      if Find(before, id) == Find(CacheAfter(envs, worlds, poll, k), id) {
        CacheIsGrounded(envs, worlds, poll, k - 1, id);
      } else {
        assert FetchedIn(worlds, k - 1, id, CacheAfter(envs, worlds, poll, k)[id]);
      }
    }
  }

  predicate TimeMovesForward(worlds: seq<World>) {
    forall i, j :: 0 <= i < j < |worlds| ==> worlds[i].at <= worlds[j].at
  }

  /**
   * Over any run whose clock does not go back, an inventory used for an environment is one that some pass fetched
   * whole from that same environment, at most the refresh interval earlier.
   */
  lemma UsedInventoryIsRecent(envs: seq<Environment>, worlds: seq<World>, poll: nat, k: nat, id: string)
    requires k < |worlds| && TimeMovesForward(worlds)
    requires InventoryOf(CacheAfter(envs, worlds, poll, k), worlds[k], id, poll).Fetched?
    ensures
      var used := InventoryOf(CacheAfter(envs, worlds, poll, k), worlds[k], id, poll).value;
      exists j :: 0 <= j <= k && worlds[k].at - worlds[j].at <= INVENTORY_REFRESH_SECS && worlds[j].at <= worlds[k].at
        && FetchedIn(worlds, j, id, Cached(worlds[j].at, used.plugins, used.truncated))
  {
    hide BuildOf, CacheAfter;
    var cache := CacheAfter(envs, worlds, poll, k);
    var used := InventoryOf(cache, worlds[k], id, poll).value;
    var pages := PagesOf(cache, worlds[k], id).value;
    if Fresh(cache, id, worlds[k].at) {
      CacheIsGrounded(envs, worlds, poll, k, id);
      var j :| 0 <= j < k && FetchedIn(worlds, j, id, cache[id]);
      assert FetchedIn(worlds, j, id, Cached(worlds[j].at, used.plugins, used.truncated));
    } else {
      assert FetchedIn(worlds, k, id, Cached(worlds[k].at, used.plugins, used.truncated));
    }
  }

  /** Pass `k` replaced the cached inventory of this environment. */
  ghost predicate Refetches(envs: seq<Environment>, worlds: seq<World>, poll: nat, k: nat, id: string)
    requires k < |worlds|
  {
    Find(CacheAfter(envs, worlds, poll, k + 1), id) != Find(CacheAfter(envs, worlds, poll, k), id)
  }

  lemma {:induction false} EntryStaysRecent(
    envs: seq<Environment>, worlds: seq<World>, poll: nat, j: nat, k: nat, id: string)
    requires j < k <= |worlds| && TimeMovesForward(worlds) && Refetches(envs, worlds, poll, j, id)
    ensures id in CacheAfter(envs, worlds, poll, k) && CacheAfter(envs, worlds, poll, k)[id].fetchedAt >= worlds[j].at
  {
    hide Pass;
    var before := CacheAfter(envs, worlds, poll, k - 1);
    PassSteps(envs, before, map[], worlds[k - 1], poll, id);
    if j < k - 1 { EntryStaysRecent(envs, worlds, poll, j, k - 1, id); }
  }

  /**
   * Two fetches that replaced one environment's cached inventory are more than the refresh interval apart; a failed
   * fetch replaces nothing and may be repeated by the next pass.
   */
  lemma RefetchesAreSpaced(envs: seq<Environment>, worlds: seq<World>, poll: nat, j: nat, k: nat, id: string)
    requires j < k < |worlds| && TimeMovesForward(worlds)
    requires Refetches(envs, worlds, poll, j, id) && Refetches(envs, worlds, poll, k, id)
    ensures worlds[k].at - worlds[j].at > INVENTORY_REFRESH_SECS
  {
    hide Pass;
    EntryStaysRecent(envs, worlds, poll, j, k, id);
    PassSteps(envs, CacheAfter(envs, worlds, poll, k), map[], worlds[k], poll, id);
  }
}
