/** What a drift pass reports and whom it asks, spelled out on stored rows, cached and fetched pages, and builds. */
module DriftReport {
  import opened Order
  import opened Protocol
  import opened PluginDiff
  import opened Gate
  import opened DriftPass
  import opened DriftVerdicts

  // ----- what can be read of one instance -----

  predicate CacheServes(cache: Cache, w: World, id: string) { id in cache && w.at - cache[id].fetchedAt <= 1800 }

  /** The inventory records of an instance: the cached ones while fresh, otherwise both pages, plugins first. */
  predicate PagesAre(cache: Cache, w: World, id: string, records: seq<Plugin>, truncated: bool) {
    if CacheServes(cache, w, id) then records == cache[id].plugins && truncated == cache[id].truncated
    else
      && w.plugins(id).Fetched? && w.storeApps(id).Fetched?
      && records == w.plugins(id).value.records + w.storeApps(id).value.records
      && truncated == (w.plugins(id).value.truncated || w.storeApps(id).value.truncated)
  }

  /** The availability row holds a known build no older than two polls. */
  predicate RowServes(w: World, id: string, poll: nat) {
    && w.buildReads(id) && (id, "availability") in w.rows
    && w.at - w.rows[(id, "availability")].observedAt <= 2 * poll
    && w.rows[(id, "availability")].build.Some? && w.rows[(id, "availability")].build.value != ""
  }

  predicate BuildIs(w: World, id: string, poll: nat, build: Option<string>) {
    if RowServes(w, id, poll) then build == w.rows[(id, "availability")].build
    else w.builds(id) == Fetched(build)
  }

  predicate ReadsAs(cache: Cache, w: World, id: string, poll: nat, inventory: EnvInventory) {
    PagesAre(cache, w, id, inventory.plugins, inventory.truncated) && BuildIs(w, id, poll, inventory.build)
  }

  /** The first request that fails: plugins, store apps, build. */
  predicate ReadFails(cache: Cache, w: World, id: string, poll: nat, message: string) {
    if !CacheServes(cache, w, id) && w.plugins(id).Failed? then message == w.plugins(id).message
    else if !CacheServes(cache, w, id) && w.storeApps(id).Failed? then message == w.storeApps(id).message
    else !RowServes(w, id, poll) && w.builds(id) == Failed(message)
  }

  lemma ReadingSpelledOut(cache: Cache, w: World, id: string, poll: nat)
    ensures
      match InventoryOf(cache, w, id, poll)
      case Fetched(inventory) => ReadsAs(cache, w, id, poll, inventory)
      case Failed(message) => ReadFails(cache, w, id, poll, message)
    ensures
      forall inventory ::
        ReadsAs(cache, w, id, poll, inventory) ==> InventoryOf(cache, w, id, poll) == Fetched(inventory)
    ensures
      forall message :: ReadFails(cache, w, id, poll, message) ==> InventoryOf(cache, w, id, poll) == Failed(message)
  {}

  // ----- the verdicts -----

  /** Environment `i` is the first clone source. */
  predicate Source(envs: seq<Environment>, i: nat) {
    i < |envs| && envs[i].cloneSource && forall j :: 0 <= j < i ==> !envs[j].cloneSource
  }

  /** The pass compares: there are two environments or more, and environment `i`, the first clone source, is up. */
  predicate Compares(envs: seq<Environment>, w: World, i: nat) {
    w.opens && |envs| >= 2 && Source(envs, i) && !OutOfReach(w, envs[i].id)
  }

  function Word(how: Reachability): string { if how == Asleep then "asleep" else "unreachable" }

  lemma OnlyDueVerdict(
    envs: seq<Environment>, cache: Cache, table: map<string, Verdict>, w: World, poll: nat, j: nat, v: Verdict)
    requires DistinctIds(envs) && w.opens && j < |envs|
    requires Entry(envs[j].id, v) in Pass(envs, cache, table, w, poll).log
    ensures v == DueVerdict(envs, cache, w, poll, envs[j])
  {
    hide Pass, DueVerdict, Count;
    OneVerdictEach(envs, cache, table, w, poll, envs[j].id);
    EveryVerdictIsDue(envs, cache, table, w, poll, j);
    OnlyEntry(Pass(envs, cache, table, w, poll).log, envs[j].id, v, DueVerdict(envs, cache, w, poll, envs[j]));
  }

  lemma FirstSourceIsSource(envs: seq<Environment>, i: nat)
    requires Source(envs, i)
    ensures FirstSource(envs, |envs|) == i
  {}

  /** Without a clone source, alone, or with the source down, every environment is skipped with that reason. */
  lemma SkippedPassReports(
    envs: seq<Environment>, cache: Cache, table: map<string, Verdict>, w: World, poll: nat, j: nat, v: Verdict)
    requires DistinctIds(envs) && w.opens && j < |envs|
    requires Entry(envs[j].id, v) in Pass(envs, cache, table, w, poll).log
    ensures (forall i :: 0 <= i < |envs| ==> !envs[i].cloneSource) ==> v == SkipRow("no_clone_source")
    ensures |envs| < 2 && envs[j].cloneSource ==> v == SkipRow("need_two_environments")
    ensures
      forall i: nat, how :: |envs| >= 2 && Source(envs, i) && SeenDown(w, envs[i].id, how) ==>
        v == SkipRow(if i == j then Word(how) else "clone_source_" + Word(how))
  {
    OnlyDueVerdict(envs, cache, table, w, poll, j, v);
    hide InventoryOf, TargetVerdict, SourceVerdict, Pass, RecentReachability;
    forall i: nat, how | |envs| >= 2 && Source(envs, i) && SeenDown(w, envs[i].id, how)
      ensures v == SkipRow(if i == j then Word(how) else "clone_source_" + Word(how))
    {
      FirstSourceIsSource(envs, i);
      HeldIffOutOfReach(w, envs[i].id);
      assert envs[j].id == envs[i].id <==> i == j;
    }
  }

  /** A source that is up is reported as the source when its inventory and build can be read, otherwise as down. */
  lemma SourceReports(
    envs: seq<Environment>, cache: Cache, table: map<string, Verdict>, w: World, poll: nat, i: nat, v: Verdict)
    requires DistinctIds(envs) && Compares(envs, w, i)
    requires Entry(envs[i].id, v) in Pass(envs, cache, table, w, poll).log
    ensures v == SourceRow <==> exists inventory :: ReadsAs(cache, w, envs[i].id, poll, inventory)
    ensures forall message :: v == DownRow(message) <==> ReadFails(cache, w, envs[i].id, poll, message)
    ensures v == SourceRow || v.DownRow?
  {
    OnlyDueVerdict(envs, cache, table, w, poll, i, v);
    FirstSourceIsSource(envs, i);
    HeldIffOutOfReach(w, envs[i].id);
    ReadingSpelledOut(cache, w, envs[i].id, poll);
    hide InventoryOf, Pass, Held, OutOfReach, ReadsAs, ReadFails, FirstSource;
    assert v == SourceVerdict(InventoryOf(cache, w, envs[i].id, poll));
  }

  /** What the row of a compared target says, from the records and builds of the two instances. */
  ghost predicate Describes(c: Comparison, e: Environment, source: EnvInventory, target: EnvInventory) {
    var a, b := ById(source.plugins), ById(target.plugins);
    var surprises := set id | id in Differing(a, b) && id !in e.expectedDrift;
    && c.list == Diff(a, b)[..if |Differing(a, b)| < 50 then |Differing(a, b)| else 50]
    && (c.listTruncated <==> |Differing(a, b)| > 50)
    && c.truncated == (source.truncated || target.truncated)
    && c.buildMatches == (if source.build.Some? && target.build.Some? then Some(source.build == target.build) else None)
    && c.mismatches == |surprises| && c.mismatches + c.expectedMismatches == |Differing(a, b)|
    && c.state == if c.buildMatches != Some(false) && |surprises| < e.degradedAt then Healthy else Degraded
  }

  lemma ComparedDescribes(e: Environment, source: EnvInventory, target: EnvInventory)
    ensures Describes(Compared(e, source, target), e, source, target)
  {
    ComparedMeans(e, source, target);
    hide Diff, ById, Filter;
    var a, b := ById(source.plugins), ById(target.plugins);
    assert (set id | id in Differing(a, b) && id !in e.expectedDrift) == Surprises(e, source, target);
  }

  lemma TargetVerdictStored(
    envs: seq<Environment>, cache: Cache, table: map<string, Verdict>, w: World, poll: nat, i: nat, j: nat, v: Verdict)
    requires DistinctIds(envs) && Compares(envs, w, i) && j < |envs| && i != j
    requires Entry(envs[j].id, v) in Pass(envs, cache, table, w, poll).log
    ensures
      v == TargetVerdict(envs[j], InventoryOf(cache, w, envs[i].id, poll), InventoryOf(cache, w, envs[j].id, poll), w)
  {
    OnlyDueVerdict(envs, cache, table, w, poll, j, v);
    FirstSourceIsSource(envs, i);
    HeldIffOutOfReach(w, envs[i].id);
    hide InventoryOf, Pass, FirstSource, TargetVerdict, RecentReachability, Held;
    assert envs[j].id != envs[i].id;
  }

  /**
   * A target is skipped exactly when it is down itself; else it is down when the source cannot be read or it
   * cannot be read itself; else its row describes the difference from the source to it.
   */
  lemma TargetReports(
    envs: seq<Environment>, cache: Cache, table: map<string, Verdict>, w: World, poll: nat, i: nat, j: nat, v: Verdict)
    requires DistinctIds(envs) && Compares(envs, w, i) && j < |envs| && i != j
    requires Entry(envs[j].id, v) in Pass(envs, cache, table, w, poll).log
    ensures forall how :: SeenDown(w, envs[j].id, how) ==> v == SkipRow(Word(how))
    ensures v.SkipRow? <==> OutOfReach(w, envs[j].id)
    ensures
      !OutOfReach(w, envs[j].id) && (exists message :: ReadFails(cache, w, envs[i].id, poll, message)) ==>
        v == DownRow("clone source unreachable")
    ensures
      !OutOfReach(w, envs[j].id) && (exists inventory :: ReadsAs(cache, w, envs[i].id, poll, inventory)) ==>
        forall message :: ReadFails(cache, w, envs[j].id, poll, message) ==> v == DownRow(message)
    ensures
      !OutOfReach(w, envs[j].id) ==>
        forall source, target ::
          ReadsAs(cache, w, envs[i].id, poll, source) && ReadsAs(cache, w, envs[j].id, poll, target) ==>
            v.ComparedRow? && Describes(v.comparison, envs[j], source, target)
  {
    TargetVerdictStored(envs, cache, table, w, poll, i, j, v);
    HeldIffOutOfReach(w, envs[j].id);
    ReadingSpelledOut(cache, w, envs[i].id, poll);
    ReadingSpelledOut(cache, w, envs[j].id, poll);
    hide InventoryOf, Pass, ReadsAs, ReadFails, Compares, Describes, Compared, RecentReachability, DistinctIds;
    var source, own := InventoryOf(cache, w, envs[i].id, poll), InventoryOf(cache, w, envs[j].id, poll);
    if source.Fetched? && own.Fetched? { ComparedDescribes(envs[j], source.value, own.value); }
  }

  // ----- who is asked -----

  /** Reading this instance takes a request: its pages are not cached or its build is not stored. */
  predicate NeedsRequest(cache: Cache, w: World, id: string, poll: nat) {
    !CacheServes(cache, w, id) || !RowServes(w, id, poll)
  }

  lemma NotConfiguredBefore(envs: seq<Environment>, k: nat, id: string)
    requires 0 < k <= |envs| && !Configured(envs, k, id)
    ensures !Configured(envs, k - 1, id) && envs[k - 1].id != id
  {}

  lemma {:induction false} TargetsKeepOthers(
    envs: seq<Environment>, sourceId: string, source: Fetch<EnvInventory>, w: World, poll: nat, p: Progress, k: nat,
    id: string)
    requires k <= |envs| && !Configured(envs, k, id)
    ensures Find(Targets(envs, sourceId, source, w, poll, p, k).cache, id) == Find(p.cache, id)
  {
    hide Target;
    if k > 0 {
      NotConfiguredBefore(envs, k, id);
      TargetsKeepOthers(envs, sourceId, source, w, poll, p, k - 1, id);
      TargetRecords(Targets(envs, sourceId, source, w, poll, p, k - 1), envs[k - 1], source, w, poll);
    }
  }

  /** What reading one target asks: itself, when it is up, the source could be read and a request is needed. */
  lemma TargetAsks(p: Progress, e: Environment, source: Fetch<EnvInventory>, w: World, poll: nat)
    ensures
      Target(p, e, source, w, poll).asked
      == if !OutOfReach(w, e.id) && source.Fetched? && NeedsRequest(p.cache, w, e.id, poll)
         then p.asked + [e.id] else p.asked
  {
    HeldIffOutOfReach(w, e.id);
    hide TargetVerdict, InventoryOf, OutOfReach, RecentReachability;
  }

  lemma {:induction false} TargetsAskExactly(
    envs: seq<Environment>, sourceId: string, source: Fetch<EnvInventory>, w: World, poll: nat, p: Progress, k: nat,
    id: string)
    requires k <= |envs| && DistinctIds(envs)
    ensures
      id in Targets(envs, sourceId, source, w, poll, p, k).asked
      <==> id in p.asked
           || (Configured(envs, k, id) && id != sourceId && !OutOfReach(w, id) && source.Fetched?
               && NeedsRequest(p.cache, w, id, poll))
  {
    hide Target, OutOfReach, RowServes, Configured;
    if k > 0 {
      var q, e := Targets(envs, sourceId, source, w, poll, p, k - 1), envs[k - 1];
      TargetsAskExactly(envs, sourceId, source, w, poll, p, k - 1, id);
      ConfiguredStep(envs, k, id);
      if e.id != sourceId {
        TargetAsks(q, e, source, w, poll);
        if e.id == id { TargetsKeepOthers(envs, sourceId, source, w, poll, p, k - 1, id); }
      }
    } else {
      NoneConfigured(envs, id);
    }
  }

  /**
   * An instance is sent requests exactly when the pass compares and the instance needs them, being the source or
   * a target that is up while the source could be read.
   */
  lemma AskedExactly(
    envs: seq<Environment>, cache: Cache, table: map<string, Verdict>, w: World, poll: nat, i: nat, id: string)
    requires DistinctIds(envs) && Compares(envs, w, i)
    ensures
      id in Pass(envs, cache, table, w, poll).asked
      <==> NeedsRequest(cache, w, id, poll)
           && (id == envs[i].id
               || (Configured(envs, |envs|, id) && !OutOfReach(w, id)
                   && exists inventory :: ReadsAs(cache, w, envs[i].id, poll, inventory)))
  {
    FirstSourceIsSource(envs, i);
    var source := envs[i].id;
    HeldIffOutOfReach(w, source);
    ReadingSpelledOut(cache, w, source, poll);
    var p, inventory := Progress(cache, [], table, [], false), InventoryOf(cache, w, source, poll);
    var begun := Recorded(Asked(p, w, source, poll), w, source, SourceVerdict(inventory));
    SourceAsks(p, w, source, poll);
    assert Configured(envs, |envs|, source);
    assert inventory.Failed? ==> forall other :: !ReadsAs(cache, w, source, poll, other);
    hide InventoryOf, Targets, ReadsAs, ReadFails, OutOfReach, Held, FirstSource, SourceVerdict, Asked, RowServes,
      Configured;
    TargetsAskExactly(envs, source, inventory, w, poll, begun, |envs|, id);
  }

  lemma SourceAsks(p: Progress, w: World, id: string, poll: nat)
    requires p.asked == []
    ensures Asked(p, w, id, poll).asked == if NeedsRequest(p.cache, w, id, poll) then [id] else []
    ensures
      forall other :: other != id ==>
        (NeedsRequest(Asked(p, w, id, poll).cache, w, other, poll) <==> NeedsRequest(p.cache, w, other, poll))
  {}

  /**
   * Whoever is read and not served from the cache is cached with this pass's pages, if both arrived; everybody
   * else's entry is left as it was.
   */
  lemma CachedExactly(
    envs: seq<Environment>, cache: Cache, table: map<string, Verdict>, w: World, poll: nat, i: nat, id: string)
    requires DistinctIds(envs) && Compares(envs, w, i)
    ensures
      var read :=
        id == envs[i].id
        || (Configured(envs, |envs|, id) && !OutOfReach(w, id)
            && exists inventory :: ReadsAs(cache, w, envs[i].id, poll, inventory));
      Find(Pass(envs, cache, table, w, poll).cache, id)
      == if read && !CacheServes(cache, w, id) && w.plugins(id).Fetched? && w.storeApps(id).Fetched?
         then Some(Cached(w.at, w.plugins(id).value.records + w.storeApps(id).value.records,
                          w.plugins(id).value.truncated || w.storeApps(id).value.truncated))
         else Find(cache, id)
  {
    FirstSourceIsSource(envs, i);
    var source := envs[i].id;
    HeldIffOutOfReach(w, source);
    ReadingSpelledOut(cache, w, source, poll);
    var p, inventory := Progress(cache, [], table, [], false), InventoryOf(cache, w, source, poll);
    var begun := Recorded(Asked(p, w, source, poll), w, source, SourceVerdict(inventory));
    AskedWritesNothing(p, w, source, poll);
    RefreshSpelledOut(cache, w, source, id);
    assert Configured(envs, |envs|, source);
    assert inventory.Failed? ==> forall other :: !ReadsAs(cache, w, source, poll, other);
    hide InventoryOf, Targets, ReadsAs, ReadFails, OutOfReach, Held, FirstSource, SourceVerdict, Asked, RowServes,
      Configured, Refreshed, CacheServes, FreshPages;
    TargetsCacheExactly(envs, source, inventory, w, poll, begun, |envs|, id);
  }

  /** What refreshing one's own entry leaves in the cache. */
  function FreshPages(cache: Cache, w: World, id: string): Option<Cached> {
    if !CacheServes(cache, w, id) && w.plugins(id).Fetched? && w.storeApps(id).Fetched?
    then Some(Cached(w.at, w.plugins(id).value.records + w.storeApps(id).value.records,
                     w.plugins(id).value.truncated || w.storeApps(id).value.truncated))
    else Find(cache, id)
  }

  lemma RefreshSpelledOut(cache: Cache, w: World, refreshed: string, id: string)
    ensures
      Find(Refreshed(cache, w, refreshed), id) == if id == refreshed then FreshPages(cache, w, id) else Find(cache, id)
    ensures
      id != refreshed ==> FreshPages(Refreshed(cache, w, refreshed), w, id) == FreshPages(cache, w, id)
  {}

  lemma SameEntrySameRefresh(cache: Cache, other: Cache, w: World, id: string)
    requires Find(cache, id) == Find(other, id)
    ensures FreshPages(cache, w, id) == FreshPages(other, w, id)
  {}

  lemma {:induction false} TargetsCacheExactly(
    envs: seq<Environment>, sourceId: string, source: Fetch<EnvInventory>, w: World, poll: nat, p: Progress, k: nat,
    id: string)
    requires k <= |envs| && DistinctIds(envs)
    ensures
      Find(Targets(envs, sourceId, source, w, poll, p, k).cache, id)
      == if Configured(envs, k, id) && id != sourceId && !OutOfReach(w, id) && source.Fetched?
         then FreshPages(p.cache, w, id) else Find(p.cache, id)
  {
    hide Target, OutOfReach, Configured, Refreshed, FreshPages, Held;
    if k > 0 {
      var q, e := Targets(envs, sourceId, source, w, poll, p, k - 1), envs[k - 1];
      TargetsCacheExactly(envs, sourceId, source, w, poll, p, k - 1, id);
      ConfiguredStep(envs, k, id);
      HeldIffOutOfReach(w, e.id);
      if e.id != sourceId {
        TargetRecords(q, e, source, w, poll);
        RefreshSpelledOut(q.cache, w, e.id, id);
        if e.id == id { SameEntrySameRefresh(q.cache, p.cache, w, id); }
      }
    } else {
      NoneConfigured(envs, id);
    }
  }
}
