/** One pass of the drift collector: its inventory cache and the verdict every environment gets. */
module DriftPass {
  import opened Order
  import opened Protocol
  import opened PluginDiff
  import opened Gate

  const INVENTORY_REFRESH_SECS := 1800
  const MISMATCH_LIST_LIMIT := 50

  datatype Environment = Environment(id: string, cloneSource: bool, expectedDrift: seq<string>, degradedAt: nat)

  datatype Fetch<T> = Fetched(value: T) | Failed(message: string)

  datatype Page = Page(records: seq<Plugin>, truncated: bool)

  /**
   * What the outside answers during one pass: whether the store opens, the clock, the stored availability rows and
   * whether they can be read (for the gate and for the build), the instances, and which writes work.
   */
  datatype World = World(
    opens: bool,
    at: int,
    rows: Rows,
    gateReads: string -> bool,
    buildReads: string -> bool,
    plugins: string -> Fetch<Page>,
    storeApps: string -> Fetch<Page>,
    builds: string -> Fetch<Option<string>>,
    stores: string -> bool)

  datatype Cached = Cached(fetchedAt: int, plugins: seq<Plugin>, truncated: bool)

  type Cache = map<string, Cached>

  datatype EnvInventory = EnvInventory(build: Option<string>, plugins: seq<Plugin>, truncated: bool)

  // ----- the inventory of one environment -----

  predicate Fresh(cache: Cache, id: string, at: int) {
    id in cache && at - cache[id].fetchedAt <= INVENTORY_REFRESH_SECS
  }

  /** Both inventory pages, or the first failure. */
  function FetchedPages(w: World, id: string): Fetch<Cached> {
    match w.plugins(id)
    case Failed(m) => Failed(m)
    case Fetched(p) =>
      match w.storeApps(id)
      case Failed(m) => Failed(m)
      case Fetched(q) => Fetched(Cached(w.at, p.records + q.records, p.truncated || q.truncated))
  }

  function Refreshed(cache: Cache, w: World, id: string): Cache {
    if Fresh(cache, id, w.at) || FetchedPages(w, id).Failed? then cache
    else cache[id := FetchedPages(w, id).value]
  }

  function PagesOf(cache: Cache, w: World, id: string): Fetch<Cached> {
    if Fresh(cache, id, w.at) then Fetched(cache[id]) else FetchedPages(w, id)
  }

  /** The build the availability signal stored, if recent enough to reuse. */
  function ReusableBuild(w: World, id: string, poll: nat): Option<string> {
    if w.buildReads(id) && (id, AVAILABILITY) in w.rows && w.at - w.rows[(id, AVAILABILITY)].observedAt <= 2 * poll
       && w.rows[(id, AVAILABILITY)].build != Some("")
    then w.rows[(id, AVAILABILITY)].build
    else None
  }

  function BuildOf(w: World, id: string, poll: nat): Fetch<Option<string>> {
    if ReusableBuild(w, id, poll).Some? then Fetched(ReusableBuild(w, id, poll)) else w.builds(id)
  }

  function InventoryOf(cache: Cache, w: World, id: string, poll: nat): Fetch<EnvInventory> {
    match PagesOf(cache, w, id)
    case Failed(m) => Failed(m)
    case Fetched(c) =>
      match BuildOf(w, id, poll)
      case Failed(m) => Failed(m)
      case Fetched(build) => Fetched(EnvInventory(build, c.plugins, c.truncated))
  }

  /** Whether reading the inventory sends the instance any request. */
  predicate AsksInstance(cache: Cache, w: World, id: string, poll: nat) {
    !Fresh(cache, id, w.at) || ReusableBuild(w, id, poll) == None
  }

  // ----- comparison -----

  datatype Comparison = Comparison(
    mismatches: nat,
    expectedMismatches: nat,
    buildMatches: Option<bool>,
    truncated: bool,
    list: seq<Mismatch>,
    listTruncated: bool,
    state: SignalState)

  function UnexpectedMismatches(list: seq<Mismatch>, expected: seq<string>): seq<Mismatch> {
    Filter(list, (x: Mismatch) => x.id !in expected)
  }

  function DriftState(buildMatches: Option<bool>, mismatches: nat, degradedAt: nat): SignalState {
    if buildMatches != Some(false) && mismatches < degradedAt then Healthy else Degraded
  }

  function BuildMatches(source: Option<string>, other: Option<string>): Option<bool> {
    if source.Some? && other.Some? then Some(source == other) else None
  }

  lemma {:induction false} FilterIsShorter<T>(s: seq<T>, p: T -> bool)
    ensures |Filter(s, p)| <= |s|
  {
    if s != [] { FilterIsShorter(s[1..], p); }
  }

  ghost function Compared(e: Environment, source: EnvInventory, other: EnvInventory): Comparison {
    var list := Diff(ById(source.plugins), ById(other.plugins));
    var mismatches := |UnexpectedMismatches(list, e.expectedDrift)|;
    FilterIsShorter(list, (x: Mismatch) => x.id !in e.expectedDrift);
    var buildMatches := BuildMatches(source.build, other.build);
    Comparison(mismatches, |list| - mismatches, buildMatches, source.truncated || other.truncated,
               list[..if |list| < MISMATCH_LIST_LIMIT then |list| else MISMATCH_LIST_LIMIT],
               |list| > MISMATCH_LIST_LIMIT,
               DriftState(buildMatches, mismatches, e.degradedAt))
  }

  /** The differing plugins nobody expects. */
  function Surprises(e: Environment, source: EnvInventory, other: EnvInventory): set<string> {
    set id | id in Differing(ById(source.plugins), ById(other.plugins)) && id !in e.expectedDrift
  }

  function Unlisted(ids: seq<string>, expected: seq<string>): set<string> { set id | id in ids && id !in expected }

  lemma UnlistedStep(ids: seq<string>, expected: seq<string>)
    requires ids != [] && ids[0] !in ids[1..]
    ensures
      |Unlisted(ids, expected)| == |Unlisted(ids[1..], expected)| + if ids[0] !in expected then 1 else 0
  {
    var some := Unlisted(ids[1..], expected);
    assert ids == [ids[0]] + ids[1..] && ids[0] !in some;
    assert Unlisted(ids, expected) == if ids[0] !in expected then some + {ids[0]} else some;
  }

  lemma {:induction false} FilteredCount(a: Inventory, b: Inventory, ids: seq<string>, expected: seq<string>)
    requires forall i, j :: 0 <= i < j < |ids| ==> ids[i] != ids[j]
    ensures |UnexpectedMismatches(Described(a, b, ids), expected)| == |Unlisted(ids, expected)|
  {
    var list := Described(a, b, ids);
    if ids != [] {
      FilteredCount(a, b, ids[1..], expected);
      UnlistedStep(ids, expected);
      assert list == [MismatchOf(a, b, ids[0])] + Described(a, b, ids[1..]);
      hide MismatchOf, Described, Unlisted;
      assert list[1..] == Described(a, b, ids[1..]) && list[0].id == ids[0];
    } else {
      assert Unlisted(ids, expected) == {};
    }
  }

  /**
   * A comparison is healthy exactly when the builds are not known to differ and fewer plugins than the threshold
   * differ unexpectedly; expected and unexpected entries together are all the differing plugins, and the stored
   * list is the start of the full list and all of it unless it says otherwise.
   */
  lemma ComparedMeans(e: Environment, source: EnvInventory, other: EnvInventory)
    ensures
      var c := Compared(e, source, other);
      var differing := Differing(ById(source.plugins), ById(other.plugins));
      && c.mismatches == |Surprises(e, source, other)|
      && c.mismatches + c.expectedMismatches == |differing|
      && (c.state == Healthy <==>
            !(source.build.Some? && other.build.Some? && source.build != other.build)
            && |Surprises(e, source, other)| < e.degradedAt)
      && c.state in {Healthy, Degraded}
      && c.list <= Diff(ById(source.plugins), ById(other.plugins)) && |c.list| <= MISMATCH_LIST_LIMIT
      && (!c.listTruncated <==> |c.list| == |differing|)
  {
    var a, b := ById(source.plugins), ById(other.plugins);
    var ids := Sorted(Differing(a, b));
    FilteredCount(a, b, ids, e.expectedDrift);
    assert Unlisted(ids, e.expectedDrift) == Surprises(e, source, other);
    hide Unlisted, Surprises, Differing, ById;
  }

  // ----- the pass -----

  datatype Verdict =
    | SourceRow
    | ComparedRow(comparison: Comparison)
    | SkipRow(reason: string)
    | DownRow(message: string)

  datatype Entry = Entry(env: string, verdict: Verdict)

  /** The pass so far: the cache, the verdicts in order, the stored table, the instances asked, any write error. */
  datatype Progress = Progress(
    cache: Cache,
    log: seq<Entry>,
    table: map<string, Verdict>,
    asked: seq<string>,
    failed: bool)

  function Recorded(p: Progress, w: World, id: string, v: Verdict): Progress {
    p.(log := p.log + [Entry(id, v)],
       table := if w.stores(id) then p.table[id := v] else p.table,
       failed := p.failed || !w.stores(id))
  }

  function Asked(p: Progress, w: World, id: string, poll: nat): Progress {
    p.(cache := Refreshed(p.cache, w, id),
       asked := if AsksInstance(p.cache, w, id, poll) then p.asked + [id] else p.asked)
  }

  function Named(r: Reachability): string {
    match r
    case Reachable => "reachable"
    case Unreachable => "unreachable"
    case Asleep => "asleep"
  }

  function Seen(w: World, id: string): Option<Reachability> {
    if w.gateReads(id) then RecentReachability(w.rows, id, w.at) else None
  }

  predicate Held(w: World, id: string) { Blocks(Seen(w, id)) }

  /** Why a pass that compares nothing skips an environment. */
  datatype SkipRule = Everywhere(reason: string) | SourceHeld(source: string, seen: Reachability)

  function ReasonFor(rule: SkipRule, id: string): string {
    match rule
    case Everywhere(reason) => reason
    case SourceHeld(source, seen) => if id == source then Named(seen) else "clone_source_" + Named(seen)
  }

  function SkippedEach(envs: seq<Environment>, rule: SkipRule, w: World, p: Progress, k: nat): Progress
    requires k <= |envs|
  {
    if k == 0 then p
    else Recorded(SkippedEach(envs, rule, w, p, k - 1), w, envs[k - 1].id, SkipRow(ReasonFor(rule, envs[k - 1].id)))
  }

  ghost function SourceVerdict(inventory: Fetch<EnvInventory>): Verdict {
    if inventory.Fetched? then SourceRow else DownRow(inventory.message)
  }

  /** The verdict on a target, given the source's inventory and the target's own. */
  ghost function TargetVerdict(
    e: Environment, source: Fetch<EnvInventory>, own: Fetch<EnvInventory>, w: World): Verdict {
    if Held(w, e.id) then SkipRow(Named(Seen(w, e.id).value))
    else if source.Failed? then DownRow("clone source unreachable")
    else if own.Failed? then DownRow(own.message)
    else ComparedRow(Compared(e, source.value, own.value))
  }

  ghost function Target(p: Progress, e: Environment, source: Fetch<EnvInventory>, w: World, poll: nat): Progress {
    var verdict := TargetVerdict(e, source, InventoryOf(p.cache, w, e.id, poll), w);
    if Held(w, e.id) || source.Failed? then Recorded(p, w, e.id, verdict)
    else Recorded(Asked(p, w, e.id, poll), w, e.id, verdict)
  }

  ghost function Targets(
    envs: seq<Environment>, sourceId: string, source: Fetch<EnvInventory>, w: World, poll: nat, p: Progress, k: nat)
    : Progress
    requires k <= |envs|
  {
    if k == 0 then p
    else
      var q := Targets(envs, sourceId, source, w, poll, p, k - 1);
      if envs[k - 1].id == sourceId then q else Target(q, envs[k - 1], source, w, poll)
  }

  function FirstSource(envs: seq<Environment>, k: nat): (i: nat)
    requires k <= |envs|
    ensures i <= k && (i < k ==> envs[i].cloneSource) && forall j :: 0 <= j < i ==> !envs[j].cloneSource
  {
    if k == 0 then 0
    else
      var i := FirstSource(envs, k - 1);
      if i < k - 1 then i else if envs[k - 1].cloneSource then k - 1 else k
  }

  ghost function Pass(
    envs: seq<Environment>, cache: Cache, table: map<string, Verdict>, w: World, poll: nat): Progress {
    var p := Progress(cache, [], table, [], false);
    var i := FirstSource(envs, |envs|);
    if !w.opens then p.(failed := true)
    else if i == |envs| then SkippedEach(envs, Everywhere("no_clone_source"), w, p, |envs|)
    else if |envs| < 2 then SkippedEach(envs, Everywhere("need_two_environments"), w, p, |envs|)
    else
      var id := envs[i].id;
      if Held(w, id) then SkippedEach(envs, SourceHeld(id, Seen(w, id).value), w, p, |envs|)
      else
        var source := InventoryOf(cache, w, id, poll);
        Targets(envs, id, source, w, poll, Recorded(Asked(p, w, id, poll), w, id, SourceVerdict(source)), |envs|)
  }

  /** The collector object: its configuration, its cache across passes, and the record of the latest pass. */
  class DriftCollector {
    const environments: seq<Environment>
    const poll: nat
    var inventories: Cache
    var table: map<string, Verdict>
    var log: seq<Entry>
    var asked: seq<string>
    var failed: bool

    constructor (environments: seq<Environment>, poll: nat)
      ensures this.environments == environments && this.poll == poll
      ensures inventories == map[] && table == map[] && log == []
    {
      this.environments, this.poll := environments, poll;
      inventories, table, log, asked, failed := map[], map[], [], [], false;
    }

    ghost function View(): Progress
      reads this
    {
      Progress(inventories, log, table, asked, failed)
    }

    method Record(w: World, id: string, v: Verdict)
      modifies this
      ensures View() == Recorded(old(View()), w, id, v)
    {
      log := log + [Entry(id, v)];
      if w.stores(id) {
        table := table[id := v];
      } else {
        failed := true;
      }
    }

    method ReadInventory(w: World, id: string) returns (r: Fetch<EnvInventory>)
      modifies this
      ensures r == InventoryOf(old(inventories), w, id, poll)
      ensures View() == Asked(old(View()), w, id, poll)
    {
      var pages;
      var asks := false;
      if id in inventories && w.at - inventories[id].fetchedAt <= INVENTORY_REFRESH_SECS {
        pages := inventories[id];
      } else {
        asks := true;
        var p := w.plugins(id);
        var q := w.storeApps(id);
        if p.Failed? || q.Failed? {
          asked := asked + [id];
          return Failed(if p.Failed? then p.message else q.message);
        }
        pages := Cached(w.at, p.value.records + q.value.records, p.value.truncated || q.value.truncated);
        inventories := inventories[id := pages];
      }
      var build := ReusableBuild(w, id, poll);
      if build.None? {
        asks := true;
        var answer := w.builds(id);
        if answer.Failed? {
          asked := asked + [id];
          return Failed(answer.message);
        }
        build := answer.value;
      }
      if asks {
        asked := asked + [id];
      }
      r := Fetched(EnvInventory(build, pages.plugins, pages.truncated));
    }

    method CompareWith(e: Environment, source: EnvInventory, other: EnvInventory) returns (c: Comparison)
      ensures c == Compared(e, source, other)
    {
      hide Diff, ById, Filter, DriftState, BuildMatches;
      var list := DiffPluginInventory(source.plugins, other.plugins);
      var mismatches := |UnexpectedMismatches(list, e.expectedDrift)|;
      FilterIsShorter(list, (x: Mismatch) => x.id !in e.expectedDrift);
      var buildMatches := BuildMatches(source.build, other.build);
      c := Comparison(mismatches, |list| - mismatches, buildMatches, source.truncated || other.truncated,
                      list[..if |list| < MISMATCH_LIST_LIMIT then |list| else MISMATCH_LIST_LIMIT],
                      |list| > MISMATCH_LIST_LIMIT,
                      DriftState(buildMatches, mismatches, e.degradedAt));
    }

    method CollectOther(w: World, e: Environment, source: Fetch<EnvInventory>)
      modifies this
      ensures View() == Target(old(View()), e, source, w, poll)
    {
      hide Compared, InventoryOf, AsksInstance, Refreshed, RecentReachability;
      if Held(w, e.id) {
        Record(w, e.id, SkipRow(Named(Seen(w, e.id).value)));
        return;
      }
      if source.Failed? {
        Record(w, e.id, DownRow("clone source unreachable"));
        return;
      }
      var other := ReadInventory(w, e.id);
      if other.Failed? {
        Record(w, e.id, DownRow(other.message));
      } else {
        var c := CompareWith(e, source.value, other.value);
        Record(w, e.id, ComparedRow(c));
      }
    }

    method SkipEach(w: World, rule: SkipRule)
      modifies this
      ensures View() == SkippedEach(environments, rule, w, old(View()), |environments|)
    {
      for k := 0 to |environments|
        invariant View() == SkippedEach(environments, rule, w, old(View()), k)
      {
        Record(w, environments[k].id, SkipRow(ReasonFor(rule, environments[k].id)));
      }
    }

    method Collect(w: World)
      modifies this
      ensures View() == Pass(environments, old(inventories), old(table), w, poll)
    {
      hide Target, InventoryOf, AsksInstance, Refreshed, RecentReachability;
      log, asked, failed := [], [], false;
      if !w.opens {
        failed := true;
        return;
      }
      var i := FirstSource(environments, |environments|);
      if i == |environments| {
        SkipEach(w, Everywhere("no_clone_source"));
        return;
      }
      if |environments| < 2 {
        SkipEach(w, Everywhere("need_two_environments"));
        return;
      }
      var id := environments[i].id;
      if Held(w, id) {
        SkipEach(w, SourceHeld(id, Seen(w, id).value));
        return;
      }
      var source := ReadInventory(w, id);
      Record(w, id, if source.Fetched? then SourceRow else DownRow(source.message));
      ghost var begun := View();
      for k := 0 to |environments|
        invariant View() == Targets(environments, id, source, w, poll, begun, k)
      {
        if environments[k].id != id {
          CollectOther(w, environments[k], source);
        }
      }
    }
  }
}
