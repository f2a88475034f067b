/** The desktop's dashboard reducer and what a late subscriber rebuilds from the cache. */
module Dashboard {
  import opened Order
  import opened Protocol
  import opened LastValue

  datatype State = State(
    environments: seq<EnvironmentSummary>,
    selected: Option<string>,
    snapshots: map<string, map<string, Item>>,
    samples: map<(string, string), seq<Item>>,
    healthEvents: map<string, seq<Item>>,
    signalEvents: map<string, seq<Item>>,
    rollups: map<(string, string), seq<Item>>,
    syncDrops: nat)

  const FRESH := State([], None, map[], map[], map[], map[], map[], 0)

  /** Snapshots by signal; a repeated signal keeps its last snapshot. */
  function BySignal(items: seq<Item>): map<string, Item> {
    if items == [] then map[]
    else
      var rest, item := BySignal(items[..|items| - 1]), items[|items| - 1];
      if item.SnapshotItem? then rest[item.signalId := item] else rest
  }

  /** Item `k` is the last snapshot of its signal. */
  predicate LastOfSignal(items: seq<Item>, k: nat, signal: string) {
    && k < |items| && items[k].SnapshotItem? && items[k].signalId == signal
    && forall m :: k < m < |items| ==> !(items[m].SnapshotItem? && items[m].signalId == signal)
  }

  /** The table holds the last snapshot of every signal... */
  lemma {:induction false} LastSnapshotIsHeld(items: seq<Item>, k: nat, signal: string)
    requires LastOfSignal(items, k, signal)
    ensures signal in BySignal(items) && BySignal(items)[signal] == items[k]
  {
    var front := items[..|items| - 1];
    if k < |front| {
      assert LastOfSignal(front, k, signal);
      LastSnapshotIsHeld(front, k, signal);
    }
  }

  /** ...and nothing else. */
  lemma {:induction false} HeldIsTheLastSnapshot(items: seq<Item>, signal: string) returns (k: nat)
    requires signal in BySignal(items)
    ensures LastOfSignal(items, k, signal)
  {
    var front, last := items[..|items| - 1], items[|items| - 1];
    if last.SnapshotItem? && last.signalId == signal {
      k := |items| - 1;
    } else {
      k := HeldIsTheLastSnapshot(front, signal);
    }
  }

  function Restrict<V>(m: map<string, V>, ids: set<string>): map<string, V> {
    map k | k in m && k in ids :: m[k]
  }

  function RestrictPairs<V>(m: map<(string, string), V>, ids: set<string>): map<(string, string), V> {
    map k | k in m && k.0 in ids :: m[k]
  }

  function Selection(selected: Option<string>, environments: seq<EnvironmentSummary>): Option<string> {
    if selected.Some? && selected.value in EnvironmentIds(environments) then selected
    else if environments == [] then None
    else Some(environments[0].id)
  }

  function Applied(s: State, m: Message): State {
    match m
    case EnvironmentsUpdated(environments) =>
      var ids := EnvironmentIds(environments);
      State(environments, Selection(s.selected, environments),
            Restrict(s.snapshots, ids), RestrictPairs(s.samples, ids), Restrict(s.healthEvents, ids),
            Restrict(s.signalEvents, ids), RestrictPairs(s.rollups, ids), s.syncDrops)
    case SeriesUpdated(Snapshots(env), items) => s.(snapshots := s.snapshots[env := BySignal(items)])
    case SeriesUpdated(Samples(env, signal), items) => s.(samples := s.samples[(env, signal) := items])
    case SeriesUpdated(HealthEvents(env), items) => s.(healthEvents := s.healthEvents[env := items])
    case SeriesUpdated(SignalEvents(env), items) => s.(signalEvents := s.signalEvents[env := items])
    case SeriesUpdated(Rollups(env, signal), items) => s.(rollups := s.rollups[(env, signal) := items])
    case SyncNeeded(dropped) => s.(syncDrops := dropped)
  }

  /** A dashboard after the first `k` messages. */
  function AppliedAll(start: State, s: seq<Message>, k: nat): State
    requires k <= |s|
  {
    if k == 0 then start else Applied(AppliedAll(start, s, k - 1), s[k - 1])
  }

  function After(s: seq<Message>, k: nat): State
    requires k <= |s|
  {
    AppliedAll(FRESH, s, k)
  }

  function Shown(s: seq<Message>): State { After(s, |s|) }

  function Selected(s: State, id: string): State {
    if id in EnvironmentIds(s.environments) then s.(selected := Some(id)) else s
  }

  /** Something is selected exactly when something is listed, and it is listed. */
  predicate SelectionListed(s: State) {
    if s.environments == [] then s.selected == None
    else s.selected.Some? && s.selected.value in EnvironmentIds(s.environments)
  }

  lemma SelectionStep(s: State, m: Message, id: string)
    requires SelectionListed(s)
    ensures SelectionListed(Applied(s, m)) && SelectionListed(Selected(s, id))
    ensures
      Applied(s, m).selected
      == if m.EnvironmentsUpdated? then Selection(s.selected, m.environments) else s.selected
  {
    hide Restrict, RestrictPairs, BySignal;
    if m.EnvironmentsUpdated? && m.environments != [] {
      assert m.environments[0] in m.environments;
    }
  }

  /** What drives the dashboard: a message from the daemon, or the operator choosing an environment. */
  datatype Input = Told(message: Message) | Chose(id: string)

  function Driven(inputs: seq<Input>, k: nat): State
    requires k <= |inputs|
  {
    if k == 0 then FRESH
    else
      match inputs[k - 1]
      case Told(m) => Applied(Driven(inputs, k - 1), m)
      case Chose(id) => Selected(Driven(inputs, k - 1), id)
  }

  /** Messages and choices in any order keep the selection on a listed environment. */
  lemma {:induction false} SelectionStaysListed(inputs: seq<Input>, k: nat)
    requires k <= |inputs|
    ensures SelectionListed(Driven(inputs, k))
  {
    hide Applied, Selected, SelectionListed;
    if k > 0 {
      SelectionStaysListed(inputs, k - 1);
      match inputs[k - 1] {
        case Told(m) => SelectionStep(Driven(inputs, k - 1), m, "");
        case Chose(id) => SelectionStep(Driven(inputs, k - 1), SyncNeeded(0), id);
      }
    } else {
      FreshSelection();
    }
  }

  lemma FreshSelection()
    ensures SelectionListed(FRESH)
  {}

  /** A listed environment that is chosen is selected; choosing another one changes nothing. */
  lemma ChoiceSelects(inputs: seq<Input>, k: nat)
    requires k < |inputs| && inputs[k].Chose?
    ensures
      var before, after := Driven(inputs, k), Driven(inputs, k + 1);
      if exists e :: e in before.environments && e.id == inputs[k].id
      then after == before.(selected := Some(inputs[k].id))
      else after == before
  {}

  /** A new list is shown as it is; the selection stays if it is on it, and otherwise is its first environment. */
  lemma ListKeepsOrReselects(inputs: seq<Input>, k: nat)
    requires k < |inputs| && inputs[k].Told? && inputs[k].message.EnvironmentsUpdated?
    ensures
      var before, after, list := Driven(inputs, k).selected, Driven(inputs, k + 1), inputs[k].message.environments;
      && after.environments == list
      && after.selected
         == if before.Some? && (exists e :: e in list && e.id == before.value) then before
            else if list == [] then None
            else Some(list[0].id)
  {
    hide Restrict, RestrictPairs, BySignal;
    var before, list := Driven(inputs, k).selected, inputs[k].message.environments;
    assert before.Some? ==> (before.value in EnvironmentIds(list) <==> exists e :: e in list && e.id == before.value);
  }

  /** The dropped count shown is that of the latest notice, and no other input changes it. */
  lemma DropsAreTheLatestNotice(inputs: seq<Input>, k: nat)
    requires k < |inputs|
    ensures
      Driven(inputs, k + 1).syncDrops
      == if inputs[k].Told? && inputs[k].message.SyncNeeded? then inputs[k].message.dropped
         else Driven(inputs, k).syncDrops
  {
    hide Restrict, RestrictPairs, BySignal, Selection, EnvironmentIds;
    var s := Driven(inputs, k);
    assert Driven(inputs, k + 1) == match inputs[k] case Told(m) => Applied(s, m) case Chose(id) => Selected(s, id);
    hide Driven;
  }

  /** Step `j` neither drops the environment from the list nor is another choice. */
  predicate Leaves(inputs: seq<Input>, j: nat, id: string)
    requires j < |inputs|
  {
    match inputs[j]
    case Told(EnvironmentsUpdated(environments)) => id in EnvironmentIds(environments)
    case Told(_) => true
    case Chose(other) => other == id || other !in EnvironmentIds(Driven(inputs, j).environments)
  }

  /** A selection moves only when its environment leaves the list or another listed one is chosen. */
  lemma {:induction false} SelectionPersists(inputs: seq<Input>, k: nat, m: nat, id: string)
    requires k <= m <= |inputs| && Driven(inputs, k).selected == Some(id)
    requires forall j :: k <= j < m ==> Leaves(inputs, j, id)
    ensures Driven(inputs, m).selected == Some(id)
  {
    if k < m {
      SelectionPersists(inputs, k, m - 1, id);
      assert Leaves(inputs, m - 1, id);
      SelectionStaysListed(inputs, m - 1);
      if inputs[m - 1].Told? { SelectionStep(Driven(inputs, m - 1), inputs[m - 1].message, ""); }
    }
  }

  datatype Content = Table(bySignal: map<string, Item>) | List(items: seq<Item>)

  function Rendered(series: Series, items: seq<Item>): Content {
    if series.Snapshots? then Table(BySignal(items)) else List(items)
  }

  function Get<K, V>(m: map<K, V>, k: K, f: V -> Content): Option<Content> {
    if k in m then Some(f(m[k])) else None
  }

  /** What the dashboard holds for a series. */
  function Lookup(s: State, series: Series): Option<Content> {
    match series
    case Snapshots(env) => Get(s.snapshots, env, t => Table(t))
    case Samples(env, signal) => Get(s.samples, (env, signal), l => List(l))
    case HealthEvents(env) => Get(s.healthEvents, env, l => List(l))
    case SignalEvents(env) => Get(s.signalEvents, env, l => List(l))
    case Rollups(env, signal) => Get(s.rollups, (env, signal), l => List(l))
  }

  /** What a cache holds for a series. */
  function Cached(c: Cache, series: Series): Option<Content> {
    if SeriesKey(series) in c && c[SeriesKey(series)].SeriesUpdated?
    then Some(Rendered(series, c[SeriesKey(series)].items))
    else None
  }

  lemma ReplacedLookup(s: State, other: Series, items: seq<Item>, series: Series)
    ensures
      Lookup(Applied(s, SeriesUpdated(other, items)), series)
      == if other == series then Some(Rendered(series, items)) else Lookup(s, series)
  {
    hide BySignal, Restrict, RestrictPairs;
  }

  lemma PrunedLookup(s: State, environments: seq<EnvironmentSummary>, series: Series)
    ensures
      Lookup(Applied(s, EnvironmentsUpdated(environments)), series)
      == if series.env in EnvironmentIds(environments) then Lookup(s, series) else None
  {
    hide BySignal, Selection, EnvironmentIds;
  }

  /** One message touches a series only by replacing it or by dropping its environment. */
  lemma AppliedLookup(s: State, m: Message, series: Series)
    ensures Lookup(Applied(s, m), series) ==
      match m
      case SeriesUpdated(other, items) => if other == series then Some(Rendered(series, items)) else Lookup(s, series)
      case EnvironmentsUpdated(envs) => if series.env in EnvironmentIds(envs) then Lookup(s, series) else None
      case SyncNeeded(_) => Lookup(s, series)
  {
    match m {
      case SeriesUpdated(other, items) =>
        hide Applied, Lookup, Rendered;
        ReplacedLookup(s, other, items, series);
      case EnvironmentsUpdated(environments) =>
        hide Applied, Lookup, Rendered;
        PrunedLookup(s, environments, series);
      case SyncNeeded(_) =>
    }
  }

  /** No environment list since the series last arrived has left its environment out. */
  predicate Kept(s: seq<Message>, k: nat, series: Series)
    requires k <= |s|
  {
    k == 0 ||
    match s[k - 1]
    case SeriesUpdated(other, _) => other == series || Kept(s, k - 1, series)
    case EnvironmentsUpdated(envs) => series.env in EnvironmentIds(envs) && Kept(s, k - 1, series)
    case SyncNeeded(_) => Kept(s, k - 1, series)
  }

  ghost predicate UnambiguousStream(s: seq<Message>) {
    forall i :: 0 <= i < |s| && s[i].SeriesUpdated? ==> Unambiguous(s[i].series)
  }

  lemma CachedStep(c: Cache, m: Message, series: Series)
    requires Unambiguous(series) && (m.SeriesUpdated? ==> Unambiguous(m.series))
    ensures Cached(Remember(c, m), series) ==
      if m.SeriesUpdated? && m.series == series then Some(Rendered(series, m.items)) else Cached(c, series)
  {
    if m.SeriesUpdated? { KeysDistinguishSeries(m.series, series); }
    EnvironmentsKeyIsFirst(series);
  }

  /** The whole stream shows a series exactly as the cache has it, unless a later list dropped it. */
  lemma {:induction false} LookupIsCachedUnlessDropped(s: seq<Message>, k: nat, series: Series)
    requires k <= |s| && UnambiguousStream(s) && Unambiguous(series)
    ensures Lookup(After(s, k), series) ==
      if Kept(s, k, series) then Cached(Folded(map[], s, k), series) else None
  {
    if k > 0 {
      LookupIsCachedUnlessDropped(s, k - 1, series);
      AppliedLookup(After(s, k - 1), s[k - 1], series);
      CachedStep(Folded(map[], s, k - 1), s[k - 1], series);
    }
  }

  /** The environment list a cache holds. */
  function CachedEnvironments(c: Cache): seq<EnvironmentSummary> {
    if ENVIRONMENTS_KEY in c && c[ENVIRONMENTS_KEY].EnvironmentsUpdated? then c[ENVIRONMENTS_KEY].environments else []
  }

  lemma CachedEnvironmentsStep(c: Cache, m: Message)
    ensures
      CachedEnvironments(Remember(c, m)) == if m.EnvironmentsUpdated? then m.environments else CachedEnvironments(c)
  {
    hide LexLe, SeriesKey;
    if m.SeriesUpdated? { EnvironmentsKeyIsFirst(m.series); }
  }

  lemma AppliedEnvironments(s: State, m: Message)
    ensures Applied(s, m).environments == if m.EnvironmentsUpdated? then m.environments else s.environments
  {
    hide Restrict, RestrictPairs, BySignal, Selection;
  }

  lemma {:induction false} EnvironmentsAreCached(s: seq<Message>, k: nat)
    requires k <= |s|
    ensures After(s, k).environments == CachedEnvironments(Folded(map[], s, k))
  {
    if k > 0 {
      EnvironmentsAreCached(s, k - 1);
      hide Applied, CachedEnvironments, Remember;
      AppliedEnvironments(After(s, k - 1), s[k - 1]);
      CachedEnvironmentsStep(Folded(map[], s, k - 1), s[k - 1]);
    }
  }

  lemma {:induction false} KeptWhenListsComeFirst(s: seq<Message>, k: nat, series: Series)
    requires k <= |s| && UnambiguousStream(s) && Unambiguous(series)
    requires forall i :: 0 < i < |s| ==> !s[i].EnvironmentsUpdated?
    ensures Kept(s, k, series) || Cached(Folded(map[], s, k), series) == None
  {
    if k > 0 {
      KeptWhenListsComeFirst(s, k - 1, series);
      CachedStep(Folded(map[], s, k - 1), s[k - 1], series);
    }
  }

  lemma {:induction false} FoldedHoldsStreamMessages(s: seq<Message>, k: nat, key: string)
    requires k <= |s| && key in Folded(map[], s, k)
    ensures exists i :: 0 <= i < k && s[i] == Folded(map[], s, k)[key]
  {
    if CacheKey(s[k - 1]) == Some(key) {
      assert s[k - 1] == Folded(map[], s, k)[key];
    } else {
      FoldedHoldsStreamMessages(s, k - 1, key);
    }
  }

  lemma {:induction false} ReplayIsUnambiguous(s: seq<Message>)
    requires UnambiguousStream(s)
    ensures UnambiguousStream(Replay(CacheOf(s)))
  {
    var r := Replay(CacheOf(s));
    forall i | 0 <= i < |r| && r[i].SeriesUpdated? ensures Unambiguous(r[i].series) {
      FoldedHoldsStreamMessages(s, |s|, Sorted(CacheOf(s).Keys)[i]);
    }
  }

  /** A late subscriber shows every series as the cache has it. */
  lemma {:induction false} LateLookupIsCached(s: seq<Message>, series: Series)
    requires UnambiguousStream(s) && Unambiguous(series)
    ensures Lookup(Shown(Replay(CacheOf(s))), series) == Cached(CacheOf(s), series)
  {
    var r := Replay(CacheOf(s));
    FoldedIsKeyed(map[], s, |s|);
    ReplayIsUnambiguous(s);
    ReplayRestoresCache(CacheOf(s));
    forall i | 0 < i < |r| ensures !r[i].EnvironmentsUpdated? { EnvironmentsReplayFirst(CacheOf(s), i); }
    KeptWhenListsComeFirst(r, |r|, series);
    LookupIsCachedUnlessDropped(r, |r|, series);
  }

  /** Exactly when a late subscriber sees a series as the subscriber that was there all along. */
  lemma {:induction false} LateSubscriberAgreesIff(s: seq<Message>, series: Series)
    requires UnambiguousStream(s) && Unambiguous(series)
    ensures Shown(Replay(CacheOf(s))).environments == Shown(s).environments
    ensures Lookup(Shown(Replay(CacheOf(s))), series) == Lookup(Shown(s), series)
      <==> Kept(s, |s|, series) || Cached(CacheOf(s), series) == None
  {
    var r := Replay(CacheOf(s));
    LateLookupIsCached(s, series);
    LookupIsCachedUnlessDropped(s, |s|, series);
    FoldedIsKeyed(map[], s, |s|);
    ReplayRestoresCache(CacheOf(s));
    EnvironmentsAreCached(s, |s|);
    EnvironmentsAreCached(r, |r|);
  }

  /** Every environment list of the stream names `id`. */
  ghost predicate AlwaysListed(s: seq<Message>, id: string) {
    forall i :: 0 <= i < |s| && s[i].EnvironmentsUpdated? ==> id in EnvironmentIds(s[i].environments)
  }

  lemma {:induction false} AlwaysListedIsKept(s: seq<Message>, k: nat, series: Series)
    requires k <= |s| && AlwaysListed(s, series.env)
    ensures Kept(s, k, series)
  {
    if k > 0 { AlwaysListedIsKept(s, k - 1, series); }
  }

  /** Two streams that leave the same cache show the same for an environment both always list. */
  lemma SameCacheSameDashboard(a: seq<Message>, b: seq<Message>, series: Series)
    requires UnambiguousStream(a) && UnambiguousStream(b) && Unambiguous(series)
    requires CacheOf(a) == CacheOf(b)
    requires AlwaysListed(a, series.env) && AlwaysListed(b, series.env)
    ensures Shown(a).environments == Shown(b).environments
    ensures Lookup(Shown(a), series) == Lookup(Shown(b), series)
  {
    AlwaysListedIsKept(a, |a|, series);
    AlwaysListedIsKept(b, |b|, series);
    LookupIsCachedUnlessDropped(a, |a|, series);
    LookupIsCachedUnlessDropped(b, |b|, series);
    EnvironmentsAreCached(a, |a|);
    EnvironmentsAreCached(b, |b|);
  }

  /** All environment lists of the stream name the same ids. */
  ghost predicate SteadyLists(s: seq<Message>) {
    forall i, j :: 0 <= i < |s| && 0 <= j < |s| && s[i].EnvironmentsUpdated? && s[j].EnvironmentsUpdated?
      ==> EnvironmentIds(s[i].environments) == EnvironmentIds(s[j].environments)
  }

  /** Main result: a late subscriber converges on every listed environment. */
  lemma {:induction false} LateSubscriberConverges(s: seq<Message>, series: Series)
    requires UnambiguousStream(s) && SteadyLists(s)
    requires Unambiguous(series) && series.env in EnvironmentIds(Shown(s).environments)
    ensures Shown(Replay(CacheOf(s))).environments == Shown(s).environments
    ensures Lookup(Shown(Replay(CacheOf(s))), series) == Lookup(Shown(s), series)
  {
    EnvironmentsAreCached(s, |s|);
    FoldedHoldsStreamMessages(s, |s|, ENVIRONMENTS_KEY);
    assert AlwaysListed(s, series.env);
    AlwaysListedIsKept(s, |s|, series);
    LateSubscriberAgreesIff(s, series);
  }

  /** Once an environment has left a list and returned, its old data is gone here but still in the cache. */
  lemma {:induction false} ReturningEnvironmentDiverges()
    ensures var e := EnvironmentSummary("a", "A", "healthy");
      var s := [SeriesUpdated(HealthEvents("a"), []), EnvironmentsUpdated([]), EnvironmentsUpdated([e])];
      && Lookup(Shown(s), HealthEvents("a")) == None
      && Lookup(Shown(Replay(CacheOf(s))), HealthEvents("a")) == Some(List([]))
  {
    var e := EnvironmentSummary("a", "A", "healthy");
    var s := [SeriesUpdated(HealthEvents("a"), []), EnvironmentsUpdated([]), EnvironmentsUpdated([e])];
    var series := HealthEvents("a");
    assert !Kept(s, 2, series);
    assert !Kept(s, 3, series);
    LookupIsCachedUnlessDropped(s, 3, series);
    CachedStep(map[], s[0], series);
    CachedStep(Folded(map[], s, 1), s[1], series);
    CachedStep(Folded(map[], s, 2), s[2], series);
    LateLookupIsCached(s, series);
  }

  // ----- the desktop's state object -----

  class DashboardModel {
    var environments: seq<EnvironmentSummary>
    var selected: Option<string>
    var snapshots: map<string, map<string, Item>>
    var samples: map<(string, string), seq<Item>>
    var healthEvents: map<string, seq<Item>>
    var signalEvents: map<string, seq<Item>>
    var rollups: map<(string, string), seq<Item>>
    var syncDrops: nat

    function View(): State
      reads this
    {
      State(environments, selected, snapshots, samples, healthEvents, signalEvents, rollups, syncDrops)
    }

    constructor ()
      ensures View() == FRESH
    {
      environments, selected := [], None;
      snapshots, samples, healthEvents, signalEvents, rollups := map[], map[], map[], map[], map[];
      syncDrops := 0;
    }

    method Apply(m: Message)
      modifies this
      ensures View() == Applied(old(View()), m)
    {
      match m {
        case EnvironmentsUpdated(listed) =>
          environments := listed;
          var known := EnvironmentIds(listed);
          if selected == None || selected.value !in known {
            selected := if listed == [] then None else Some(listed[0].id);
          }
          snapshots := Restrict(snapshots, known);
          samples := RestrictPairs(samples, known);
          healthEvents := Restrict(healthEvents, known);
          signalEvents := Restrict(signalEvents, known);
          rollups := RestrictPairs(rollups, known);
        case SeriesUpdated(series, items) =>
          match series {
            case Snapshots(env) => snapshots := snapshots[env := BySignal(items)];
            case Samples(env, signal) => samples := samples[(env, signal) := items];
            case HealthEvents(env) => healthEvents := healthEvents[env := items];
            case SignalEvents(env) => signalEvents := signalEvents[env := items];
            case Rollups(env, signal) => rollups := rollups[(env, signal) := items];
          }
        case SyncNeeded(dropped) => syncDrops := dropped;
      }
    }

    method Select(id: string)
      modifies this
      ensures View() == Selected(old(View()), id)
    {
      if id in EnvironmentIds(environments) { selected := Some(id); }
    }

    method ApplyAll(messages: seq<Message>)
      modifies this
      ensures View() == AppliedAll(old(View()), messages, |messages|)
    {
      for i := 0 to |messages|
        invariant View() == AppliedAll(old(View()), messages, i)
      {
        Apply(messages[i]);
      }
    }
  }
}
