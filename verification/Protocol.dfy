/** Dashboard messages, the series they carry, and the string keys under which the latest of each is cached. */
module Protocol {
  import opened Order

  datatype Option<+T> = None | Some(value: T)

  function Find<K, V>(m: map<K, V>, key: K): Option<V> { if key in m then Some(m[key]) else None }

  datatype EnvironmentSummary = EnvironmentSummary(id: string, name: string, health: string)

  /** One element of a payload. Floating-point values are modelled as reals. */
  datatype Item =
    | SnapshotItem(signalId: string, state: string, observedAt: int, payload: string)
    | SampleItem(observedAt: int, value: Option<real>)
    | RollupItem(hourStart: int, average: Option<real>)
    | HealthItem(observedAt: int, kind: string, toHealth: string)
    | SignalItem(observedAt: int, signalId: string, toState: string)

  /** What a payload message replaces: each series has one latest payload. */
  datatype Series =
    | Snapshots(env: string)
    | Samples(env: string, signal: string)
    | HealthEvents(env: string)
    | SignalEvents(env: string)
    | Rollups(env: string, signal: string)

  datatype Message =
    | EnvironmentsUpdated(environments: seq<EnvironmentSummary>)
    | SeriesUpdated(series: Series, items: seq<Item>)
    | SyncNeeded(dropped: nat)

  function EnvironmentIds(environments: seq<EnvironmentSummary>): set<string> {
    set e | e in environments :: e.id
  }

  const ENVIRONMENTS_KEY := "0:environments"

  function SeriesKey(s: Series): string {
    match s
    case Snapshots(env) => "1:snapshots:" + env
    case Samples(env, signal) => "2:samples:" + (env + ":" + signal)
    case HealthEvents(env) => "3:health-events:" + env
    case SignalEvents(env) => "3:signal-events:" + env
    case Rollups(env, signal) => "4:rollups:" + (env + ":" + signal)
  }

  /** Key under which a message is kept for replay; control messages are never kept. */
  function CacheKey(m: Message): Option<string> {
    match m
    case EnvironmentsUpdated(_) => Some(ENVIRONMENTS_KEY)
    case SeriesUpdated(series, _) => Some(SeriesKey(series))
    case SyncNeeded(_) => None
  }

  /** Control messages are never kept, and the published keys are these. */
  lemma KeysAsPublished()
    ensures forall dropped :: CacheKey(SyncNeeded(dropped)) == None
    ensures forall list :: CacheKey(EnvironmentsUpdated(list)) == Some("0:environments")
    ensures CacheKey(SeriesUpdated(Snapshots("prod"), [])) == Some("1:snapshots:prod")
    ensures CacheKey(SeriesUpdated(Samples("prod", "jobs"), [])) == Some("2:samples:prod:jobs")
    ensures CacheKey(SeriesUpdated(HealthEvents("prod"), [])) == Some("3:health-events:prod")
    ensures CacheKey(SeriesUpdated(SignalEvents("prod"), [])) == Some("3:signal-events:prod")
    ensures CacheKey(SeriesUpdated(Rollups("prod", "jobs"), [])) == Some("4:rollups:prod:jobs")
  {
    assert "prod" + ":" + "jobs" == "prod:jobs";
    assert "1:snapshots:" + "prod" == "1:snapshots:prod";
    assert "2:samples:" + "prod:jobs" == "2:samples:prod:jobs";
    assert "3:health-events:" + "prod" == "3:health-events:prod";
    assert "3:signal-events:" + "prod" == "3:signal-events:prod";
    assert "4:rollups:" + "prod:jobs" == "4:rollups:prod:jobs";
  }

  // ----- environment ids -----

  predicate AsciiAlphanumeric(c: char) {
    'a' <= c <= 'z' || 'A' <= c <= 'Z' || '0' <= c <= '9'
  }

  /** The id grammar enforced on configured environments. */
  predicate SupportedId(id: string) {
    1 <= |id| <= 64 && forall c :: c in id ==> AsciiAlphanumeric(c) || c == '-' || c == '_'
  }

  /** One to sixty-four of the characters A-Z, a-z, 0-9, minus and underscore, by code point. */
  lemma IdGrammar(id: string)
    ensures
      SupportedId(id)
      <==> id != [] && |id| <= 64
           && forall i :: 0 <= i < |id| ==>
                var n := id[i] as int;
                48 <= n <= 57 || 65 <= n <= 90 || 97 <= n <= 122 || n == 45 || n == 95
  {
    assert forall i :: 0 <= i < |id| ==> id[i] in id;
  }

  predicate Unambiguous(s: Series) { ':' !in s.env }

  lemma SupportedIdsAreUnambiguous(s: Series)
    requires SupportedId(s.env)
    ensures Unambiguous(s)
  {}

  function BeforeColon(s: string): nat {
    if s == [] || s[0] == ':' then 0 else 1 + BeforeColon(s[1..])
  }

  lemma {:induction false} FirstColon(a: string, x: string)
    requires ':' !in a
    ensures BeforeColon(a + ":" + x) == |a|
  {
    if a != [] {
      FirstColon(a[1..], x);
      assert (a + ":" + x)[1..] == a[1..] + ":" + x;
    }
  }

  lemma SplitAtColon(a: string, x: string, b: string, y: string)
    requires ':' !in a && ':' !in b
    requires a + ":" + x == b + ":" + y
    ensures a == b && x == y
  {
    FirstColon(a, x);
    FirstColon(b, y);
    var l, r := a + ":" + x, b + ":" + y;
    assert a == l[..|a|] && b == r[..|a|];
    assert x == l[|a| + 1..] && y == r[|a| + 1..];
  }

  lemma DropPrefix(p: string, a: string, b: string)
    requires p + a == p + b
    ensures a == b
  {
    assert a == (p + a)[|p|..] && b == (p + b)[|p|..];
  }

  /** Keys tell series apart whenever environment ids hold no colon. */
  lemma KeysDistinguishSeries(s: Series, t: Series)
    requires Unambiguous(s) && Unambiguous(t)
    ensures SeriesKey(s) == SeriesKey(t) <==> s == t
  {
    if SeriesKey(s) == SeriesKey(t) {
      var k, l := SeriesKey(s), SeriesKey(t);
      assert k[0] == l[0] && k[2] == l[2];
      match s {
        case Snapshots(e) => DropPrefix("1:snapshots:", e, t.env);
        case HealthEvents(e) => assert k[2] == 'h'; DropPrefix("3:health-events:", e, t.env);
        case SignalEvents(e) => assert k[2] == 's'; DropPrefix("3:signal-events:", e, t.env);
        case Samples(e, g) =>
          DropPrefix("2:samples:", e + ":" + g, t.env + ":" + t.signal);
          SplitAtColon(e, g, t.env, t.signal);
        case Rollups(e, g) =>
          DropPrefix("4:rollups:", e + ":" + g, t.env + ":" + t.signal);
          SplitAtColon(e, g, t.env, t.signal);
      }
    }
  }

  /** With a colon in the environment id two different series share one key. */
  lemma KeysCollideWithColon()
    ensures Samples("a:b", "c") != Samples("a", "b:c")
    ensures SeriesKey(Samples("a:b", "c")) == SeriesKey(Samples("a", "b:c"))
  {
    assert "a:b" + ":" + "c" == "a" + ":" + "b:c";
  }

  /** The environment list sorts before every series, so a replay starts with it. */
  lemma EnvironmentsKeyIsFirst(s: Series)
    ensures LexLe(ENVIRONMENTS_KEY, SeriesKey(s)) && ENVIRONMENTS_KEY != SeriesKey(s)
  {
    assert ENVIRONMENTS_KEY[0] == '0' && SeriesKey(s)[0] > '0';
  }
}
