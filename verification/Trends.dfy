/** Derived views of the dashboard: gap-aware sparklines, the merged timeline, calendar slots, build comparison. */
module Trends {
  import opened Order
  import opened Protocol

  // ----- sparklines -----

  const SPARKLINE_GAP_THRESHOLD_SECS := 600

  /** One observation; `None` was observed without a value. */
  datatype Point = Point(at: int, value: Option<real>)

  function TimeOf(p: Point): int { p.at }

  /** More than the threshold passed without an observation just before `points[k]`. */
  predicate GapBefore(points: seq<Point>, k: nat)
    requires k < |points|
  {
    k > 0 && points[k].at - points[k - 1].at > SPARKLINE_GAP_THRESHOLD_SECS
  }

  /** The trend after the first `k` observations; `None` is a break in the line. */
  function Trend(points: seq<Point>, k: nat): seq<Option<real>>
    requires k <= |points|
  {
    if k == 0 then []
    else
      var out := Trend(points, k - 1);
      var broken := if GapBefore(points, k - 1) && out != [] then out + [None] else out;
      if points[k - 1].value.Some? then broken + [points[k - 1].value] else broken
  }

  method SparklineWithGaps(points: seq<Point>) returns (out: seq<Option<real>>)
    ensures out == Trend(StableSort(points, TimeOf), |StableSort(points, TimeOf)|)
  {
    var ordered := StableSort(points, TimeOf);
    out := [];
    var previous: Option<int> := None;
    for k := 0 to |ordered|
      invariant out == Trend(ordered, k)
      invariant previous == if k == 0 then None else Some(ordered[k - 1].at)
    {
      if previous.Some? && ordered[k].at - previous.value > SPARKLINE_GAP_THRESHOLD_SECS && out != [] {
        out := out + [None];
      }
      if ordered[k].value.Some? {
        out := out + [ordered[k].value];
      }
      previous := Some(ordered[k].at);
    }
  }

  /** The trend is built over the given observations in time order, equal times in their given order. */
  lemma ObservationsInTimeOrder(points: seq<Point>)
    ensures
      var ordered := StableSort(points, TimeOf);
      && multiset(ordered) == multiset(points)
      && (forall i, j :: 0 <= i < j < |ordered| ==> ordered[i].at <= ordered[j].at)
      && forall at :: WithKey(ordered, TimeOf, at) == WithKey(points, TimeOf, at)
  {
    StableSortArranges(points, TimeOf);
    var ordered := StableSort(points, TimeOf);
    forall i, j | 0 <= i < j < |ordered| ensures ordered[i].at <= ordered[j].at {
      assert TimeOf(ordered[i]) <= TimeOf(ordered[j]);
    }
  }

  /** The values of the first `k` observations that have one. */
  function Recorded(points: seq<Point>, k: nat): seq<Option<real>>
    requires k <= |points|
  {
    if k == 0 then []
    else if points[k - 1].value.Some? then Recorded(points, k - 1) + [points[k - 1].value]
    else Recorded(points, k - 1)
  }

  function WithoutBreaks(out: seq<Option<real>>): seq<Option<real>> {
    if out == [] then []
    else
      var last := out[|out| - 1];
      if last.Some? then WithoutBreaks(out[..|out| - 1]) + [last] else WithoutBreaks(out[..|out| - 1])
  }

  lemma WithoutBreaksAppend(out: seq<Option<real>>, x: Option<real>)
    ensures WithoutBreaks(out + [x]) == WithoutBreaks(out) + if x.Some? then [x] else []
  {
    assert (out + [x])[..|out|] == out;
  }

  /** Dropping the breaks leaves exactly the recorded values in time order, and a trend never starts with a break. */
  lemma {:induction false} TrendIsFaithful(points: seq<Point>, k: nat)
    requires k <= |points|
    ensures WithoutBreaks(Trend(points, k)) == Recorded(points, k)
    ensures Trend(points, k) != [] ==> Trend(points, k)[0].Some?
  {
    if k > 0 {
      TrendIsFaithful(points, k - 1);
      var out := Trend(points, k - 1);
      WithoutBreaksAppend(out, None);
      var broken := if GapBefore(points, k - 1) && out != [] then out + [None] else out;
      WithoutBreaksAppend(broken, points[k - 1].value);
    }
  }

  /** How many observation gaps lie after `points[i]`, up to `points[j]`. */
  function Gaps(points: seq<Point>, i: nat, j: nat): nat
    requires i <= j < |points|
  {
    if i == j then 0 else Gaps(points, i, j - 1) + if points[j].at - points[j - 1].at > 600 then 1 else 0
  }

  /**
   * Between two successive recorded values the trend holds one break for every observation gap between them and
   * nothing else: the line connects them exactly when no gap separates them.
   */
  lemma {:induction false} BreaksMatchGaps(points: seq<Point>, i: nat, j: nat)
    requires i < j < |points| && points[i].value.Some?
    requires forall m :: i < m < j ==> points[m].value.None?
    ensures
      var from, to := Trend(points, i + 1), Trend(points, j + 1);
      && from != [] && from[|from| - 1] == points[i].value && from <= to
      && |to| == |from| + Gaps(points, i, j) + (if points[j].value.Some? then 1 else 0)
      && (forall s :: |from| <= s < |from| + Gaps(points, i, j) ==> to[s] == None)
      && (points[j].value.Some? ==> to[|to| - 1] == points[j].value)
  {
    if i < j - 1 { BreaksMatchGaps(points, i, j - 1); }
  }

  // ----- the timeline -----

  /** One rendered row of the timeline; health rows carry a note key. */
  datatype Row = Row(observedAt: int, text: string, noteKey: Option<(int, string)>)

  function RowTime(r: Row): int { r.observedAt }

  /** The rows that pass the query, oldest first. */
  function Merged(health: seq<Row>, signals: seq<Row>, matches: Row -> bool): seq<Row> {
    Filter(StableSort(health + signals, RowTime), matches)
  }

  function Reversed<T>(s: seq<T>): (r: seq<T>)
    ensures |r| == |s| && forall i :: 0 <= i < |s| ==> r[i] == s[|s| - 1 - i]
  {
    if s == [] then [] else Reversed(s[1..]) + [s[0]]
  }

  function Latest<T>(s: seq<T>, limit: nat): seq<T> { if |s| <= limit then s else s[|s| - limit..] }

  method Timeline(health: seq<Row>, signals: seq<Row>, matches: Row -> bool, limit: nat) returns (rows: seq<Row>)
    ensures rows == Latest(Merged(health, signals, matches), limit)
  {
    rows := [];
    for i := 0 to |health|
      invariant rows == health[..i]
    {
      rows := rows + [health[i]];
    }
    rows := rows + signals;
    assert rows == health + signals;
    rows := StableSort(rows, RowTime);
    rows := Filter(rows, matches);
    ghost var kept := rows;
    rows := Reversed(rows);
    if |rows| > limit { rows := rows[..limit]; }
    rows := Reversed(rows);
    assert rows == Latest(kept, limit);
  }

  lemma {:induction false} WithKeyAppend<T>(a: seq<T>, b: seq<T>, key: T -> int, k: int)
    ensures WithKey(a + b, key, k) == WithKey(a, key, k) + WithKey(b, key, k)
  {
    if a == [] {
      assert a + b == b;
    } else {
      WithKeyAppend(a[1..], b, key, k);
      assert (a + b)[1..] == a[1..] + b;
    }
  }

  lemma {:induction false} FilterAppend<T>(a: seq<T>, b: seq<T>, p: T -> bool)
    ensures Filter(a + b, p) == Filter(a, p) + Filter(b, p)
  {
    if a == [] {
      assert a + b == b;
    } else {
      FilterAppend(a[1..], b, p);
      assert (a + b)[1..] == a[1..] + b;
    }
  }

  /** `rows` is the merge: ascending, and at each instant the matching health rows and then the matching signal rows. */
  ghost predicate IsMerge(rows: seq<Row>, health: seq<Row>, signals: seq<Row>, matches: Row -> bool) {
    && Ascending(rows, RowTime)
    && forall k ::
         WithKey(rows, RowTime, k)
         == Filter(WithKey(health, RowTime, k), matches) + Filter(WithKey(signals, RowTime, k), matches)
  }

  /** The timeline cuts from exactly the time-ordered merge, health rows first on ties. */
  lemma MergedIsTheMerge(rows: seq<Row>, health: seq<Row>, signals: seq<Row>, matches: Row -> bool)
    ensures rows == Merged(health, signals, matches) <==> IsMerge(rows, health, signals, matches)
  {
    var merged := Merged(health, signals, matches);
    StableSortArranges(health + signals, RowTime);
    FilterAscending(StableSort(health + signals, RowTime), matches, RowTime);
    forall k
      ensures
        WithKey(merged, RowTime, k)
        == Filter(WithKey(health, RowTime, k), matches) + Filter(WithKey(signals, RowTime, k), matches)
    {
      WithKeyOfFilter(StableSort(health + signals, RowTime), matches, RowTime, k);
      WithKeyAppend(health, signals, RowTime, k);
      FilterAppend(WithKey(health, RowTime, k), WithKey(signals, RowTime, k), matches);
    }
    assert IsMerge(merged, health, signals, matches);
    if IsMerge(rows, health, signals, matches) {
      StableArrangementUnique(rows, merged, RowTime);
    }
  }

  lemma MergedMembers(health: seq<Row>, signals: seq<Row>, matches: Row -> bool, r: Row)
    ensures r in Merged(health, signals, matches) <==> (r in health || r in signals) && matches(r)
  {
    var sorted := StableSort(health + signals, RowTime);
    FilterMember(sorted, matches, r);
    assert r in multiset(sorted) <==> r in multiset(health + signals);
  }

  lemma MergedAscends(health: seq<Row>, signals: seq<Row>, matches: Row -> bool, i: nat, j: nat)
    requires i < j < |Merged(health, signals, matches)|
    ensures Merged(health, signals, matches)[i].observedAt <= Merged(health, signals, matches)[j].observedAt
  {
    StableSortArranges(health + signals, RowTime);
    FilterAscending(StableSort(health + signals, RowTime), matches, RowTime);
    var all := Merged(health, signals, matches);
    assert RowTime(all[i]) <= RowTime(all[j]);
  }

  /** Filtering the two event lists first gives the same merge. */
  lemma {:induction false} FilteringFirstIsTheSame(health: seq<Row>, signals: seq<Row>, matches: Row -> bool)
    ensures Merged(health, signals, matches) == StableSort(Filter(health, matches) + Filter(signals, matches), RowTime)
  {
    FilterCommutesWithSort(health + signals, matches, RowTime);
    FilterAppend(health, signals, matches);
  }

  lemma LatestIsEnd<T>(s: seq<T>, limit: nat)
    ensures |Latest(s, limit)| == if |s| < limit then |s| else limit
    ensures forall j :: 0 <= j < |Latest(s, limit)| ==> Latest(s, limit)[j] == s[|s| - |Latest(s, limit)| + j]
  {}

  /** The timeline shows, oldest first, the last `limit` of the matching events, none older than one it leaves out. */
  lemma TimelineShowsTheLatest(health: seq<Row>, signals: seq<Row>, matches: Row -> bool, limit: nat)
    ensures
      var all, shown := Merged(health, signals, matches), Latest(Merged(health, signals, matches), limit);
      && |shown| == (if |all| < limit then |all| else limit)
      && (forall r :: r in all <==> (r in health || r in signals) && matches(r))
      && (forall i, j :: 0 <= i < |all| - |shown| && 0 <= j < |shown| ==> all[i].observedAt <= shown[j].observedAt)
      && (forall i, j :: 0 <= i < j < |shown| ==> shown[i].observedAt <= shown[j].observedAt)
      && (forall j :: 0 <= j < |shown| ==> shown[j] == all[|all| - |shown| + j])
  {
    LatestIsEnd(Merged(health, signals, matches), limit);
    hide Merged, Latest;
    forall r ensures r in Merged(health, signals, matches) <==> (r in health || r in signals) && matches(r) {
      MergedMembers(health, signals, matches, r);
    }
    var all, shown := Merged(health, signals, matches), Latest(Merged(health, signals, matches), limit);
    forall i, j | 0 <= i < |all| - |shown| && 0 <= j < |shown| ensures all[i].observedAt <= shown[j].observedAt {
      MergedAscends(health, signals, matches, i, |all| - |shown| + j);
    }
    forall i, j | 0 <= i < j < |shown| ensures shown[i].observedAt <= shown[j].observedAt {
      MergedAscends(health, signals, matches, |all| - |shown| + i, |all| - |shown| + j);
    }
  }

  // ----- calendar -----

  /** Weekday (0 is Monday) and hour of an instant, in UTC. The epoch was a Thursday. */
  function WeekdayHour(epochSecs: int): (r: (int, int))
    ensures 0 <= r.0 < 7 && 0 <= r.1 < 24
  {
    ((epochSecs / 86400 + 3) % 7, epochSecs % 86400 / 3600)
  }

  /** The epoch was a Thursday at midnight; an hour and a day later the slot has moved on by one. */
  lemma CalendarAdvances(t: int)
    ensures WeekdayHour(0) == (3, 0)
    ensures WeekdayHour(t + 86400) == ((WeekdayHour(t).0 + 1) % 7, WeekdayHour(t).1)
    ensures
      WeekdayHour(t + 3600)
      == if WeekdayHour(t).1 < 23 then (WeekdayHour(t).0, WeekdayHour(t).1 + 1) else ((WeekdayHour(t).0 + 1) % 7, 0)
  {
    var day, second := t / 86400, t % 86400;
    assert t == day * 86400 + second;
    assert (t + 86400) / 86400 == day + 1 && (t + 86400) % 86400 == second;
    if second + 3600 < 86400 {
      assert (t + 3600) / 86400 == day && (t + 3600) % 86400 == second + 3600;
    } else {
      assert (t + 3600) / 86400 == day + 1 && (t + 3600) % 86400 == second + 3600 - 86400;
    }
  }

  lemma HourNumber(t: int)
    ensures t / 3600 == t / 86400 * 24 + t % 86400 / 3600
  {
    var day, second := t / 86400, t % 86400;
    var h, s := second / 3600, second % 3600;
    assert t == (day * 24 + h) * 3600 + s;
  }

  lemma SlotsApart(days: int, hours: int)
    requires -24 < hours < 24
    ensures (days * 24 + hours) % 168 == 0 <==> hours == 0 && days % 7 == 0
  {
    var weeks, rest := days / 7, days % 7;
    assert days * 24 + hours == weeks * 168 + (rest * 24 + hours);
    assert (days * 24 + hours) % 168 == (rest * 24 + hours) % 168;
  }

  lemma SameWeekday(a: int, b: int)
    ensures (a + 3) % 7 == (b + 3) % 7 <==> (a - b) % 7 == 0
  {}

  /** Two instants share a weekly slot exactly when their hour numbers agree modulo the 168 hours of a week. */
  lemma SameSlotIffCongruent(a: int, b: int)
    ensures WeekdayHour(a) == WeekdayHour(b) <==> (a / 3600 - b / 3600) % 168 == 0
  {
    HourNumber(a);
    HourNumber(b);
    var da, db := a / 86400, b / 86400;
    var ha, hb := WeekdayHour(a).1, WeekdayHour(b).1;
    assert a / 3600 - b / 3600 == (da - db) * 24 + (ha - hb);
    SlotsApart(da - db, ha - hb);
    SameWeekday(da, db);
  }

  // ----- comparing builds -----

  /** An environment as the comparison sees it: its build if known, and what its drift snapshot says. */
  datatype Compared = Compared(id: string, build: Option<string>, isSource: bool, driftMismatch: bool)

  function FirstKnownBuild(envs: seq<Compared>): Option<string> {
    if envs == [] then None else if envs[0].build.Some? then envs[0].build else FirstKnownBuild(envs[1..])
  }

  function CloneSource(envs: seq<Compared>): Option<Compared> {
    if envs == [] then None else if envs[0].isSource then Some(envs[0]) else CloneSource(envs[1..])
  }

  /** The clone source's build, or the first known one. */
  function ReferenceBuild(envs: seq<Compared>): Option<string> {
    if CloneSource(envs).Some? && CloneSource(envs).value.build.Some? then CloneSource(envs).value.build
    else FirstKnownBuild(envs)
  }

  predicate RowMismatch(envs: seq<Compared>, e: Compared) {
    e.build.Some? && ReferenceBuild(envs).Some? && e.build != ReferenceBuild(envs)
  }

  lemma {:induction false} FirstKnownIsKnown(envs: seq<Compared>)
    ensures FirstKnownBuild(envs).Some? <==> exists e :: e in envs && e.build.Some?
    ensures FirstKnownBuild(envs).Some? ==> exists e :: e in envs && e.build == FirstKnownBuild(envs)
  {
    if envs != [] {
      assert envs == [envs[0]] + envs[1..];
      FirstKnownIsKnown(envs[1..]);
    }
  }

  lemma {:induction false} CloneSourceIsListed(envs: seq<Compared>)
    ensures CloneSource(envs).Some? ==> CloneSource(envs).value in envs
  {
    if envs != [] {
      assert envs == [envs[0]] + envs[1..];
      CloneSourceIsListed(envs[1..]);
    }
  }

  /** Environment `i` is the first clone source. */
  predicate FirstSourceAt(envs: seq<Compared>, i: nat) {
    i < |envs| && envs[i].isSource && forall j :: 0 <= j < i ==> !envs[j].isSource
  }

  /** Environment `i` is the first whose build is known. */
  predicate FirstKnownAt(envs: seq<Compared>, i: nat) {
    i < |envs| && envs[i].build.Some? && forall j :: 0 <= j < i ==> envs[j].build.None?
  }

  lemma {:induction false} FirstSourceIsCloneSource(envs: seq<Compared>, i: nat)
    requires FirstSourceAt(envs, i)
    ensures CloneSource(envs) == Some(envs[i])
  {
    if i > 0 { FirstSourceIsCloneSource(envs[1..], i - 1); }
  }

  lemma {:induction false} FirstKnownIsFirst(envs: seq<Compared>, i: nat)
    requires FirstKnownAt(envs, i)
    ensures FirstKnownBuild(envs) == envs[i].build
  {
    if i > 0 { FirstKnownIsFirst(envs[1..], i - 1); }
  }

  lemma {:induction false} NoSource(envs: seq<Compared>)
    requires forall j :: 0 <= j < |envs| ==> !envs[j].isSource
    ensures CloneSource(envs) == None
  {
    if envs != [] { NoSource(envs[1..]); }
  }

  /**
   * The first clone source's build is the reference when it is known, otherwise the first known build is; the rows
   * of other known builds are marked.
   */
  lemma ReferenceSpelledOut(envs: seq<Compared>, known: nat)
    requires FirstKnownAt(envs, known)
    ensures forall i: nat :: FirstSourceAt(envs, i) ==>
      ReferenceBuild(envs) == if envs[i].build.Some? then envs[i].build else envs[known].build
    ensures (forall j :: 0 <= j < |envs| ==> !envs[j].isSource) ==> ReferenceBuild(envs) == envs[known].build
    ensures forall e :: RowMismatch(envs, e) <==> e.build.Some? && e.build != ReferenceBuild(envs)
  {
    FirstKnownIsFirst(envs, known);
    forall i: nat | FirstSourceAt(envs, i)
      ensures ReferenceBuild(envs) == if envs[i].build.Some? then envs[i].build else envs[known].build
    {
      FirstSourceIsCloneSource(envs, i);
    }
    if forall j :: 0 <= j < |envs| ==> !envs[j].isSource { NoSource(envs); }
  }

  /** Some row is marked exactly when two environments' known builds differ, whichever build is the reference. */
  lemma RowsMarkDisagreement(envs: seq<Compared>)
    ensures
      (exists e :: e in envs && RowMismatch(envs, e))
      <==> (exists e, f :: e in envs && f in envs && e.build.Some? && f.build.Some? && e.build != f.build)
  {
    FirstKnownIsKnown(envs);
    CloneSourceIsListed(envs);
    var reference := ReferenceBuild(envs);
    if exists e :: e in envs && RowMismatch(envs, e) {
      var e :| e in envs && RowMismatch(envs, e);
      var f :| f in envs && f.build == reference;
      assert e.build != f.build;
    }
    if exists e, f :: e in envs && f in envs && e.build.Some? && f.build.Some? && e.build != f.build {
      var e, f :| e in envs && f in envs && e.build.Some? && f.build.Some? && e.build != f.build;
      assert RowMismatch(envs, e) || RowMismatch(envs, f);
    }
  }

  datatype Strip = Strip(visible: bool, hasMismatch: bool)

  predicate IsCloneSource(envs: seq<Compared>, e: Compared) {
    CloneSource(envs).Some? && CloneSource(envs).value.id == e.id
  }

  /** The strip above the rows: builds against the reference, and the drift of everything but the clone source. */
  function CompareStrip(envs: seq<Compared>): Strip {
    if |envs| < 2 then Strip(false, false)
    else
      var reference := ReferenceBuild(envs);
      var buildMismatch := reference.Some? && exists e :: e in envs && e.build.Some? && e.build != reference;
      var pluginMismatch := exists e :: e in envs && !IsCloneSource(envs, e) && e.driftMismatch;
      Strip(true, buildMismatch || pluginMismatch)
  }

  lemma {:induction false} SourceIsFirst(envs: seq<Compared>) returns (i: nat)
    requires CloneSource(envs).Some?
    ensures FirstSourceAt(envs, i)
  {
    i := 0;
    if !envs[0].isSource {
      i := SourceIsFirst(envs[1..]);
      i := i + 1;
    }
  }

  lemma IsCloneSourceIff(envs: seq<Compared>, e: Compared)
    ensures IsCloneSource(envs, e) <==> exists i: nat :: FirstSourceAt(envs, i) && envs[i].id == e.id
  {
    if CloneSource(envs).Some? {
      var i := SourceIsFirst(envs);
      FirstSourceIsCloneSource(envs, i);
    } else {
      forall i: nat ensures !FirstSourceAt(envs, i) {
        if FirstSourceAt(envs, i) { FirstSourceIsCloneSource(envs, i); }
      }
    }
  }

  /** Somebody who is not the first clone source drifted. */
  ghost predicate DriftedOff(envs: seq<Compared>) {
    exists e :: e in envs && e.driftMismatch && !exists i: nat :: FirstSourceAt(envs, i) && envs[i].id == e.id
  }

  /**
   * The strip is shown for two environments or more, and then warns exactly when either two known builds differ,
   * which some row then marks too, or an environment other than the clone source drifted.
   */
  lemma StripAgreesWithRows(envs: seq<Compared>)
    ensures CompareStrip(envs).visible <==> |envs| >= 2
    ensures
      CompareStrip(envs).hasMismatch
      <==> |envs| >= 2
           && ((exists e, f :: e in envs && f in envs && e.build.Some? && f.build.Some? && e.build != f.build)
               || DriftedOff(envs))
    ensures
      CompareStrip(envs).hasMismatch && !DriftedOff(envs) ==> exists e :: e in envs && RowMismatch(envs, e)
  {
    forall e ensures IsCloneSource(envs, e) <==> exists i: nat :: FirstSourceAt(envs, i) && envs[i].id == e.id {
      IsCloneSourceIff(envs, e);
    }
    hide FirstSourceAt, CloneSource, IsCloneSource;
    RowsMarkDisagreement(envs);
    var reference := ReferenceBuild(envs);
    if exists e :: e in envs && RowMismatch(envs, e) {
      var e :| e in envs && RowMismatch(envs, e);
      assert e.build.Some? && e.build != reference;
    }
    if reference.Some? && exists e :: e in envs && e.build.Some? && e.build != reference {
      var e :| e in envs && e.build.Some? && e.build != reference;
      assert RowMismatch(envs, e);
    }
  }
}
