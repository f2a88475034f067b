/** The collector loop over whole runs: when ticks start, which run the slow list and when, and their errors. */
module Cadence {
  import opened Protocol

  // ----- settings -----

  const DEFAULT_POLL_INTERVAL_SECS := 120
  const DEFAULT_SLOW_POLL_INTERVAL_SECS := 1800
  const MIN_POLL_INTERVAL_SECS := 30

  function Max(a: int, b: int): int { if a >= b then a else b }

  function PollIntervalSecs(setting: nat): nat {
    if setting == 0 then DEFAULT_POLL_INTERVAL_SECS else Max(setting, MIN_POLL_INTERVAL_SECS)
  }

  function SlowPollIntervalSecs(setting: nat, slowSetting: nat): nat {
    Max(if slowSetting == 0 then DEFAULT_SLOW_POLL_INTERVAL_SECS else slowSetting, PollIntervalSecs(setting))
  }

  /** Zero means the default; other polls are at least thirty seconds; the slow poll is never the faster one. */
  lemma SettingsSpelledOut(setting: nat, slowSetting: nat)
    ensures PollIntervalSecs(setting) == if setting == 0 then 120 else if setting < 30 then 30 else setting
    ensures
      var slow := if slowSetting == 0 then 1800 else slowSetting;
      SlowPollIntervalSecs(setting, slowSetting)
      == if slow >= PollIntervalSecs(setting) then slow else PollIntervalSecs(setting)
  {}

  // ----- slow cadence -----

  /** Durations are in milliseconds. */
  const SECOND := 1000

  const OFFLINE_PAUSE := 10 * SECOND

  function DivCeil(a: nat, b: nat): nat
    requires b > 0
  {
    if a % b == 0 then a / b else a / b + 1
  }

  /** Every how many ticks the slow list runs; sub-second parts are dropped before dividing. */
  function SlowEvery(interval: nat, slow: nat): (every: nat)
    ensures every >= 1
  {
    Max(DivCeil(Max(slow / SECOND, 1), Max(interval / SECOND, 1)), 1)
  }

  predicate WholeSeconds(d: nat) { d > 0 && d % SECOND == 0 }

  lemma {:induction false} DivCeilIsLeast(a: nat, b: nat, k: nat)
    requires b > 0
    ensures DivCeil(a, b) * b >= a
    ensures k * b >= a ==> k >= DivCeil(a, b)
  {
    assert a == (a / b) * b + a % b;
    if k * b >= a && k < DivCeil(a, b) {
      assert k <= a / b;
      MulMonotone(k, a / b, b);
      if a % b == 0 { MulMonotone(k + 1, a / b, b); }
    }
  }

  lemma {:induction false} MulMonotone(x: nat, y: nat, b: nat)
    requires x <= y
    ensures x * b <= y * b
    ensures (x + 1) * b == x * b + b
  {}

  /** For whole-second intervals it is the least number of ticks that spans the slow interval. */
  lemma {:induction false} SlowEveryIsLeast(interval: nat, slow: nat, k: nat)
    requires WholeSeconds(interval) && WholeSeconds(slow)
    ensures SlowEvery(interval, slow) * interval >= slow
    ensures k * interval >= slow ==> k >= SlowEvery(interval, slow)
  {
    var i, s := interval / SECOND, slow / SECOND;
    assert i >= 1 && s >= 1 && interval == i * SECOND && slow == s * SECOND;
    DivCeilIsLeast(s, i, k);
    var e := SlowEvery(interval, slow);
    assert DivCeil(s, i) * i >= 1;
    assert e == DivCeil(s, i);
    assert e * interval == (e * i) * SECOND;
    assert k * interval == (k * i) * SECOND;
  }

  // ----- a run -----

  /** How long each group, all started together, and then the shared list take. */
  datatype Work = Work(groups: seq<nat>, shared: nat)

  /** The longest of the first `k` groups. */
  function Longest(groups: seq<nat>, k: nat): nat
    requires k <= |groups|
  {
    if k == 0 then 0 else Max(Longest(groups, k - 1), groups[k - 1])
  }

  /** How long after its tick began the slow list may start. */
  function Lead(w: Work): nat { Longest(w.groups, |w.groups|) + w.shared }

  /** One turn of the loop: paused offline, or a tick whose work, slow list included, takes `rest` after the lead. */
  datatype Turn = Offline(extra: nat) | Tick(work: Work, rest: nat, extra: nat)

  /** `starts` and `works` are those of all ticks; the ticks in `slowTicks` ran the slow list from `slowStarts` on. */
  datatype Clock = Clock(now: int, starts: seq<int>, works: seq<Work>, slowTicks: seq<nat>, slowStarts: seq<int>)

  function SaturatingSub(a: nat, b: nat): nat { if a >= b then a - b else 0 }

  /** The clock when a tick ends. */
  function Ticked(c: Clock, every: nat, work: Work, rest: nat): Clock
    requires every > 0
  {
    var tick := |c.starts|;
    var slow := tick % every == 0;
    Clock(c.now + Lead(work) + rest,
          c.starts + [c.now],
          c.works + [work],
          if slow then c.slowTicks + [tick] else c.slowTicks,
          if slow then c.slowStarts + [c.now + Lead(work)] else c.slowStarts)
  }

  function Turned(c: Clock, interval: nat, every: nat, t: Turn): Clock
    requires every > 0
  {
    match t
    case Offline(extra) => c.(now := c.now + OFFLINE_PAUSE + extra)
    case Tick(work, rest, extra) =>
      var ended := Ticked(c, every, work, rest);
      ended.(now := ended.now + SaturatingSub(interval, Lead(work) + rest) + extra)
  }

  function Ran(start: int, interval: nat, every: nat, turns: seq<Turn>, k: nat): Clock
    requires k <= |turns| && every > 0
  {
    if k == 0 then Clock(start, [], [], [], [])
    else Turned(Ran(start, interval, every, turns, k - 1), interval, every, turns[k - 1])
  }

  predicate Spaced(c: Clock, interval: nat) {
    && (forall i :: 0 <= i < |c.starts| - 1 ==> c.starts[i + 1] - c.starts[i] >= interval)
    && (c.starts != [] ==> c.now - c.starts[|c.starts| - 1] >= interval)
  }

  predicate SlowTicksAre(c: Clock, every: nat)
    requires every > 0
  {
    && |c.slowTicks| == DivCeil(|c.starts|, every)
    && forall i :: 0 <= i < |c.slowTicks| ==> c.slowTicks[i] == i * every && i * every < |c.starts|
  }

  /** Each slow list starts its tick's lead after the tick. */
  predicate SlowStartsFollow(c: Clock) {
    && |c.slowStarts| == |c.slowTicks| && |c.works| == |c.starts|
    && forall i {:trigger c.slowStarts[i]} :: 0 <= i < |c.slowStarts| ==>
         c.slowTicks[i] < |c.starts| && c.slowStarts[i] == c.starts[c.slowTicks[i]] + Lead(c.works[c.slowTicks[i]])
  }

  lemma {:induction false} SlowListsFollow(start: int, interval: nat, every: nat, turns: seq<Turn>, k: nat)
    requires k <= |turns| && every > 0
    ensures SlowStartsFollow(Ran(start, interval, every, turns, k))
  {
    hide Lead;
    if k > 0 {
      SlowListsFollow(start, interval, every, turns, k - 1);
      var c, c' := Ran(start, interval, every, turns, k - 1), Ran(start, interval, every, turns, k);
      forall i | 0 <= i < |c'.slowStarts|
        ensures
          && c'.slowTicks[i] < |c'.starts|
          && c'.slowStarts[i] == c'.starts[c'.slowTicks[i]] + Lead(c'.works[c'.slowTicks[i]])
      {
        if i < |c.slowStarts| { assert c'.slowStarts[i] == c.slowStarts[i]; }
      }
    }
  }

  lemma {:induction false} LongestIsMaximum(groups: seq<nat>, k: nat)
    requires k <= |groups|
    ensures forall g :: 0 <= g < k ==> groups[g] <= Longest(groups, k)
    ensures Longest(groups, k) == 0 || exists g :: 0 <= g < k && groups[g] == Longest(groups, k)
  {
    if k > 0 { LongestIsMaximum(groups, k - 1); }
  }

  /**
   * No slow list starts before every group of its tick has ended and the shared list has run after them, and it
   * waits for nothing else: it starts as soon as the shared list ends, which starts as soon as the last group does.
   */
  lemma SlowListFollowsTheBarrier(start: int, interval: nat, every: nat, turns: seq<Turn>, k: nat, i: nat)
    requires k <= |turns| && every > 0 && i < |Ran(start, interval, every, turns, k).slowStarts|
    ensures
      var c := Ran(start, interval, every, turns, k);
      && |c.slowStarts| == |c.slowTicks| && c.slowTicks[i] < |c.starts| == |c.works|
      && var began, work := c.starts[c.slowTicks[i]], c.works[c.slowTicks[i]];
         && (forall g :: 0 <= g < |work.groups| ==> c.slowStarts[i] >= began + work.groups[g] + work.shared)
         && (c.slowStarts[i] == began + work.shared
             || exists g :: 0 <= g < |work.groups| && c.slowStarts[i] == began + work.groups[g] + work.shared)
  {
    SlowListsFollow(start, interval, every, turns, k);
    var c := Ran(start, interval, every, turns, k);
    hide Ran, Longest;
    assert c.slowStarts[i] == c.starts[c.slowTicks[i]] + Lead(c.works[c.slowTicks[i]]);
    var groups := c.works[c.slowTicks[i]].groups;
    LongestIsMaximum(groups, |groups|);
  }

  lemma {:induction false} DivCeilStep(n: nat, every: nat)
    requires every > 0
    ensures DivCeil(n + 1, every) == DivCeil(n, every) + if n % every == 0 then 1 else 0
    ensures n % every == 0 ==> DivCeil(n, every) * every == n
  {
    var q, r := n / every, n % every;
    assert n == q * every + r;
    if r + 1 == every {
      assert n + 1 == (q + 1) * every;
      DivModUnique(n + 1, every, q + 1, 0);
    } else {
      DivModUnique(n + 1, every, q, r + 1);
    }
  }

  lemma {:induction false} DivModUnique(n: nat, d: nat, q: nat, r: nat)
    requires d > 0 && n == q * d + r && r < d
    ensures n / d == q && n % d == r
  {
    var x := n / d - q;
    assert n == (n / d) * d + n % d;
    assert x * d == r - n % d;
    assert x >= 1 ==> x * d >= d;
    assert x <= -1 ==> x * d + d <= 0;
  }

  lemma {:induction false} RunIsSpaced(start: int, interval: nat, every: nat, turns: seq<Turn>, k: nat)
    requires k <= |turns| && every > 0
    ensures Spaced(Ran(start, interval, every, turns, k), interval)
  {
    if k > 0 {
      RunIsSpaced(start, interval, every, turns, k - 1);
    }
  }

  /** Over any run the slow list runs at ticks 0, every, 2*every...: ceil(n / every) times in n ticks. */
  lemma {:induction false} SlowTicksOfRun(start: int, interval: nat, every: nat, turns: seq<Turn>, k: nat)
    requires k <= |turns| && every > 0
    ensures SlowTicksAre(Ran(start, interval, every, turns, k), every)
  {
    if k > 0 {
      SlowTicksOfRun(start, interval, every, turns, k - 1);
      var c, c' := Ran(start, interval, every, turns, k - 1), Ran(start, interval, every, turns, k);
      DivCeilStep(|c.starts|, every);
      hide DivCeil, Lead;
      forall i | 0 <= i < |c'.slowTicks| ensures c'.slowTicks[i] == i * every && i * every < |c'.starts| {
        if i < |c.slowTicks| { assert c'.slowTicks[i] == c.slowTicks[i]; }
      }
    }
  }

  lemma {:induction false} SpacedApart(c: Clock, interval: nat, i: nat, j: nat)
    requires Spaced(c, interval) && i <= j < |c.starts|
    ensures c.starts[j] - c.starts[i] >= (j - i) * interval
  {
    if i < j {
      SpacedApart(c, interval, i, j - 1);
      assert c.starts[j - 1 + 1] - c.starts[j - 1] >= interval;
      assert (j - i) * interval == (j - 1 - i) * interval + interval;
    }
  }

  /**
   * The ticks carrying slow passes `i` and `j` start at least `slow` apart, and the slow lists themselves exactly as
   * far apart as their ticks, corrected by how much later than its tick each one starts.
   */
  predicate PassesApart(c: Clock, slow: nat, i: nat, j: nat) {
    && i < |c.slowTicks| && j < |c.slowTicks| == |c.slowStarts|
    && c.slowTicks[i] < |c.starts| == |c.works| && c.slowTicks[j] < |c.starts|
    && var ticksApart := c.starts[c.slowTicks[j]] - c.starts[c.slowTicks[i]];
       && ticksApart >= slow
       && c.slowStarts[j] - c.slowStarts[i]
          == ticksApart + Lead(c.works[c.slowTicks[j]]) - Lead(c.works[c.slowTicks[i]])
  }

  /** Slow passes keep their distance whatever the durations, overruns and offline pauses. */
  lemma SlowPassesAreApart(start: int, interval: nat, slow: nat, turns: seq<Turn>, k: nat, i: nat, j: nat)
    requires WholeSeconds(interval) && WholeSeconds(slow) && k <= |turns|
    requires i < j < |Ran(start, interval, SlowEvery(interval, slow), turns, k).slowTicks|
    ensures PassesApart(Ran(start, interval, SlowEvery(interval, slow), turns, k), slow, i, j)
  {
    var every := SlowEvery(interval, slow);
    var c := Ran(start, interval, every, turns, k);
    SlowTicksOfRun(start, interval, every, turns, k);
    SlowListsFollow(start, interval, every, turns, k);
    RunIsSpaced(start, interval, every, turns, k);
    SlowEveryIsLeast(interval, slow, every);
    hide Ran, SlowEvery, Lead;
    MulMonotone(i, j, every);
    SpacedApart(c, interval, i * every, j * every);
    SlowSpan(interval, slow, every, i, j);
    assert c.slowStarts[i] == c.starts[c.slowTicks[i]] + Lead(c.works[c.slowTicks[i]]);
    assert c.slowStarts[j] == c.starts[c.slowTicks[j]] + Lead(c.works[c.slowTicks[j]]);
  }

  /**
   * Right after a tick comes the next one: when the interval is over, or at once if the tick overran it, and
   * otherwise only as much later as the loop was held up.
   */
  lemma TicksFollowEachOther(start: int, interval: nat, every: nat, turns: seq<Turn>, k: nat)
    requires 0 < k < |turns| && every > 0 && turns[k - 1].Tick? && turns[k].Tick?
    ensures
      var c, elapsed := Ran(start, interval, every, turns, k + 1), Lead(turns[k - 1].work) + turns[k - 1].rest;
      && |c.starts| >= 2
      && c.starts[|c.starts| - 1] - c.starts[|c.starts| - 2]
         == (if elapsed > interval then elapsed else interval) + turns[k - 1].extra
  {
    hide Lead;
    assert Ran(start, interval, every, turns, k)
           == Turned(Ran(start, interval, every, turns, k - 1), interval, every, turns[k - 1]);
  }

  /** After an offline pause the loop looks again ten seconds later, or as much later as it was held up. */
  lemma OfflinePauses(start: int, interval: nat, every: nat, turns: seq<Turn>, k: nat)
    requires k < |turns| && every > 0 && turns[k].Offline?
    ensures
      Ran(start, interval, every, turns, k + 1)
      == Ran(start, interval, every, turns, k).(
           now := Ran(start, interval, every, turns, k).now + 10 * SECOND + turns[k].extra)
  {}

  /** Never offline, never delayed, and no tick overruns the interval. */
  predicate Steady(turns: seq<Turn>, interval: nat) {
    forall i :: 0 <= i < |turns| ==>
      turns[i].Tick? && turns[i].extra == 0 && Lead(turns[i].work) + turns[i].rest <= interval
  }

  lemma {:induction false} SteadyStarts(start: int, interval: nat, every: nat, turns: seq<Turn>, k: nat)
    requires k <= |turns| && every > 0 && Steady(turns, interval)
    ensures
      var c := Ran(start, interval, every, turns, k);
      && |c.starts| == k && c.now == start + k * interval
      && forall m :: 0 <= m < k ==> c.starts[m] == start + m * interval
  {
    hide Lead;
    if k > 0 {
      SteadyStarts(start, interval, every, turns, k - 1);
      assert turns[k - 1].Tick?;
      assert k * interval == (k - 1) * interval + interval;
    }
  }

  lemma Spans(i: nat, j: nat, every: nat, interval: nat)
    ensures (j * every) * interval - (i * every) * interval == (j - i) * every * interval
  {
    assert (j - i) * every == j * every - i * every;
    assert (j * every - i * every) * interval == (j * every) * interval - (i * every) * interval;
  }

  /**
   * In a steady run two slow lists start at least the slow interval apart exactly when the earlier one was not
   * delayed behind its tick by more, against the later one, than the ticks between exceed the slow interval.
   */
  lemma SteadySlowListsApartIff(start: int, interval: nat, slow: nat, turns: seq<Turn>, i: nat, j: nat)
    requires WholeSeconds(interval) && WholeSeconds(slow) && Steady(turns, interval)
    requires i < j < |Ran(start, interval, SlowEvery(interval, slow), turns, |turns|).slowTicks|
    ensures
      var every := SlowEvery(interval, slow);
      var c := Ran(start, interval, every, turns, |turns|);
      && PassesApart(c, slow, i, j)
      && (c.slowStarts[j] - c.slowStarts[i] >= slow
          <==> Lead(c.works[c.slowTicks[i]]) - Lead(c.works[c.slowTicks[j]]) <= (j - i) * every * interval - slow)
  {
    var every := SlowEvery(interval, slow);
    SlowPassesAreApart(start, interval, slow, turns, |turns|, i, j);
    SteadyStarts(start, interval, every, turns, |turns|);
    SlowTicksOfRun(start, interval, every, turns, |turns|);
    Spans(i, j, every, interval);
    hide Ran, SlowEvery, Lead, Steady;
    var c := Ran(start, interval, every, turns, |turns|);
    assert c.slowTicks[i] == i * every && c.slowTicks[j] == j * every;
  }

  lemma SlowSpan(interval: nat, slow: nat, every: nat, i: nat, j: nat)
    requires i < j && every * interval >= slow
    ensures (j * every - i * every) * interval >= slow
  {
    assert j * every - i * every == (j - i) * every;
    MulMonotone(1, j - i, every);
    MulMonotone(every, (j - i) * every, interval);
  }

  /** With a half-hour poll, a first tick whose group takes 100 s lets two slow lists start 100 s too close. */
  lemma SlowListsCanCrowd()
    ensures
      var p, s := PollIntervalSecs(1800) * SECOND, SlowPollIntervalSecs(1800, 0) * SECOND;
      var turns := [Tick(Work([100 * SECOND], 0), 0, 0), Tick(Work([0], 0), 0, 0)];
      var c := Ran(0, p, SlowEvery(p, s), turns, 2);
      c.slowStarts == [100 * SECOND, 1800 * SECOND] && c.slowStarts[1] - c.slowStarts[0] < s
  {
    var p := 1800 * SECOND;
    assert PollIntervalSecs(1800) == 1800 && SlowPollIntervalSecs(1800, 0) == 1800 && SlowEvery(p, p) == 1;
    var first, second := Work([100 * SECOND], 0), Work([0], 0);
    var turns := [Tick(first, 0, 0), Tick(second, 0, 0)];
    assert Longest(first.groups, 1) == 100 * SECOND && Longest(second.groups, 1) == 0;
    assert Ran(0, p, 1, turns, 1) == Clock(p, [0], [first], [0], [100 * SECOND]);
    assert Ran(0, p, 1, turns, 2) == Clock(2 * p, [0, p], [first, second], [0, 1], [100 * SECOND, p]);
  }

  lemma SettingsAreWholeSeconds(setting: nat, slowSetting: nat)
    ensures WholeSeconds(PollIntervalSecs(setting) * SECOND)
    ensures WholeSeconds(SlowPollIntervalSecs(setting, slowSetting) * SECOND)
    ensures SlowPollIntervalSecs(setting, slowSetting) >= PollIntervalSecs(setting) >= MIN_POLL_INTERVAL_SECS
  {}

  /** The same for the intervals any settings give. */
  lemma SettingsKeepSlowPassesApart(setting: nat, slowSetting: nat, start: int, turns: seq<Turn>, i: nat, j: nat)
    requires
      var p, s := PollIntervalSecs(setting) * SECOND, SlowPollIntervalSecs(setting, slowSetting) * SECOND;
      i < j < |Ran(start, p, SlowEvery(p, s), turns, |turns|).slowTicks|
    ensures
      var p, s := PollIntervalSecs(setting) * SECOND, SlowPollIntervalSecs(setting, slowSetting) * SECOND;
      PassesApart(Ran(start, p, SlowEvery(p, s), turns, |turns|), s, i, j)
      && s >= p >= MIN_POLL_INTERVAL_SECS * SECOND
  {
    hide Ran, SlowEvery, PassesApart, PollIntervalSecs, SlowPollIntervalSecs;
    var p, s := PollIntervalSecs(setting) * SECOND, SlowPollIntervalSecs(setting, slowSetting) * SECOND;
    SettingsAreWholeSeconds(setting, slowSetting);
    SlowPassesAreApart(start, p, s, turns, |turns|, i, j);
  }

  // ----- the errors of one tick -----

  /** What running a list came to: its collectors' combined errors, or a panic. */
  datatype ListResult = Fine | Returned(message: string) | Panicked

  datatype TickError = Errors(message: string) | GroupPanicked(index: nat) | SharedPanicked | SlowPanicked

  function Reported(r: ListResult, panic: TickError): seq<TickError> {
    match r
    case Fine => []
    case Returned(message) => [Errors(message)]
    case Panicked => [panic]
  }

  /** The errors of the first `k` groups, joined in order. */
  function GroupErrors(groups: seq<ListResult>, k: nat): seq<TickError>
    requires k <= |groups|
  {
    if k == 0 then [] else GroupErrors(groups, k - 1) + Reported(groups[k - 1], GroupPanicked(k - 1))
  }

  /** One tick's lists: the groups side by side, then the shared list, then on a slow tick the slow list. */
  function TickErrors(groups: seq<ListResult>, shared: ListResult, slow: Option<ListResult>): seq<TickError> {
    GroupErrors(groups, |groups|) + Reported(shared, SharedPanicked)
    + if slow.Some? then Reported(slow.value, SlowPanicked) else []
  }

  lemma {:induction false} GroupErrorsEmptyIff(groups: seq<ListResult>, k: nat)
    requires k <= |groups|
    ensures GroupErrors(groups, k) == [] <==> forall i :: 0 <= i < k ==> groups[i] == Fine
  {
    if k > 0 {
      GroupErrorsEmptyIff(groups, k - 1);
      if groups[k - 1] == Fine {
        assert GroupErrors(groups, k) == GroupErrors(groups, k - 1);
      } else {
        assert |GroupErrors(groups, k)| > 0;
      }
    }
  }

  lemma {:induction false} GroupIsReported(groups: seq<ListResult>, k: nat, i: nat)
    requires i < k <= |groups|
    ensures groups[i] == Panicked ==> GroupPanicked(i) in GroupErrors(groups, k)
    ensures groups[i].Returned? ==> Errors(groups[i].message) in GroupErrors(groups, k)
  {
    if i < k - 1 { GroupIsReported(groups, k - 1, i); }
  }

  lemma {:induction false} ReportsAreFromGroups(groups: seq<ListResult>, k: nat, e: TickError)
    requires k <= |groups| && e in GroupErrors(groups, k)
    ensures
      exists i :: 0 <= i < k
        && ((groups[i] == Panicked && e == GroupPanicked(i)) || (groups[i].Returned? && e == Errors(groups[i].message)))
  {
    if e in GroupErrors(groups, k - 1) {
      ReportsAreFromGroups(groups, k - 1, e);
    } else {
      assert (groups[k - 1] == Panicked && e == GroupPanicked(k - 1))
        || (groups[k - 1].Returned? && e == Errors(groups[k - 1].message));
    }
  }

  /** A tick fails exactly when some list that ran did. */
  lemma TickFailsIff(groups: seq<ListResult>, shared: ListResult, slow: Option<ListResult>)
    ensures
      TickErrors(groups, shared, slow) == []
      <==> (forall i :: 0 <= i < |groups| ==> groups[i] == Fine)
           && shared == Fine && (slow.Some? ==> slow.value == Fine)
  {
    GroupErrorsEmptyIff(groups, |groups|);
  }

  /** The tick reports every list's own error text and names every list that panicked, and nothing else. */
  lemma TickReports(groups: seq<ListResult>, shared: ListResult, slow: Option<ListResult>, e: TickError)
    ensures
      e in TickErrors(groups, shared, slow)
      <==> || (exists i :: 0 <= i < |groups| && groups[i] == Panicked && e == GroupPanicked(i))
           || (exists i :: 0 <= i < |groups| && groups[i].Returned? && e == Errors(groups[i].message))
           || (shared == Panicked && e == SharedPanicked)
           || (shared.Returned? && e == Errors(shared.message))
           || (slow == Some(Panicked) && e == SlowPanicked)
           || (slow.Some? && slow.value.Returned? && e == Errors(slow.value.message))
  {
    forall i | 0 <= i < |groups|
      ensures groups[i] == Panicked ==> GroupPanicked(i) in GroupErrors(groups, |groups|)
      ensures groups[i].Returned? ==> Errors(groups[i].message) in GroupErrors(groups, |groups|)
    {
      GroupIsReported(groups, |groups|, i);
    }
    if e in GroupErrors(groups, |groups|) { ReportsAreFromGroups(groups, |groups|, e); }
    hide GroupErrors;
  }

  // ----- the loop object -----

  /** How each list of a tick ended; the slow list's is used on slow ticks only. */
  datatype Results = Results(groups: seq<ListResult>, shared: ListResult, slow: ListResult)

  class CollectorLoop {
    const interval: nat
    const slowEvery: nat
    var ticks: nat
    ghost var clock: Clock

    ghost predicate Valid()
      reads this
    {
      slowEvery > 0 && ticks == |clock.starts|
    }

    constructor (interval: nat, slowInterval: nat, start: int)
      ensures Valid() && this.interval == interval && slowEvery == SlowEvery(interval, slowInterval)
      ensures clock == Clock(start, [], [], [], [])
    {
      this.interval := interval;
      var intervalSecs, slowSecs := Max(interval / SECOND, 1), Max(slowInterval / SECOND, 1);
      slowEvery := Max(DivCeil(slowSecs, intervalSecs), 1);
      ticks, clock := 0, Clock(start, [], [], [], []);
    }

    /**
     * One tick: joins every group in turn, then runs the shared list, then on a slow tick the slow list, whatever
     * failed before. A join returns when its group has ended.
     */
    method TickTimed(results: Results, work: Work, rest: nat) returns (errors: seq<TickError>)
      requires Valid() && |work.groups| == |results.groups|
      modifies this
      ensures Valid() && ticks == old(ticks) + 1
      ensures clock == Ticked(old(clock), slowEvery, work, rest)
      ensures
        errors == TickErrors(results.groups, results.shared,
                             if old(ticks) % slowEvery == 0 then Some(results.slow) else None)
    {
      ghost var began := clock.now;
      ghost var now := began;
      var tick := ticks;
      ticks := ticks + 1;
      var slowTick := tick % slowEvery == 0;
      errors := [];
      for i := 0 to |results.groups|
        invariant errors == GroupErrors(results.groups, i)
        invariant now == began + Longest(work.groups, i)
      {
        now := Max(now, began + work.groups[i]);
        match results.groups[i] {
          case Fine =>
          case Returned(message) => errors := errors + [Errors(message)];
          case Panicked => errors := errors + [GroupPanicked(i)];
        }
      }
      now := now + work.shared;
      errors := errors + Reported(results.shared, SharedPanicked);
      ghost var slowTicks, slowStarts := clock.slowTicks, clock.slowStarts;
      if slowTick {
        slowTicks, slowStarts := slowTicks + [tick], slowStarts + [now];
        errors := errors + Reported(results.slow, SlowPanicked);
      }
      clock := Clock(now + rest, clock.starts + [began], clock.works + [work], slowTicks, slowStarts);
    }

    /** The loop until shutdown: sleeps out the rest of the interval, or pauses while offline; no error ends it. */
    method Run(turns: seq<Turn>, results: seq<Results>)
      requires Valid() && clock.starts == [] && |results| == |turns|
      requires forall i :: 0 <= i < |turns| && turns[i].Tick? ==> |turns[i].work.groups| == |results[i].groups|
      requires clock.works == [] && clock.slowTicks == [] && clock.slowStarts == []
      modifies this
      ensures Valid() && clock == Ran(old(clock.now), interval, slowEvery, turns, |turns|)
    {
      hide Lead;
      for i := 0 to |turns|
        invariant Valid() && clock == Ran(old(clock.now), interval, slowEvery, turns, i)
      {
        match turns[i] {
          case Offline(extra) =>
            clock := clock.(now := clock.now + OFFLINE_PAUSE + extra);
          case Tick(work, rest, extra) =>
            var errors := TickTimed(results[i], work, rest);
            var elapsed := Lead(work) + rest;
            var pause := if interval >= elapsed then interval - elapsed else 0;
            clock := clock.(now := clock.now + pause + extra);
        }
      }
    }
  }
}
