/**
 * Automatic background fetches: the minimum interval every trigger shares, and the periodic ticker that re-reads
 * its period on every tick. Times and durations are in nanoseconds, as Go's time.Duration.
 */
module AutoFetch {
  import opened Wrappers

  const SECOND: int := 1_000_000_000

  /** The minimum time between two attempts. */
  const MIN_INTERVAL: int := 60 * SECOND

  /** How often a parked ticker looks at its period again. */
  const DISABLED_RECHECK: int := 60 * SECOND

  // ------------------------------------------------------------------------------------------------
  // The minimum interval
  // ------------------------------------------------------------------------------------------------

  /**
   * One trigger in the gate's critical section: when it compares the clock with the last stamp, and when it would
   * stamp. The mutex orders the triggers, so a run is a list of arrivals with the clock never going back.
   */
  datatype Arrival = Arrival(check: int, stamp: int)

  ghost predicate ClockRuns(arrivals: seq<Arrival>) {
    && (forall k | 0 <= k < |arrivals| :: arrivals[k].check <= arrivals[k].stamp)
    && (forall j, k | 0 <= j < k < |arrivals| :: arrivals[j].stamp <= arrivals[k].check)
  }

  predicate TooSoon(last: Option<int>, now: int) {
    last.Some? && now - last.value < MIN_INTERVAL
  }

  /** The stamps a run leaves, oldest first. */
  function Stamps(arrivals: seq<Arrival>): (stamps: seq<int>)
    decreases |arrivals|
  {
    if arrivals == [] then []
    else
      var before, a := Stamps(arrivals[..|arrivals| - 1]), arrivals[|arrivals| - 1];
      if TooSoon(LastOf(before), a.check) then before else before + [a.stamp]
  }

  function LastOf(stamps: seq<int>): Option<int> {
    if stamps == [] then None else Some(stamps[|stamps| - 1])
  }

  ghost predicate Spaced(stamps: seq<int>) {
    forall j, k | 0 <= j < k < |stamps| :: stamps[j] + MIN_INTERVAL <= stamps[k]
  }

  lemma {:induction false} StampsAreSpaced(arrivals: seq<Arrival>)
    requires ClockRuns(arrivals)
    ensures Spaced(Stamps(arrivals))
    ensures forall t | t in Stamps(arrivals) :: exists k :: 0 <= k < |arrivals| && arrivals[k].stamp == t
    decreases |arrivals|
  {
    if arrivals != [] {
      var front, a := arrivals[..|arrivals| - 1], arrivals[|arrivals| - 1];
      StampsAreSpaced(front);
      var before := Stamps(front);
      assert forall t | t in before :: exists k :: 0 <= k < |front| && front[k].stamp == t;
      forall t | t in Stamps(arrivals) ensures exists k :: 0 <= k < |arrivals| && arrivals[k].stamp == t {
        if t in before {
          var k :| 0 <= k < |front| && front[k].stamp == t;
          assert arrivals[k].stamp == t;
        } else {
          assert arrivals[|arrivals| - 1].stamp == t;
        }
      }
    }
  }

  /** How many of the stamps fall within the closed span. */
  function CountWithin(stamps: seq<int>, from: int, to: int): (n: nat)
    ensures to < from ==> n == 0
  {
    if stamps == [] then 0
    else
      CountWithin(stamps[..|stamps| - 1], from, to) + if from <= stamps[|stamps| - 1] <= to then 1 else 0
  }

  lemma {:induction false} CountBelow(stamps: seq<int>, from: int, to: int, bound: int)
    requires bound <= to && forall k | 0 <= k < |stamps| :: stamps[k] <= bound
    ensures CountWithin(stamps, from, to) == CountWithin(stamps, from, bound)
  {
    if stamps != [] {
      CountBelow(stamps[..|stamps| - 1], from, to, bound);
    }
  }

  lemma {:induction false} SpacedStampsAreFew(stamps: seq<int>, from: int, length: nat)
    requires Spaced(stamps)
    ensures CountWithin(stamps, from, from + length) <= length / MIN_INTERVAL + 1
    decreases |stamps|
  {
    if stamps != [] {
      var front, last := stamps[..|stamps| - 1], stamps[|stamps| - 1];
      if from <= last <= from + length {
        CountBelow(front, from, from + length, last - MIN_INTERVAL);
        if from <= last - MIN_INTERVAL {
          SpacedStampsAreFew(front, from, last - MIN_INTERVAL - from);
          assert (last - MIN_INTERVAL - from) / MIN_INTERVAL <= length / MIN_INTERVAL - 1;
        }
      } else {
        SpacedStampsAreFew(front, from, length);
      }
    }
  }

  /** Whatever mix of triggers arrives, no window of the given length holds more attempts than its minutes plus one. */
  lemma AttemptsAreRateLimited(arrivals: seq<Arrival>, from: int, length: nat)
    requires ClockRuns(arrivals)
    ensures CountWithin(Stamps(arrivals), from, from + length) <= length / MIN_INTERVAL + 1
  {
    StampsAreSpaced(arrivals);
    SpacedStampsAreFew(Stamps(arrivals), from, length);
  }

  /** Triggers on the minute reach that bound, so it cannot be lowered. */
  function EveryMinute(n: nat): seq<Arrival> {
    if n == 0 then [Arrival(0, 0)] else EveryMinute(n - 1) + [Arrival(n * MIN_INTERVAL, n * MIN_INTERVAL)]
  }

  lemma {:induction false} EveryMinuteRuns(n: nat)
    ensures ClockRuns(EveryMinute(n)) && |EveryMinute(n)| == n + 1
    ensures forall k | 0 <= k <= n :: EveryMinute(n)[k] == Arrival(k * MIN_INTERVAL, k * MIN_INTERVAL)
  {
    if n > 0 {
      EveryMinuteRuns(n - 1);
    }
  }

  lemma StampsAppend(arrivals: seq<Arrival>, a: Arrival)
    ensures Stamps(arrivals + [a]) ==
            if TooSoon(LastOf(Stamps(arrivals)), a.check) then Stamps(arrivals) else Stamps(arrivals) + [a.stamp]
  {
    assert (arrivals + [a])[..|arrivals|] == arrivals;
  }

  lemma {:induction false} BoundIsReached(n: nat, length: nat)
    requires n * MIN_INTERVAL <= length
    ensures LastOf(Stamps(EveryMinute(n))) == Some(n * MIN_INTERVAL)
    ensures CountWithin(Stamps(EveryMinute(n)), 0, length) == n + 1
    decreases n
  {
    if n > 0 {
      BoundIsReached(n - 1, length);
      var before, at := Stamps(EveryMinute(n - 1)), n * MIN_INTERVAL;
      StampsAppend(EveryMinute(n - 1), Arrival(at, at));
      assert (before + [at])[..|before + [at]| - 1] == before;
    } else {
      StampsAppend([], Arrival(0, 0));
      assert [] + [Arrival(0, 0)] == EveryMinute(0);
      assert Stamps(EveryMinute(0)) == [0];
      assert [0][..0] == [];
    }
  }

  // ------------------------------------------------------------------------------------------------
  // The ticker
  // ------------------------------------------------------------------------------------------------

  /** The rate the ticker runs at for a period: a non-positive one parks it. */
  function Cadence(period: int): int {
    if period <= 0 then DISABLED_RECHECK else period
  }

  /** Tick k reads the same positive period as the reading before it. */
  predicate FetchesAt(periods: seq<int>, k: nat)
    requires 0 < k < |periods|
  {
    periods[k] > 0 && periods[k] == periods[k - 1]
  }

  /**
   * The loop, over the periods it reads: `periods[0]` before the first tick and `periods[k]` on tick k. Tick k
   * fetches exactly when it reads the same positive period as the reading before, and after every reading the
   * ticker runs at that reading's cadence.
   */
  method AutoFetchLoop(periods: seq<int>) returns (fetched: seq<bool>, cadences: seq<int>)
    requires |periods| > 0
    ensures |fetched| == |periods| - 1 && |cadences| == |periods|
    ensures forall k | 0 < k < |periods| :: fetched[k - 1] <==> periods[k] > 0 && periods[k] == periods[k - 1]
    ensures forall k | 0 <= k < |periods| :: cadences[k] == if periods[k] > 0 then periods[k] else 60_000_000_000
  {
    var interval := periods[0];
    var disabled := interval <= 0;
    if disabled {
      interval := DISABLED_RECHECK;
    }
    fetched, cadences := [], [interval];
    for k := 1 to |periods|
      invariant |fetched| == k - 1 && |cadences| == k
      invariant disabled <==> periods[k - 1] <= 0
      invariant interval == Cadence(periods[k - 1])
      invariant forall j | 0 < j < k :: fetched[j - 1] <==> FetchesAt(periods, j)
      invariant forall j | 0 <= j < k :: cadences[j] == Cadence(periods[j])
    {
      var cur := periods[k];
      if cur <= 0 {
        if !disabled {
          disabled := true;
          interval := DISABLED_RECHECK;
        }
        fetched := fetched + [false];
      } else if disabled || cur != interval {
        disabled := false;
        interval := cur;
        fetched := fetched + [false];
      } else {
        fetched := fetched + [true];
      }
      cadences := cadences + [interval];
    }
    forall k | 0 < k < |periods| ensures fetched[k - 1] <==> periods[k] > 0 && periods[k] == periods[k - 1] {
      assert fetched[k - 1] <==> FetchesAt(periods, k);
    }
  }

  /**
   * Once the readings stay at one positive period, at most the first of them fails to fetch, and that only when the
   * reading before it was different; once they stay non-positive none does.
   */
  lemma SettledTicker(periods: seq<int>, from: nat, k: nat)
    requires 0 < from <= k < |periods| && forall j | from <= j < |periods| :: periods[j] == periods[from]
    ensures periods[from] > 0 ==> (FetchesAt(periods, k) <==> k > from || periods[from - 1] == periods[from])
    ensures periods[from] <= 0 ==> !FetchesAt(periods, k)
  {
  }

  // ------------------------------------------------------------------------------------------------
  // One attempt
  // ------------------------------------------------------------------------------------------------

  datatype Attempt =
    | Disabled | NoProject | NotARepository | TooSoonSinceLast
    | RemoteListFailed | NoRemotes | RemoteBusy | FetchFailed | Fetched

  /** What the attempt meets outside the program. */
  datatype World = World(hasProject: bool, isRepo: bool, remotes: Option<string>, busy: bool, fetchOk: bool)

  class FrontendAPI {
    var configLoaded: bool
    var autoFetch: Option<bool>
    var lastAutoFetchAt: Option<int>
    ghost var stamps: seq<int>

    ghost predicate Valid()
      reads this
    {
      lastAutoFetchAt == LastOf(stamps)
    }

    constructor (autoFetch: Option<bool>)
      ensures Valid() && stamps == [] && configLoaded && this.autoFetch == autoFetch
    {
      configLoaded, this.autoFetch, lastAutoFetchAt, stamps := true, autoFetch, None, [];
    }

    /** Unset means on; no configuration means off. */
    predicate Enabled()
      reads this
    {
      configLoaded && (autoFetch.None? || autoFetch.value)
    }

    /** The critical section; Stamps takes the same step for the same arrival. */
    method PassMinInterval(a: Arrival) returns (passed: bool)
      requires Valid()
      modifies this`lastAutoFetchAt, this`stamps
      ensures Valid()
      ensures passed <==> !TooSoon(LastOf(old(stamps)), a.check)
      ensures passed <==> old(stamps) == [] || a.check - old(stamps)[|old(stamps)| - 1] >= 60_000_000_000
      ensures stamps == if passed then old(stamps) + [a.stamp] else old(stamps)
    {
      if lastAutoFetchAt.Some? && a.check - lastAutoFetchAt.value < MIN_INTERVAL {
        return false;
      }
      lastAutoFetchAt := Some(a.stamp);
      stamps := stamps + [a.stamp];
      passed := true;
    }

    /** Every attempt that reaches the gate and passes it is stamped, whatever becomes of it afterwards. */
    method AutoFetchOnce(w: World, a: Arrival, trimmed: string -> string) returns (outcome: Attempt, announced: bool)
      requires Valid()
      modifies this`lastAutoFetchAt, this`stamps
      ensures Valid()
      ensures announced <==> outcome.Fetched?
      ensures outcome.Disabled? <==> !(configLoaded && autoFetch != Some(false))
      ensures outcome.Fetched? <==>
        && Enabled() && w.hasProject && w.isRepo && !TooSoon(LastOf(old(stamps)), a.check)
        && w.remotes.Some? && trimmed(w.remotes.value) != "" && !w.busy && w.fetchOk
      ensures var reached := Enabled() && w.hasProject && w.isRepo;
              && (stamps == if reached && !TooSoon(LastOf(old(stamps)), a.check) then old(stamps) + [a.stamp] else old(stamps))
              && (outcome.TooSoonSinceLast? <==> reached && TooSoon(LastOf(old(stamps)), a.check))
    {
      announced := false;
      if !(configLoaded && (autoFetch.None? || autoFetch.value)) {
        outcome := Disabled;
        return;
      }
      if !w.hasProject {
        outcome := NoProject;
        return;
      }
      if !w.isRepo {
        outcome := NotARepository;
        return;
      }
      var passed := PassMinInterval(a);
      if !passed {
        outcome := TooSoonSinceLast;
        return;
      }
      if w.remotes.None? {
        outcome := RemoteListFailed;
        return;
      }
      if trimmed(w.remotes.value) == "" {
        outcome := NoRemotes;
        return;
      }
      if w.busy {
        outcome := RemoteBusy;
        return;
      }
      if !w.fetchOk {
        outcome := FetchFailed;
        return;
      }
      outcome, announced := Fetched, true;
    }
  }
}
