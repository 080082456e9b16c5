/**
 * The response-timing service: a map of running timers keyed by id, a
 * history of finished timings bounded to the most recent 100, and the
 * statistics computed from that history.
 */
module Timers {
  import opened Wrappers
  import opened Text
  import opened History

  const MaxTimerHistory: nat := 100

  datatype TimerRecord = TimerRecord(id: string, startTime: int, endTime: int, duration: int, operation: string)

  /** `history.filter(record => record.operation === op)`. */
  function FilterByOperation(history: seq<TimerRecord>, op: string): (r: seq<TimerRecord>)
    ensures |r| <= |history|
    ensures forall x :: x in r <==> x in history && x.operation == op
  {
    if history == [] then []
    else
      var last := history[|history| - 1];
      var front := history[..|history| - 1];
      assert history == front + [last];
      FilterByOperation(front, op) + (if last.operation == op then [last] else [])
  }

  /** Filtering keeps the order of the records: it distributes over concatenation. */
  lemma {:induction false} FilterAppend(a: seq<TimerRecord>, b: seq<TimerRecord>, op: string)
    ensures FilterByOperation(a + b, op) == FilterByOperation(a, op) + FilterByOperation(b, op)
    decreases |b|
  {
    if b != [] {
      var last := b[|b| - 1];
      var front := b[..|b| - 1];
      assert (a + b)[..|a + b| - 1] == a + front;
      FilterAppend(a, front, op);
    } else {
      assert a + b == a;
    }
  }

  /**
   * `getTimerHistory(operation)`: the records of one operation, or a copy of
   * the whole history when the operation is absent or the empty string.
   */
  function SelectHistory(history: seq<TimerRecord>, operation: Option<string>): (r: seq<TimerRecord>)
    ensures operation.None? || operation.value == "" ==> r == history
    ensures operation.Some? && operation.value != "" ==>
      forall x :: x in r <==> x in history && x.operation == operation.value
  {
    if operation.Some? && operation.value != "" then FilterByOperation(history, operation.value) else history
  }

  function Durations(history: seq<TimerRecord>): (ds: seq<int>)
    ensures |ds| == |history|
  {
    seq(|history|, i requires 0 <= i < |history| => history[i].duration)
  }

  /** `reduce((sum, d) => sum + d, 0)`, folding from the left. */
  function Sum(ds: seq<int>): int {
    if ds == [] then 0 else Sum(ds[..|ds| - 1]) + ds[|ds| - 1]
  }

  /** `Math.round(total / count)`: the nearest integer, a half rounded up. */
  function RoundedMean(total: int, count: int): (r: int)
    requires count > 0
    ensures 2 * count * r <= 2 * total + count < 2 * count * (r + 1)
  {
    (2 * total + count) / (2 * count)
  }

  /** `Math.min(...ds)`. */
  function MinOf(ds: seq<int>): (m: int)
    requires |ds| > 0
    ensures m in ds && forall k :: 0 <= k < |ds| ==> m <= ds[k]
  {
    if |ds| == 1 then ds[0]
    else
      var rest := MinOf(ds[..|ds| - 1]);
      assert forall k :: 0 <= k < |ds| - 1 ==> ds[k] == ds[..|ds| - 1][k];
      if ds[|ds| - 1] < rest then ds[|ds| - 1] else rest
  }

  /** `Math.max(...ds)`. */
  function MaxOf(ds: seq<int>): (m: int)
    requires |ds| > 0
    ensures m in ds && forall k :: 0 <= k < |ds| ==> ds[k] <= m
  {
    if |ds| == 1 then ds[0]
    else
      var rest := MaxOf(ds[..|ds| - 1]);
      assert forall k :: 0 <= k < |ds| - 1 ==> ds[k] == ds[..|ds| - 1][k];
      if ds[|ds| - 1] > rest then ds[|ds| - 1] else rest
  }

  /** The sum of a list lies between its length times any lower bound and its length times any upper bound. */
  lemma {:induction false} SumBetween(ds: seq<int>, lo: int, hi: int)
    requires forall k :: 0 <= k < |ds| ==> lo <= ds[k] <= hi
    ensures |ds| * lo <= Sum(ds) <= |ds| * hi
  {
    if ds != [] {
      var front := ds[..|ds| - 1];
      assert forall k :: 0 <= k < |front| ==> front[k] == ds[k];
      SumBetween(front, lo, hi);
      assert |ds| * lo == |front| * lo + lo;
      assert |ds| * hi == |front| * hi + hi;
    }
  }

  /** A rounded mean stays within any bounds of the values it averages. */
  lemma RoundedMeanBetween(total: int, count: int, lo: int, hi: int)
    requires count > 0 && count * lo <= total <= count * hi
    ensures lo <= RoundedMean(total, count) <= hi
  {
    var r := RoundedMean(total, count);
    var c2 := 2 * count;
    assert c2 * (hi + 1) == 2 * (count * hi) + c2;
    assert c2 * r < c2 * (hi + 1);
    CancelFactor(c2, r, hi + 1);
    assert c2 * lo == 2 * (count * lo);
    assert c2 * lo < c2 * (r + 1);
    CancelFactor(c2, lo, r + 1);
  }

  lemma CancelFactor(c: int, x: int, y: int)
    requires c > 0 && c * x < c * y
    ensures x < y
  {
  }

  /** `getAverageResponseTime`: 0 for no records, else the rounded mean duration. */
  function AverageDuration(records: seq<TimerRecord>): (avg: int)
    ensures records == [] ==> avg == 0
    ensures records != [] ==> MinOf(Durations(records)) <= avg <= MaxOf(Durations(records))
    ensures records != [] ==>
      2 * |records| * avg <= 2 * Sum(Durations(records)) + |records| < 2 * |records| * (avg + 1)
  {
    if records == [] then 0
    else
      var ds := Durations(records);
      SumBetween(ds, MinOf(ds), MaxOf(ds));
      RoundedMeanBetween(Sum(ds), |ds|, MinOf(ds), MaxOf(ds));
      RoundedMean(Sum(ds), |ds|)
  }

  /** Response-time buckets: under a second, under three seconds, the rest. */
  datatype Distribution = Distribution(fast: nat, medium: nat, slow: nat)

  /**
   * The `reduce` that sorts durations into buckets: under 1000 ms is fast,
   * under 3000 ms medium, anything else slow.
   */
  function Distribute(ds: seq<int>): (d: Distribution)
    ensures d.fast + d.medium + d.slow == |ds|
    ensures d.fast == |set k | 0 <= k < |ds| && ds[k] < 1000|
    ensures d.medium == |set k | 0 <= k < |ds| && 1000 <= ds[k] < 3000|
    ensures d.slow == |set k | 0 <= k < |ds| && 3000 <= ds[k]|
  {
    if ds == [] then Distribution(0, 0, 0)
    else
      var acc := Distribute(ds[..|ds| - 1]);
      var d := ds[|ds| - 1];
      BelowSnoc(ds, ds[..|ds| - 1], 1000);
      BetweenSnoc(ds, ds[..|ds| - 1], 1000, 3000);
      AboveSnoc(ds, ds[..|ds| - 1], 3000);
      if d < 1000 then acc.(fast := acc.fast + 1)
      else if d < 3000 then acc.(medium := acc.medium + 1)
      else acc.(slow := acc.slow + 1)
  }

  /** The fast bucket's index set gains the last index exactly when the last duration is under `lo`. */
  lemma BelowSnoc(ds: seq<int>, front: seq<int>, lo: int)
    requires |ds| > 0 && front == ds[..|ds| - 1]
    ensures |set k | 0 <= k < |ds| && ds[k] < lo|
      == |set k | 0 <= k < |ds| - 1 && front[k] < lo| + (if ds[|ds| - 1] < lo then 1 else 0)
  {
    var n := |ds| - 1;
    var before := set k | 0 <= k < n && front[k] < lo;
    assert n !in before;
    assert (set k | 0 <= k < |ds| && ds[k] < lo) == if ds[n] < lo then before + {n} else before;
  }

  /** The same for the medium bucket `[lo, hi)`. */
  lemma BetweenSnoc(ds: seq<int>, front: seq<int>, lo: int, hi: int)
    requires |ds| > 0 && front == ds[..|ds| - 1]
    ensures |set k | 0 <= k < |ds| && lo <= ds[k] < hi|
      == |set k | 0 <= k < |ds| - 1 && lo <= front[k] < hi| + (if lo <= ds[|ds| - 1] < hi then 1 else 0)
  {
    var n := |ds| - 1;
    var before := set k | 0 <= k < n && lo <= front[k] < hi;
    assert n !in before;
    assert (set k | 0 <= k < |ds| && lo <= ds[k] < hi) == if lo <= ds[n] < hi then before + {n} else before;
  }

  /** The same for the slow bucket, `hi` and above. */
  lemma AboveSnoc(ds: seq<int>, front: seq<int>, hi: int)
    requires |ds| > 0 && front == ds[..|ds| - 1]
    ensures |set k | 0 <= k < |ds| && hi <= ds[k]|
      == |set k | 0 <= k < |ds| - 1 && hi <= front[k]| + (if hi <= ds[|ds| - 1] then 1 else 0)
  {
    var n := |ds| - 1;
    var before := set k | 0 <= k < n && hi <= front[k];
    assert n !in before;
    assert (set k | 0 <= k < |ds| && hi <= ds[k]) == if hi <= ds[n] then before + {n} else before;
  }

  datatype PerformanceStats = PerformanceStats(
    totalRequests: nat,
    averageResponseTime: int,
    fastestResponse: int,
    slowestResponse: int,
    responseTimeDistribution: Distribution)

  /** `getPerformanceStats`. */
  function Stats(history: seq<TimerRecord>): (s: PerformanceStats)
    ensures history == [] ==> s == PerformanceStats(0, 0, 0, 0, Distribution(0, 0, 0))
    ensures s.totalRequests == |history|
    ensures s.responseTimeDistribution.fast + s.responseTimeDistribution.medium
              + s.responseTimeDistribution.slow == s.totalRequests
    ensures history != [] ==> s.fastestResponse <= s.averageResponseTime <= s.slowestResponse
    ensures history != [] ==> forall k :: 0 <= k < |history| ==>
              s.fastestResponse <= history[k].duration <= s.slowestResponse
    ensures history != [] ==> exists k :: 0 <= k < |history| && history[k].duration == s.fastestResponse
    ensures history != [] ==> exists k :: 0 <= k < |history| && history[k].duration == s.slowestResponse
    ensures s.averageResponseTime == AverageDuration(history)
    ensures s.responseTimeDistribution == Distribute(Durations(history))
  {
    if history == [] then PerformanceStats(0, 0, 0, 0, Distribution(0, 0, 0))
    else
      var ds := Durations(history);
      assert forall k :: 0 <= k < |history| ==> ds[k] == history[k].duration;
      PerformanceStats(|history|, AverageDuration(history), MinOf(ds), MaxOf(ds), Distribute(ds))
  }

  /** The millisecond branch of `formatDuration`; the second and minute branches format floats and are not modelled. */
  function FormatDuration(milliseconds: int): (text: Option<string>)
    ensures milliseconds < 1000 ==> text.Some? && EndsWith(text.value, "ms")
    ensures milliseconds < 1000 ==> text.value[..|text.value| - 2] == IntToString(milliseconds)
    ensures milliseconds >= 1000 ==> text.None?
  {
    if milliseconds < 1000 then Some(IntToString(milliseconds) + "ms") else None
  }

  /** `!startTime` fails for a missing id and also for a stored start time of 0. */
  predicate HasStartTime(timers: map<string, int>, id: string) {
    id in timers && timers[id] != 0
  }

  class TimerService {
    var activeTimers: map<string, int>
    var timerHistory: seq<TimerRecord>

    /** The history is bounded and every record's duration is its end minus its start. */
    ghost predicate Valid()
      reads this
    {
      && |timerHistory| <= MaxTimerHistory
      && forall k :: 0 <= k < |timerHistory| ==>
           timerHistory[k].duration == timerHistory[k].endTime - timerHistory[k].startTime
    }

    constructor ()
      ensures Valid() && activeTimers == map[] && timerHistory == []
    {
      activeTimers := map[];
      timerHistory := [];
    }

    /** Starts (or restarts) the timer `id` at `now`; `operation` is only logged. */
    method StartTimer(id: string, operation: string, now: int)
      requires Valid()
      modifies this
      ensures Valid()
      ensures activeTimers == old(activeTimers)[id := now]
      ensures IsTimerActive(id) && activeTimers[id] == now
      ensures timerHistory == old(timerHistory)
    {
      activeTimers := activeTimers[id := now];
    }

    /**
     * Stops the timer `id` at `now`. Without a usable start time nothing changes
     * and the result is 0; otherwise one record is appended (the oldest dropped
     * beyond 100), the timer is removed and its duration returned.
     */
    method StopTimer(id: string, operation: string, now: int) returns (duration: int)
      requires Valid()
      modifies this
      ensures Valid()
      ensures !HasStartTime(old(activeTimers), id) ==>
        duration == 0 && activeTimers == old(activeTimers) && timerHistory == old(timerHistory)
      ensures HasStartTime(old(activeTimers), id) ==>
        var start := old(activeTimers)[id];
        && duration == now - start
        && timerHistory == KeepLast(old(timerHistory) + [TimerRecord(id, start, now, duration, operation)], MaxTimerHistory)
        && timerHistory[|timerHistory| - 1] == TimerRecord(id, start, now, duration, operation)
        && activeTimers == old(activeTimers) - {id}
        && !IsTimerActive(id)
      ensures duration == old(GetElapsedTime(id, now))
    {
      if !(id in activeTimers && activeTimers[id] != 0) {
        return 0;
      }
      var startTime := activeTimers[id];
      var endTime := now;
      duration := endTime - startTime;
      var record := TimerRecord(id, startTime, endTime, duration, operation);
      AppendBounded(timerHistory, record, MaxTimerHistory);
      timerHistory := timerHistory + [record];
      if |timerHistory| > MaxTimerHistory {
        timerHistory := timerHistory[|timerHistory| - MaxTimerHistory..];
      }
      activeTimers := activeTimers - {id};
    }

    /** Milliseconds since the timer started, or 0 without a usable start time. */
    function GetElapsedTime(id: string, now: int): (elapsed: int)
      reads this
      ensures !IsTimerActive(id) ==> elapsed == 0
      ensures !HasStartTime(activeTimers, id) ==> elapsed == 0
      ensures HasStartTime(activeTimers, id) ==> elapsed == now - activeTimers[id]
    {
      if HasStartTime(activeTimers, id) then now - activeTimers[id] else 0
    }

    predicate IsTimerActive(id: string)
      reads this
    {
      id in activeTimers
    }

    function GetTimerHistory(operation: Option<string>): seq<TimerRecord>
      reads this
    {
      SelectHistory(timerHistory, operation)
    }

    function GetAverageResponseTime(operation: Option<string>): int
      reads this
    {
      AverageDuration(GetTimerHistory(operation))
    }

    function GetPerformanceStats(): PerformanceStats
      reads this
    {
      Stats(timerHistory)
    }

    method ClearHistory()
      requires Valid()
      modifies this
      ensures Valid() && timerHistory == [] && activeTimers == old(activeTimers)
    {
      timerHistory := [];
    }

    method ClearActiveTimers()
      requires Valid()
      modifies this
      ensures Valid() && activeTimers == map[] && timerHistory == old(timerHistory)
    {
      activeTimers := map[];
    }
  }
}
