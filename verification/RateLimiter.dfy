/** The fetchers' sliding-window rate limiter. */
module RateLimiter {

  /** The calls recorded after `cutoff`. */
  function Pruned(calls: seq<real>, cutoff: real): seq<real> {
    if calls == [] then []
    else if calls[0] > cutoff then [calls[0]] + Pruned(calls[1..], cutoff)
    else Pruned(calls[1..], cutoff)
  }

  predicate Ordered(calls: seq<real>) {
    forall i, j :: 0 <= i <= j < |calls| ==> calls[i] <= calls[j]
  }

  /** Call i + max comes at least `period` after call i. */
  predicate Spaced(calls: seq<real>, max: nat, period: real) {
    forall i, j :: 0 <= i < |calls| && 0 <= j < |calls| && j == i + max ==> calls[j] >= calls[i] + period
  }

  /** Of every call ever recorded, those from `start` on are still listed. All before it are out of the
      window of any later call, and so is the first listed one when the list is longer than `max`. */
  predicate Window(history: seq<real>, start: nat, max: nat, period: real) {
    && start <= |history| <= start + max + 1
    && Ordered(history) && Spaced(history, max, period)
    && (forall i :: 0 <= i < start ==> history[i] + period <= history[|history| - 1])
    && (|history| == start + max + 1 ==> history[start] + period <= history[|history| - 1])
  }

  ghost predicate IsTail(calls: seq<real>, history: seq<real>) {
    |calls| <= |history| && calls == history[|history| - |calls|..]
  }

  /** What the clock shows around one call. */
  datatype Tick = Tick(now: real, after: real)

  /** Every call recorded, and those still listed. */
  datatype Log = Log(history: seq<real>, calls: seq<real>)

  function Next(log: Log, t: Tick, period: real): Log {
    Log(log.history + [t.after], Pruned(log.calls, t.now - period) + [t.after])
  }

  /** The clock has not run backwards, and a full list makes the call sleep until its oldest call leaves
      the window. */
  predicate Timely(log: Log, t: Tick, max: nat, period: real) {
    && (log.history != [] ==> log.history[|log.history| - 1] <= t.now) && t.now <= t.after
    && var kept := Pruned(log.calls, t.now - period);
      |kept| >= max > 0 ==> t.after >= kept[0] + period
  }

  /** The first `k` calls, and only they, are `cutoff` or earlier. */
  predicate DropsTo(calls: seq<real>, cutoff: real, k: int) {
    && 0 <= k <= |calls|
    && (forall i :: 0 <= i < k ==> calls[i] <= cutoff)
    && (forall i :: k <= i < |calls| ==> calls[i] > cutoff)
  }

  ghost predicate Sound(log: Log, max: nat, period: real) {
    IsTail(log.calls, log.history) && Window(log.history, |log.history| - |log.calls|, max, period)
  }

  class Limiter {
    const maxCalls: nat
    const period: real
    var calls: seq<real>
    // Every call ever recorded.
    ghost var history: seq<real>

    ghost predicate Valid()
      reads this
    {
      maxCalls > 0 && Sound(Log(history, calls), maxCalls, period)
    }

    constructor (maxCalls: nat, period: real)
      requires maxCalls > 0
      ensures Valid() && this.maxCalls == maxCalls && this.period == period && history == []
    {
      this.maxCalls, this.period := maxCalls, period;
      calls, history := [], [];
    }

    /** `wait`: `now` is the clock on entry and `after` the clock when the call is recorded. */
    method Wait(now: real, after: real)
      requires Valid()
      requires Timely(Log(history, calls), Tick(now, after), maxCalls, period)
      modifies this
      ensures Valid()
      ensures Log(history, calls) == Next(old(Log(history, calls)), Tick(now, after), period)
      ensures exists k :: DropsTo(old(calls), now - period, k) && calls == old(calls)[k..] + [after]
    {
      TailIsOrdered(calls, history);
      ghost var k := NextDrops(Log(history, calls), Tick(now, after), period);
      ghost var next := NextIsSound(Log(history, calls), Tick(now, after), maxCalls, period);
      calls := Pruned(calls, now - period);
      history := history + [after];
      calls := calls + [after];
      assert Log(history, calls) == next;
    }
  }

  lemma NextDrops(log: Log, t: Tick, period: real) returns (k: int)
    requires Ordered(log.calls)
    ensures DropsTo(log.calls, t.now - period, k)
    ensures Next(log, t, period).calls == log.calls[k..] + [t.after]
  {
    PruneSuffix(log.calls, t.now - period);
    var kept := Pruned(log.calls, t.now - period);
    k := |log.calls| - |kept|;
    assert forall i :: k <= i < |log.calls| ==> log.calls[i] == kept[i - k];
  }

  lemma TailGrows(kept: seq<real>, history: seq<real>, x: real)
    requires IsTail(kept, history)
    ensures IsTail(kept + [x], history + [x])
  {
  }

  lemma TailIsOrdered(calls: seq<real>, history: seq<real>)
    requires IsTail(calls, history) && Ordered(history)
    ensures Ordered(calls)
  {
  }

  /** What pruning means for the whole history. */
  lemma PruneInHistory(history: seq<real>, calls: seq<real>, cutoff: real)
    requires IsTail(calls, history) && Ordered(history)
    ensures var kept := Pruned(calls, cutoff);
      && IsTail(kept, history) && |kept| <= |calls|
      && (forall i :: |history| - |calls| <= i < |history| - |kept| ==> history[i] <= cutoff)
      && (forall i :: |history| - |kept| <= i < |history| ==> history[i] > cutoff)
  {
    var kept, base := Pruned(calls, cutoff), |history| - |calls|;
    TailIsOrdered(calls, history);
    PruneSuffix(calls, cutoff);
    forall i | base <= i < |history|
      ensures i < |history| - |kept| ==> history[i] <= cutoff
      ensures i >= |history| - |kept| ==> history[i] > cutoff
    {
      assert history[i] == calls[i - base];
      if i >= |history| - |kept| {
        assert calls[i - base] == kept[i - base - (|calls| - |kept|)];
      }
    }
  }

  lemma OneWait(history: seq<real>, calls: seq<real>, max: nat, period: real, now: real, after: real)
    requires max > 0 && IsTail(calls, history) && Window(history, |history| - |calls|, max, period)
    requires (history != [] ==> history[|history| - 1] <= now) && now <= after
    requires var kept := Pruned(calls, now - period); |kept| >= max ==> after >= kept[0] + period
    ensures var kept := Pruned(calls, now - period);
      IsTail(kept + [after], history + [after]) && Window(history + [after], |history| - |kept|, max, period)
  {
    var kept := Pruned(calls, now - period);
    PruneInHistory(history, calls, now - period);
    TailGrows(kept, history, after);
    WaitKeepsWindow(history, |history| - |calls|, |history| - |kept|, max, period, now, after);
  }

  /** On ordered calls pruning drops a prefix, all of it out of the window. */
  lemma {:induction false} PruneSuffix(calls: seq<real>, cutoff: real)
    requires Ordered(calls)
    ensures var p := Pruned(calls, cutoff);
      && |p| <= |calls| && p == calls[|calls| - |p|..]
      && (forall i :: 0 <= i < |calls| - |p| ==> calls[i] <= cutoff)
      && (forall i :: 0 <= i < |p| ==> p[i] > cutoff)
  {
    if calls != [] {
      PruneSuffix(calls[1..], cutoff);
    }
  }

  /** One call: the list is pruned to `kept` on, which leaves at most `max`, and if it leaves as many the
      call waits for the oldest of them to leave the window. */
  lemma WaitKeepsWindow(history: seq<real>, start: nat, kept: nat, max: nat, period: real, now: real, after: real)
    requires max > 0 && Window(history, start, max, period)
    requires (history != [] ==> history[|history| - 1] <= now) && now <= after
    requires start <= kept <= |history|
    requires forall i :: start <= i < kept ==> history[i] <= now - period
    requires forall i :: kept <= i < |history| ==> history[i] > now - period
    requires |history| - kept >= max ==> after >= history[kept] + period
    ensures Window(history + [after], kept, max, period)
  {
    var h := history + [after];
    forall i, j | 0 <= i < |h| && 0 <= j < |h| && j == i + max
      ensures h[j] >= h[i] + period
    {
      if j == |history| {
        assert i >= kept ==> i == kept;
      }
    }
  }

  // ---- what the spacing means

  /** How many of the calls fall in [from, from + period). */
  function CountIn(calls: seq<real>, from: real, period: real): nat {
    if calls == [] then 0
    else CountIn(calls[..|calls| - 1], from, period) + if from <= calls[|calls| - 1] < from + period then 1 else 0
  }

  lemma {:induction false} NoneBefore(calls: seq<real>, n: nat, from: real, period: real)
    requires n <= |calls| && forall i :: 0 <= i < n ==> calls[i] < from
    ensures CountIn(calls[..n], from, period) == 0
  {
    if n > 0 {
      assert calls[..n][..n - 1] == calls[..n - 1];
      NoneBefore(calls, n - 1, from, period);
    }
  }

  lemma {:induction false} CountGrowsByOne(calls: seq<real>, m: nat, n: nat, from: real, period: real)
    requires m <= n <= |calls|
    ensures CountIn(calls[..n], from, period) <= CountIn(calls[..m], from, period) + n - m
    decreases n
  {
    if m < n {
      assert calls[..n][..n - 1] == calls[..n - 1];
      CountGrowsByOne(calls, m, n - 1, from, period);
    }
  }

  /** No half-open window as long as the period ever holds more than `max` calls. */
  lemma {:induction false} AtMostMaxPerWindow(calls: seq<real>, n: nat, max: nat, from: real, period: real)
    requires Ordered(calls) && Spaced(calls, max, period) && n <= |calls|
    ensures CountIn(calls[..n], from, period) <= max
    decreases n
  {
    if n > 0 {
      assert calls[..n][..n - 1] == calls[..n - 1];
      if from <= calls[n - 1] < from + period {
        if n > max {
          forall i | 0 <= i < n - max
            ensures calls[i] < from
          {
            assert calls[n - 1 - max + max] >= calls[n - 1 - max] + period;
          }
          NoneBefore(calls, n - max, from, period);
        }
        CountGrowsByOne(calls, if n > max then n - max else 0, n, from, period);
      } else {
        AtMostMaxPerWindow(calls, n - 1, max, from, period);
      }
    }
  }

  // ---- any sequence of calls

  function Run(log: Log, ticks: seq<Tick>, period: real): Log
    decreases |ticks|
  {
    if ticks == [] then log else Run(Next(log, ticks[0], period), ticks[1..], period)
  }

  predicate AllTimely(log: Log, ticks: seq<Tick>, max: nat, period: real)
    decreases |ticks|
  {
    ticks == []
    || (Timely(log, ticks[0], max, period) && AllTimely(Next(log, ticks[0], period), ticks[1..], max, period))
  }

  lemma NextIsSound(log: Log, t: Tick, max: nat, period: real) returns (next: Log)
    requires max > 0 && Sound(log, max, period) && Timely(log, t, max, period)
    ensures next == Next(log, t, period) && Sound(next, max, period)
  {
    OneWait(log.history, log.calls, max, period, t.now, t.after);
    next := Next(log, t, period);
  }

  lemma {:induction false} RunIsSound(log: Log, ticks: seq<Tick>, max: nat, period: real)
    requires max > 0 && Sound(log, max, period) && AllTimely(log, ticks, max, period)
    ensures Sound(Run(log, ticks, period), max, period)
    decreases |ticks|
  {
    if ticks != [] {
      var next := NextIsSound(log, ticks[0], max, period);
      RunIsSound(next, ticks[1..], max, period);
    }
  }

  lemma {:induction false} RunRecordsAll(log: Log, ticks: seq<Tick>, period: real)
    ensures var history := Run(log, ticks, period).history;
      && |history| == |log.history| + |ticks| && history[..|log.history|] == log.history
      && forall i :: 0 <= i < |ticks| ==> history[|log.history| + i] == ticks[i].after
    decreases |ticks|
  {
    if ticks != [] {
      var next := Next(log, ticks[0], period);
      RunRecordsAll(next, ticks[1..], period);
      var history := Run(next, ticks[1..], period).history;
      assert history[..|log.history|] == next.history[..|log.history|];
      forall i | 0 <= i < |ticks|
        ensures history[|log.history| + i] == ticks[i].after
      {
        if i > 0 {
          assert ticks[i] == ticks[1..][i - 1];
        } else {
          assert history[..|next.history|][|log.history|] == ticks[0].after;
        }
      }
    }
  }

  lemma NoWindowHoldsMore(calls: seq<real>, max: nat, period: real)
    requires max > 0 && Ordered(calls) && Spaced(calls, max, period)
    ensures forall from: real :: CountIn(calls, from, period) <= max
  {
    assert calls[..|calls|] == calls;
    forall from: real
      ensures CountIn(calls, from, period) <= max
    {
      AtMostMaxPerWindow(calls, |calls|, max, from, period);
    }
  }

  /** However the calls come, a fresh limiter records each of them, and never more than `max` in any window. */
  lemma AnyRun(ticks: seq<Tick>, max: nat, period: real)
    requires max > 0 && AllTimely(Log([], []), ticks, max, period)
    ensures var history := Run(Log([], []), ticks, period).history;
      && |history| == |ticks| && (forall i :: 0 <= i < |ticks| ==> history[i] == ticks[i].after)
      && Spaced(history, max, period)
      && forall from: real :: CountIn(history, from, period) <= max
  {
    RunIsSound(Log([], []), ticks, max, period);
    RunRecordsAll(Log([], []), ticks, period);
    NoWindowHoldsMore(Run(Log([], []), ticks, period).history, max, period);
  }
}
