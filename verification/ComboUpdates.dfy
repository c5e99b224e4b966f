/** When the combo runner's mtime short-circuit loses an update, over any history of the facts file. */
module ComboUpdates {
  import opened Orders
  import opened Combo

  /** Reads of the file go forward in time. */
  predicate Ordered(t: Turn, from: nat) {
    from <= t.atStat <= t.atCalendar <= t.atDates
  }

  ghost predicate Ascending(dates: seq<int>) {
    forall i, j :: 0 <= i < j < |dates| ==> dates[i] < dates[j]
  }

  ghost predicate AllAscending(file: File) {
    forall v: nat :: Ascending(file(v).dates)
  }

  ghost predicate Within(dates: seq<int>, all: seq<int>) {
    forall d :: d in dates ==> d in all
  }

  function Latest(v: Version): int
    requires v.dates != []
  {
    v.dates[|v.dates| - 1]
  }

  /** `w` has no date that `u` lacks, and the same latest one. */
  ghost predicate NothingNew(u: Version, w: Version) {
    Within(w.dates, u.dates) && (w.dates != [] ==> u.dates != [] && Latest(u) == Latest(w))
  }

  /** An mtime that comes back tells that nothing new has come since: the later version has nothing new over
      any version from the earlier one on. */
  ghost predicate MtimesTell(file: File) {
    forall v: nat, u: nat, w: nat :: v <= u <= w && file(v).mtime == file(w).mtime ==> NothingNew(file(u), file(w))
  }

  // ---- lists of dates

  lemma {:induction false} NewerIs(dates: seq<int>, after: int, d: int)
    ensures d in Newer(dates, after) <==> d in dates && d > after
  {
    if dates != [] {
      assert dates == [dates[0]] + dates[1..];
      NewerIs(dates[1..], after, d);
    }
  }

  lemma PrependAscends(x: int, rest: seq<int>)
    requires Ascending(rest) && forall d :: d in rest ==> x < d
    ensures Ascending([x] + rest)
  {
    forall i, j | 0 <= i < j < |[x] + rest|
      ensures ([x] + rest)[i] < ([x] + rest)[j]
    {
      assert rest[j - 1] in rest;
    }
  }

  lemma TailIsLater(dates: seq<int>)
    requires Ascending(dates) && dates != []
    ensures Ascending(dates[1..]) && forall d :: d in dates[1..] ==> dates[0] < d
  {
    forall d | d in dates[1..]
      ensures dates[0] < d
    {
      var i :| 0 <= i < |dates[1..]| && dates[1..][i] == d;
      assert dates[i + 1] == d;
    }
  }

  lemma {:induction false} NewerAscends(dates: seq<int>, after: int)
    requires Ascending(dates)
    ensures Ascending(Newer(dates, after))
  {
    if dates != [] {
      var rest := Newer(dates[1..], after);
      TailIsLater(dates);
      NewerAscends(dates[1..], after);
      forall d | d in rest
        ensures dates[0] < d
      {
        NewerIs(dates[1..], after, d);
      }
      PrependAscends(dates[0], rest);
    }
  }

  lemma MembersOf(dates: seq<int>)
    requires dates != []
    ensures forall d :: d in dates <==> d == dates[0] || d in dates[1..]
  {
    assert dates == [dates[0]] + dates[1..];
  }

  lemma PendingIs(v: Version, after: Option<int>, d: int)
    ensures d in PendingDates(v, after) <==>
            d in v.dates && if after.Some? then d > after.value else d == Latest(v)
  {
    if after.Some? {
      NewerIs(v.dates, after.value, d);
    }
  }

  lemma PendingAscends(v: Version, after: Option<int>)
    requires Ascending(v.dates)
    ensures Ascending(PendingDates(v, after))
  {
    if after.Some? {
      NewerAscends(v.dates, after.value);
    }
  }

  /** Nothing comes after the latest date. */
  lemma NoneAfterLatest(v: Version, d: int)
    requires Ascending(v.dates) && d in v.dates
    ensures d <= Latest(v)
  {
    var i :| 0 <= i < |v.dates| && v.dates[i] == d;
  }

  // ---- one pass over a version's dates

  /** Dates of the calendar later than everything executed are executed. */
  lemma {:induction false} DatesAreRun(dates: seq<int>, c: Cycled, t: Turn, d: int)
    requires Ascending(dates) && d in dates && d in c.runner.hook.calendar
    requires forall e :: e in dates && c.runner.hook.last.Some? ==> e > c.runner.hook.last.value
    ensures var z := RunDates(dates, c, t); !z.raised ==> d in z.runner.ran
    decreases |dates|
  {
    if !c.raised {
      var call := CallHook(c.runner, dates[0], ActOn(t, dates[0]));
      TailIsLater(dates);
      MembersOf(dates);
      if d == dates[0] {
        RanStays(dates[1..], Counted(c, call), t, d);
      } else {
        DatesAreRun(dates[1..], Counted(c, call), t, d);
      }
    }
  }

  lemma {:induction false} RanStays(dates: seq<int>, c: Cycled, t: Turn, d: int)
    requires d in c.runner.ran
    ensures d in RunDates(dates, c, t).runner.ran
    decreases |dates|
  {
    if dates != [] && !c.raised {
      RanStays(dates[1..], Counted(c, CallHook(c.runner, dates[0], ActOn(t, dates[0]))), t, d);
    }
  }

  /** And no others are. */
  lemma {:induction false} OnlyDatesAreRun(dates: seq<int>, c: Cycled, t: Turn, d: int)
    requires d in RunDates(dates, c, t).runner.ran
    ensures d in c.runner.ran || d in dates
    decreases |dates|
  {
    if dates != [] && !c.raised {
      OnlyDatesAreRun(dates[1..], Counted(c, CallHook(c.runner, dates[0], ActOn(t, dates[0]))), t, d);
    }
  }

  lemma {:induction false} OnlyCalendarIsRun(dates: seq<int>, c: Cycled, t: Turn, d: int)
    requires d in RunDates(dates, c, t).runner.ran
    ensures d in c.runner.ran || d in c.runner.hook.calendar
    decreases |dates|
  {
    if dates != [] && !c.raised {
      OnlyCalendarIsRun(dates[1..], Counted(c, CallHook(c.runner, dates[0], ActOn(t, dates[0]))), t, d);
    }
  }

  /** `last` is `was`, or later and one of `dates`. */
  predicate Moved(was: Option<int>, last: Option<int>, dates: seq<int>) {
    && (last == was || (last.Some? && last.value in dates))
    && (was.Some? ==> last.Some? && last.value >= was.value)
  }

  /** A call leaves the store as it was, or records the date at some cost. */
  lemma CallRecords(r: Runner, d: int, act: Act) returns (longs: Holdings, shorts: Holdings, costs: real)
    ensures var z := CallHook(r, d, act).runner;
      z.rows == r.rows
      || (!Skips(r.hook, d)
          && z.rows == Record(r.rows, d, r.prev, (r.hook.longs, r.hook.shorts), longs, shorts, costs,
                              Pnl(r.prices, r.prev, d) - costs))
  {
    longs, shorts, costs := map[], map[], 0.0;
    if act.Trades? {
      longs, shorts, costs := act.longs, act.shorts, act.costs;
    }
  }

  lemma CallMovesLast(r: Runner, d: int, act: Act)
    requires InStep(r)
    ensures Moved(LastState(r.rows).date, LastState(CallHook(r, d, act).runner.rows).date, [d])
  {
    var longs, shorts, costs := CallRecords(r, d, act);
    if !Skips(r.hook, d) {
      RecordingExtends(r.rows, r.prices, d, longs, shorts, costs);
    }
  }

  /** The store's last date moves only forward, to dates of the pass, wherever the pass fails. */
  lemma {:induction false} LastIsRun(dates: seq<int>, c: Cycled, t: Turn)
    requires !c.raised ==> InStep(c.runner)
    ensures Moved(LastState(c.runner.rows).date, LastState(RunDates(dates, c, t).runner.rows).date, dates)
    decreases |dates|
  {
    if dates != [] && !c.raised {
      var call := CallHook(c.runner, dates[0], ActOn(t, dates[0]));
      CallKeepsChain(c.runner, dates[0], ActOn(t, dates[0]));
      CallMovesLast(c.runner, dates[0], ActOn(t, dates[0]));
      LastIsRun(dates[1..], Counted(c, call), t);
      MembersOf(dates);
    }
  }

  lemma {:induction false} PassKeepsRest(dates: seq<int>, c: Cycled, t: Turn)
    ensures var r := RunDates(dates, c, t).runner;
      r.done == c.runner.done && r.finished == c.runner.finished
    decreases |dates|
  {
    if dates != [] && !c.raised {
      PassKeepsRest(dates[1..], Counted(c, CallHook(c.runner, dates[0], ActOn(t, dates[0]))), t);
    }
  }

  /** A completed pass over the dates of `v`, with the calendar of `cal`, executes everything then pending in
      a version with nothing new over either. */
  lemma PassLeavesNothing(cal: Version, v: Version, w: Version, c: Cycled, t: Turn)
    requires Ascending(v.dates) && Ascending(w.dates) && NothingNew(cal, w) && NothingNew(v, w)
    requires InStep(c.runner) && !c.raised && c.runner.hook.calendar == cal.dates
    requires c.runner.hook.last == c.runner.prev.date
    ensures var z := RunDates(PendingDates(v, c.runner.prev.date), c, t);
      !z.raised ==> Within(PendingDates(w, LastState(z.runner.rows).date), z.runner.ran)
  {
    var was := c.runner.prev.date;
    var dates := PendingDates(v, was);
    var z := RunDates(dates, c, t);
    LastIsRun(dates, c, t);
    PendingAscends(v, was);
    var last := LastState(z.runner.rows).date;
    if !z.raised {
      forall d | d in PendingDates(w, last)
        ensures d in z.runner.ran
      {
        StillPending(v, w, was, last, d);
        forall e | e in dates
          ensures was.Some? ==> e > was.value
        {
          PendingIs(v, was, e);
        }
        DatesAreRun(dates, c, t, d);
      }
    }
  }

  /** What is pending in `w` after a pass over `v` was pending in `v`. */
  lemma StillPending(v: Version, w: Version, was: Option<int>, last: Option<int>, d: int)
    requires Ascending(w.dates) && NothingNew(v, w) && Moved(was, last, PendingDates(v, was))
    requires d in PendingDates(w, last)
    ensures d in w.dates && d in PendingDates(v, was)
  {
    PendingIs(w, last, d);
    PendingIs(v, was, d);
    if was.None? && last.Some? {
      PendingIs(v, was, last.value);
      NoneAfterLatest(w, d);
    }
  }

  /** A pass that records something leaves nothing pending that was not. */
  lemma PendingShrinks(v: Version, w: Version, was: Option<int>, last: Option<int>, handed: seq<int>)
    requires Ascending(w.dates) && NothingNew(v, w) && Moved(was, last, PendingDates(v, was))
    requires Within(PendingDates(w, was), handed)
    ensures Within(PendingDates(w, last), handed)
  {
    forall d | d in PendingDates(w, last)
      ensures d in handed
    {
      PendingIs(w, last, d);
      PendingIs(w, was, d);
      if was.None? && last.Some? {
        PendingIs(v, was, last.value);
        NoneAfterLatest(w, d);
      }
    }
  }

  // ---- a cycle

  /** `now` bounds every version read so far. In any version from then on that carries the recorded mtime,
      every pending date was executed in the cycle that recorded it. */
  ghost predicate NothingMissed(r: Runner, file: File, now: nat) {
    r.done.Some? ==>
      && (exists v: nat :: v <= now && file(v).mtime == r.done.value)
      && forall w: nat :: w >= now && file(w).mtime == r.done.value ==> AllHanded(r, file(w))
  }

  ghost predicate AllHanded(r: Runner, w: Version) {
    Within(PendingDates(w, LastState(r.rows).date), r.finished)
  }

  /** A cycle's pass over its dates, from the restored runner. */
  function Pass(r: Runner, t: Turn, file: File): Cycled {
    var restored := Restored(r, file(t.atCalendar).dates);
    RunDates(PendingDates(file(t.atDates), restored.prev.date), Cycled(restored, 0, false), t)
  }

  /** A cycle is skipped, or ends before its pass with the store as it was, or is its pass. */
  lemma CycleIs(r: Runner, t: Turn, file: File)
    ensures var z := Cycle(r, t, file).runner;
      || z == r
      || z == Restored(r, z.hook.calendar)
      || (z == Pass(r, t, file).runner && Pass(r, t, file).raised)
      || (!ShortCircuits(r, t, file) && !Pass(r, t, file).raised
          && z == Finished(Pass(r, t, file).runner, if t.exists0 then Some(file(t.atStat).mtime) else None))
  {
  }

  lemma PassIsSound(r: Runner, t: Turn, file: File)
    requires Chained(r.rows, r.prices)
    ensures var z, was := Pass(r, t, file).runner, LastState(r.rows).date;
      && z.done == r.done && z.finished == r.finished
      && Moved(was, LastState(z.rows).date, PendingDates(file(t.atDates), was))
  {
    var restored := Restored(r, file(t.atCalendar).dates);
    var dates := PendingDates(file(t.atDates), restored.prev.date);
    RestoredIsInStep(r, file(t.atCalendar).dates);
    PassKeepsRest(dates, Cycled(restored, 0, false), t);
    LastIsRun(dates, Cycled(restored, 0, false), t);
  }

  lemma CompletedPass(r: Runner, t: Turn, file: File, w: nat)
    requires Chained(r.rows, r.prices) && !Pass(r, t, file).raised && AllAscending(file) && MtimesTell(file)
    requires t.atStat <= t.atCalendar <= t.atDates <= w && file(w).mtime == file(t.atStat).mtime
    ensures AllHanded(Finished(Pass(r, t, file).runner, Some(file(t.atStat).mtime)), file(w))
  {
    RestoredIsInStep(r, file(t.atCalendar).dates);
    PassLeavesNothing(file(t.atCalendar), file(t.atDates), file(w),
                      Cycled(Restored(r, file(t.atCalendar).dates), 0, false), t);
  }

  lemma FailedPass(r: Runner, t: Turn, file: File, now: nat, w: nat)
    requires Chained(r.rows, r.prices) && NothingMissed(r, file, now) && AllAscending(file) && MtimesTell(file)
    requires now <= t.atDates <= w && r.done == Some(file(w).mtime)
    ensures AllHanded(Pass(r, t, file).runner, file(w))
  {
    var v: nat :| v <= now && file(v).mtime == r.done.value;
    PassIsSound(r, t, file);
    assert AllHanded(r, file(w));
    PendingShrinks(file(t.atDates), file(w), LastState(r.rows).date, LastState(Pass(r, t, file).runner.rows).date,
                   r.finished);
  }

  lemma LaterNothingMissed(r: Runner, z: Runner, file: File, now: nat, later: nat)
    requires NothingMissed(r, file, now) && now <= later
    requires z.done == r.done && z.rows == r.rows && z.finished == r.finished
    ensures NothingMissed(z, file, later)
  {
    forall w: nat | w >= later && r.done == Some(file(w).mtime)
      ensures AllHanded(z, file(w))
    {
      assert AllHanded(r, file(w));
    }
  }

  /** A cycle keeps it so, whatever fails in it and however the file is replaced between its reads, or first
      appears. */
  lemma CycleMissesNothing(r: Runner, t: Turn, file: File, now: nat)
    requires Chained(r.rows, r.prices) && NothingMissed(r, file, now)
    requires Ordered(t, now) && AllAscending(file) && MtimesTell(file)
    ensures NothingMissed(Cycle(r, t, file).runner, file, t.atDates)
  {
    var z, pass := Cycle(r, t, file).runner, Pass(r, t, file);
    CycleIs(r, t, file);
    PassIsSound(r, t, file);
    if z.rows == r.rows && z.done == r.done && z.finished == r.finished {
      LaterNothingMissed(r, z, file, now, t.atDates);
    } else if pass.raised {
      forall w: nat | w >= t.atDates && z.done == Some(file(w).mtime)
        ensures AllHanded(z, file(w))
      {
        FailedPass(r, t, file, now, w);
      }
    } else {
      forall w: nat | w >= t.atDates && z.done == Some(file(w).mtime)
        ensures AllHanded(z, file(w))
      {
        CompletedPass(r, t, file, w);
      }
    }
  }

  /** What a cycle comes to. It is skipped on the recorded mtime or while the facts are not ready; it stops at the step
      that fails; and if it completes it records the mtime it read first, or that there was no file. */
  lemma CycleRecords(r: Runner, t: Turn, file: File)
    ensures var z, skipped := Cycle(r, t, file), t.exists0 && r.done == Some(file(t.atStat).mtime);
      && (skipped ==> z == Cycled(r, 0, false))
      && (!skipped && t.failure == ReadingFacts ==> z == Cycled(r, 0, true))
      && (!skipped && t.failure != ReadingFacts && !t.ready ==> z == Cycled(r, 0, false))
      && (!skipped && t.ready && t.failure != NoFailure ==> z.raised && z.runner.rows == r.rows)
      && (z.raised ==> z.runner.done == r.done && z.runner.finished == r.finished)
      && (!skipped && t.ready && !z.raised ==>
            z.runner.done == if t.exists0 then Some(file(t.atStat).mtime) else None)
  {
    var restored := Restored(r, file(t.atCalendar).dates);
    PassKeepsRest(PendingDates(file(t.atDates), restored.prev.date), Cycled(restored, 0, false), t);
  }

  /** The last recorded formation, if there is one, is before `d`; if there is none, `d` is the latest of `dates`. */
  predicate IsDue(rows: seq<Row>, dates: seq<int>, d: int) {
    if rows != [] then d > rows[|rows| - 1].date else dates != [] && d == dates[|dates| - 1]
  }

  /** A cycle that completes executes exactly the dates of the file that are due and on the calendar, each from what
      its own read of the file showed. */
  lemma CycleExecutes(r: Runner, t: Turn, file: File, d: int)
    requires Ascending(file(t.atDates).dates)
    requires !(t.exists0 && r.done == Some(file(t.atStat).mtime)) && t.ready && t.failure == NoFailure
    ensures var z := Cycle(r, t, file);
      !z.raised ==>
        (d in z.runner.finished <==>
           d in file(t.atDates).dates && d in file(t.atCalendar).dates && IsDue(r.rows, file(t.atDates).dates, d))
  {
    var restored := Restored(r, file(t.atCalendar).dates);
    var was := restored.prev.date;
    var dates, c := PendingDates(file(t.atDates), was), Cycled(restored, 0, false);
    PendingAscends(file(t.atDates), was);
    forall e
      ensures e in dates <==> e in file(t.atDates).dates && IsDue(r.rows, file(t.atDates).dates, e)
    {
      PendingIs(file(t.atDates), was, e);
    }
    if d in RunDates(dates, c, t).runner.ran {
      OnlyDatesAreRun(dates, c, t, d);
      OnlyCalendarIsRun(dates, c, t, d);
    }
    if d in dates && d in restored.hook.calendar {
      DatesAreRun(dates, c, t, d);
    }
  }

  // ---- runs

  /** The cycles of a run read the file in order, each after the one before. */
  predicate Reads(es: seq<Event>, from: nat) {
    es == [] ||
    match es[0]
    case ACycle(t) => Ordered(t, from) && Reads(es[1..], t.atDates)
    case Restart => Reads(es[1..], from)
  }

  function LastRead(es: seq<Event>, from: nat): nat {
    if es == [] then from
    else LastRead(es[1..], if es[0].ACycle? then es[0].turn.atDates else from)
  }

  lemma {:induction false} RunMissesNothing(r: Runner, es: seq<Event>, file: File, now: nat)
    requires Chained(r.rows, r.prices) && NothingMissed(r, file, now) && Reads(es, now)
    requires AllAscending(file) && MtimesTell(file)
    ensures NothingMissed(Run(r, es, file), file, LastRead(es, now))
    decreases |es|
  {
    if es != [] {
      var z := Step(r, es[0], file);
      if es[0].ACycle? {
        CycleMissesNothing(r, es[0].turn, file, now);
        CycleKeepsChain(r, es[0].turn, file);
        RunMissesNothing(z, es[1..], file, es[0].turn.atDates);
      } else {
        RunMissesNothing(z, es[1..], file, now);
      }
    }
  }

  /** After the run `es` a cycle is skipped because the file's mtime is the recorded one, although a date is
      pending that was not executed in the cycle that recorded it. */
  ghost predicate Loses(prices: Returns, rows: seq<Row>, es: seq<Event>, t: Turn, file: File) {
    && Chained(rows, prices) && Reads(es, 0) && Ordered(t, LastRead(es, 0))
    && var r := Run(Started(prices, rows), es, file);
      ShortCircuits(r, t, file) && !AllHanded(r, file(t.atStat))
  }

  lemma SkippedMeansNothingPending(prices: Returns, rows: seq<Row>, es: seq<Event>, t: Turn, file: File)
    requires AllAscending(file) && MtimesTell(file)
    ensures !Loses(prices, rows, es, t, file)
  {
    if Chained(rows, prices) && Reads(es, 0) {
      RunMissesNothing(Started(prices, rows), es, file, 0);
    }
  }

  /** So no update is lost when every replacement changes the mtime. */
  lemma DistinctMtimesLoseNothing(prices: Returns, rows: seq<Row>, es: seq<Event>, t: Turn, file: File)
    requires AllAscending(file) && forall v: nat, w: nat :: v < w ==> file(v).mtime != file(w).mtime
    ensures !Loses(prices, rows, es, t, file)
  {
    assert MtimesTell(file);
    SkippedMeansNothingPending(prices, rows, es, t, file);
  }

  // ---- when an update is lost

  /** A turn that reads the file's mtime at `v` and everything else at `u`, and trades nothing. */
  function Quiet(v: nat, u: nat): Turn {
    Turn(true, v, true, u, u, map[], NoFailure)
  }

  lemma {:induction false} QuietPass(dates: seq<int>, c: Cycled, t: Turn)
    requires t.acts == map[] && !c.raised
    ensures var z := RunDates(dates, c, t); !z.raised && z.runner.rows == c.runner.rows
    decreases |dates|
  {
    if dates != [] {
      QuietPass(dates[1..], Counted(c, CallHook(c.runner, dates[0], NoMargin)), t);
    }
  }

  /** A quiet first cycle hands the hook nothing but what is pending in `u`. */
  lemma QuietCycle(prices: Returns, rows: seq<Row>, v: nat, u: nat, file: File)
    ensures var r := Run(Started(prices, rows), [ACycle(Quiet(v, u))], file);
      && r.done == Some(file(v).mtime) && r.rows == rows
      && Within(r.finished, PendingDates(file(u), LastState(rows).date))
  {
    var s, t := Started(prices, rows), Quiet(v, u);
    var restored := Restored(s, file(u).dates);
    var dates := PendingDates(file(u), restored.prev.date);
    QuietPass(dates, Cycled(restored, 0, false), t);
    var z := RunDates(dates, Cycled(restored, 0, false), t);
    assert [ACycle(t)][1..] == [];
    assert Run(s, [ACycle(t)], file) == Run(Step(s, ACycle(t), file), [], file);
    forall d | d in z.runner.ran
      ensures d in dates
    {
      OnlyDatesAreRun(dates, Cycled(restored, 0, false), t, d);
    }
  }

  function RecordedBefore(d: int): seq<Row> {
    [Row(d - 1, Basis(None, map[], map[]), (map[], map[]), map[], map[], 0.0, 0.0, 0.0)]
  }

  /** A version that repeats an mtime with something new loses it. */
  lemma StaleMtimeLoses(prices: Returns, file: File, v: nat, u: nat, w: nat) returns (rows: seq<Row>)
    requires v <= u <= w && file(v).mtime == file(w).mtime && !NothingNew(file(u), file(w))
    ensures Loses(prices, rows, [ACycle(Quiet(v, u))], Quiet(w, w), file)
  {
    var es := [ACycle(Quiet(v, u))];
    assert es[1..] == [];
    if Within(file(w).dates, file(u).dates) {
      rows := [];
      var d := Latest(file(w));
      assert d in file(w).dates;
      PendingIs(file(w), None, d);
      PendingIs(file(u), None, d);
    } else {
      var d :| d in file(w).dates && d !in file(u).dates;
      rows := RecordedBefore(d);
      assert rows[..0] == [];
      PendingIs(file(w), Some(d - 1), d);
      PendingIs(file(u), Some(d - 1), d);
    }
    QuietCycle(prices, rows, v, u, file);
  }

  /** No update is lost, in any run with any failures, restarts and replacements between reads, exactly when
      an mtime never comes back with something new. */
  lemma NoUpdateIsLost(prices: Returns, file: File)
    requires AllAscending(file)
    ensures (forall rows, es, t :: !Loses(prices, rows, es, t, file)) <==> MtimesTell(file)
  {
    if MtimesTell(file) {
      forall rows, es, t
        ensures !Loses(prices, rows, es, t, file)
      {
        SkippedMeansNothingPending(prices, rows, es, t, file);
      }
    } else {
      var v: nat, u: nat, w: nat :|
        v <= u <= w && file(v).mtime == file(w).mtime && !NothingNew(file(u), file(w));
      var rows := StaleMtimeLoses(prices, file, v, u, w);
    }
  }

  /** However a version was processed, a later one with its mtime and a new latest date is skipped, with a
      date pending that the processed version does not have and that was not executed. */
  lemma SharedMtimeLosesUpdate(r: Runner, t: Turn, file: File, second: Turn, d: int)
    requires Chained(r.rows, r.prices) && AllAscending(file) && !ShortCircuits(r, t, file)
    requires t.exists0 && t.ready && t.failure.NoFailure? && t.atStat == t.atCalendar == t.atDates
    requires !Cycle(r, t, file).raised
    requires second.exists0 && file(second.atStat).mtime == file(t.atStat).mtime
    requires d in file(second.atStat).dates && forall e :: e in file(t.atStat).dates ==> e < d
    requires LastState(r.rows).date.Some? ==> LastState(r.rows).date.value < d
    ensures var z := Cycle(r, t, file).runner;
      && ShortCircuits(z, second, file)
      && exists e :: && e in PendingDates(file(second.atStat), LastState(z.rows).date)
                     && e !in file(t.atStat).dates && e !in z.finished
  {
    var z, v, w := Cycle(r, t, file).runner, file(t.atStat), file(second.atStat);
    var was, last := LastState(r.rows).date, LastState(z.rows).date;
    PassIsSound(r, t, file);
    var e := if last.Some? then d else Latest(w);
    NoneAfterLatest(w, d);
    if last.Some? {
      PendingIs(v, was, last.value);
    }
    PendingIs(w, last, e);
    if e in z.finished {
      OnlyDatesAreRun(PendingDates(v, was), Cycled(Restored(r, v.dates), 0, false), t, e);
      PendingIs(v, was, e);
    }
  }
}
