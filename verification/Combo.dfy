/** The forward paper book: a retry-after-any-failure loop over a store that is the only truth. */
module Combo {
  import opened Orders

  type Holdings = map<string, real>

  /** What a row's P&L is computed from: the book held, and since when. */
  datatype Basis = Basis(date: Option<int>, longs: Holdings, shorts: Holdings)

  /** `book_returns`: the futures P&L of a book held from its date to another, off the price files. */
  type Returns = (Basis, int) -> real

  function Pnl(prices: Returns, basis: Basis, d: int): real {
    if basis.date.None? then 0.0 else prices(basis, d)
  }

  /** One recorded formation. `held` is the book its trades were taken from. */
  datatype Row = Row(date: int, basis: Basis, held: (Holdings, Holdings), longs: Holdings, shorts: Holdings,
                     costs: real, net: real, cum: real)

  // ---- the store: rows in date order

  function Before(rows: seq<Row>, d: int): seq<Row> {
    if rows == [] then []
    else if rows[0].date < d then [rows[0]] + Before(rows[1..], d)
    else Before(rows[1..], d)
  }

  function Later(rows: seq<Row>, d: int): seq<Row> {
    if rows == [] then []
    else if rows[0].date > d then [rows[0]] + Later(rows[1..], d)
    else Later(rows[1..], d)
  }

  function LastCum(rows: seq<Row>): real {
    if rows == [] then 0.0 else rows[|rows| - 1].cum
  }

  /** `row` in place of any other of its date. */
  function Replacing(rows: seq<Row>, row: Row): seq<Row> {
    Before(rows, row.date) + [row] + Later(rows, row.date)
  }

  /** `record`: replaces the date's row, carrying the cumulative P&L of the latest earlier one. */
  function Record(rows: seq<Row>, d: int, basis: Basis, held: (Holdings, Holdings), longs: Holdings,
                  shorts: Holdings, costs: real, net: real): seq<Row> {
    Replacing(rows, Row(d, basis, held, longs, shorts, costs, net, LastCum(Before(rows, d)) + net))
  }

  /** `last_state`, as the basis of the next row. */
  function LastState(rows: seq<Row>): Basis {
    if rows == [] then Basis(None, map[], map[])
    else
      var r := rows[|rows| - 1];
      Basis(Some(r.date), r.longs, r.shorts)
  }

  // ---- the facts file

  /** One version of the facts file: its mtime and its formation dates, ascending. */
  datatype Version = Version(mtime: int, dates: seq<int>)

  function Newer(dates: seq<int>, after: int): seq<int> {
    if dates == [] then []
    else if dates[0] > after then [dates[0]] + Newer(dates[1..], after)
    else Newer(dates[1..], after)
  }

  /** `pending_dates`: all after the last recorded date; only the latest on a first start. */
  function PendingDates(v: Version, after: Option<int>): seq<int> {
    match after
    case Some(a) => Newer(v.dates, a)
    case None => if v.dates == [] then [] else [v.dates[|v.dates| - 1]]
  }

  // ---- the hook

  datatype SinkEnd = Stored | FailsUnstored | FailsStored

  /** What executing one date does: skip it for want of margin, fail before the sink, or rebalance to a
      new book at some cost and reach the sink, which may fail either side of the commit. */
  datatype Act = NoMargin | Breaks | Trades(longs: Holdings, shorts: Holdings, costs: real, sink: SinkEnd)

  datatype Hook = Hook(calendar: seq<int>, last: Option<int>, longs: Holdings, shorts: Holdings)

  /** The runner, its store and the price files, which do not change. `done` is the facts mtime of the last
      completed cycle. `ran` lists the dates the hook executed since it was last restored, and `finished`
      those it executed in the cycle that set `done`. */
  datatype Runner = Runner(prices: Returns, rows: seq<Row>, prev: Basis, done: Option<int>, hook: Hook, ran: seq<int>,
                           finished: seq<int>)

  function Started(prices: Returns, rows: seq<Row>): Runner {
    Runner(prices, rows, Basis(None, map[], map[]), None, Hook([], None, map[], map[]), [], [])
  }

  datatype Call = Call(runner: Runner, traded: bool, raised: bool)

  predicate Skips(h: Hook, d: int) {
    d !in h.calendar || (h.last.Some? && d <= h.last.value)
  }

  /** `CarryRebalancerHook.__call__` with `ComboRunner._sink` as its sink. */
  function CallHook(r: Runner, d: int, act: Act): Call {
    if Skips(r.hook, d) then Call(r, false, false)
    else
      var r1 := r.(hook := r.hook.(last := Some(d)), ran := r.ran + [d]);
      match act
      case NoMargin => Call(r1, true, false)
      case Breaks => Call(r1, true, true)
      case Trades(longs, shorts, costs, sink) =>
        var held := (r.hook.longs, r.hook.shorts);
        var r2 := r1.(hook := r1.hook.(longs := longs, shorts := shorts));
        if sink.FailsUnstored? then Call(r2, true, true)
        else
          var net := Pnl(r.prices, r2.prev, d) - costs;
          var r3 := r2.(rows := Record(r2.rows, d, r2.prev, held, longs, shorts, costs, net));
          if sink.FailsStored? then Call(r3, true, true)
          else Call(r3.(prev := Basis(Some(d), longs, shorts)), true, false)
  }

  // ---- a cycle

  /** Where a cycle fails, if it does before its first date. */
  datatype Failure = NoFailure | ReadingFacts | ReadingState | ReadingCalendar | ReadingDates | WritingMeta

  /** What one cycle meets: the version of the file at each of its four reads, whether it exists and is
      ready, what each date's execution does, and where the cycle fails. */
  datatype Turn = Turn(exists0: bool, atStat: nat, ready: bool, atCalendar: nat, atDates: nat,
                       acts: map<int, Act>, failure: Failure)

  function ActOn(t: Turn, d: int): Act {
    if d in t.acts then t.acts[d] else NoMargin
  }

  datatype Cycled = Cycled(runner: Runner, count: nat, raised: bool)

  function RunDates(dates: seq<int>, c: Cycled, t: Turn): Cycled {
    if dates == [] || c.raised then c
    else
      var call := CallHook(c.runner, dates[0], ActOn(t, dates[0]));
      RunDates(dates[1..], Counted(c, call), t)
  }

  function Counted(c: Cycled, call: Call): Cycled {
    Cycled(call.runner, if call.traded && !call.raised then c.count + 1 else c.count, call.raised)
  }

  /** A file's successive versions. */
  type File = nat -> Version

  predicate ShortCircuits(r: Runner, t: Turn, file: File) {
    t.exists0 && r.done == Some(file(t.atStat).mtime)
  }

  /** The hook restored from the store, with the calendar read afresh. */
  function Restored(r: Runner, calendar: seq<int>): Runner {
    var last := LastState(r.rows);
    r.(prev := last, hook := Hook(calendar, last.date, last.longs, last.shorts), ran := [])
  }

  function Cycle(r: Runner, t: Turn, file: File): Cycled {
    if ShortCircuits(r, t, file) then Cycled(r, 0, false)
    else if t.failure.ReadingFacts? then Cycled(r, 0, true)
    else if !t.ready then Cycled(r, 0, false)
    else if t.failure.ReadingState? then Cycled(r, 0, true)
    else
      var restored := Restored(r, if t.failure.ReadingCalendar? then r.hook.calendar else file(t.atCalendar).dates);
      if t.failure != NoFailure then Cycled(restored, 0, true)
      else
        var c := RunDates(PendingDates(file(t.atDates), restored.prev.date), Cycled(restored, 0, false), t);
        if c.raised then c
        else c.(runner := Finished(c.runner, if t.exists0 then Some(file(t.atStat).mtime) else None))
  }

  function Finished(r: Runner, mtime: Option<int>): Runner {
    r.(done := mtime, finished := r.ran)
  }

  /** The runner as the source has it. */
  class ComboRunner {
    const prices: Returns
    var rows: seq<Row>
    var prev: Basis
    var done: Option<int>
    var hook: Hook
    ghost var ran: seq<int>
    ghost var finished: seq<int>

    ghost function Model(): Runner
      reads this
    {
      Runner(prices, rows, prev, done, hook, ran, finished)
    }

    constructor (prices: Returns, rows: seq<Row>)
      ensures Model() == Started(prices, rows)
    {
      this.prices, this.rows := prices, rows;
      prev, done, hook := Basis(None, map[], map[]), None, Hook([], None, map[], map[]);
      ran, finished := [], [];
    }

    /** `_sink`: P&L from the previous book, less costs, then one atomic write, then the new previous book. */
    method Sink(d: int, held: (Holdings, Holdings), longs: Holdings, shorts: Holdings, costs: real, sink: SinkEnd)
      returns (raised: bool)
      modifies this`rows, this`prev
      ensures raised <==> sink != Stored
      ensures rows == if sink.FailsUnstored? then old(rows)
                      else Record(old(rows), d, old(prev), held, longs, shorts, costs,
                                  Pnl(prices, old(prev), d) - costs)
      ensures prev == if sink.Stored? then Basis(Some(d), longs, shorts) else old(prev)
    {
      if sink.FailsUnstored? {
        return true;
      }
      var pnl := 0.0;
      if prev.date.Some? {
        pnl := prices(prev, d);
      }
      rows := Record(rows, d, prev, held, longs, shorts, costs, pnl - costs);
      if sink.FailsStored? {
        return true;
      }
      prev := Basis(Some(d), longs, shorts);
      return false;
    }

    method Execute(d: int, act: Act) returns (traded: bool, raised: bool)
      modifies this
      ensures CallHook(old(Model()), d, act) == Call(Model(), traded, raised)
    {
      if Skips(hook, d) {
        return false, false;
      }
      hook := hook.(last := Some(d));
      ran := ran + [d];
      traded, raised := true, false;
      match act {
        case NoMargin =>
        case Breaks => raised := true;
        case Trades(longs, shorts, costs, sink) =>
          var held := (hook.longs, hook.shorts);
          hook := hook.(longs := longs, shorts := shorts);
          raised := Sink(d, held, longs, shorts, costs, sink);
      }
    }

    /** The loop of `cycle` over its dates. */
    method RunPending(dates: seq<int>, t: Turn) returns (count: nat, raised: bool)
      modifies this
      ensures RunDates(dates, Cycled(old(Model()), 0, false), t) == Cycled(Model(), count, raised)
      ensures done == old(done)
    {
      count, raised := 0, false;
      var i := 0;
      while i < |dates| && !raised
        invariant 0 <= i <= |dates|
        invariant done == old(done)
        invariant RunDates(dates[i..], Cycled(Model(), count, raised), t)
               == RunDates(dates, Cycled(old(Model()), 0, false), t)
      {
        assert dates[i..][0] == dates[i] && dates[i..][1..] == dates[i + 1..];
        var traded;
        traded, raised := Execute(dates[i], ActOn(t, dates[i]));
        if traded && !raised {
          count := count + 1;
        }
        i := i + 1;
      }
    }

    /** `cycle`; `raised` stands for the exception that leaves it. */
    method RunCycle(t: Turn, file: File) returns (count: nat, raised: bool)
      modifies this
      ensures Cycle(old(Model()), t, file) == Cycled(Model(), count, raised)
    {
      count, raised := 0, false;
      var mtime := if t.exists0 then Some(file(t.atStat).mtime) else None;
      if mtime.Some? && mtime == done {
        return;
      }
      if t.failure.ReadingFacts? {
        return 0, true;
      }
      if !t.ready {
        return;
      }
      if t.failure.ReadingState? {
        return 0, true;
      }
      prev := LastState(rows);
      hook := Hook(hook.calendar, prev.date, prev.longs, prev.shorts);
      ran := [];
      if t.failure.ReadingCalendar? {
        return 0, true;
      }
      hook := hook.(calendar := file(t.atCalendar).dates);
      if t.failure != NoFailure {
        return 0, true;
      }
      count, raised := RunPending(PendingDates(file(t.atDates), prev.date), t);
      if !raised {
        done := mtime;
        finished := ran;
      }
    }
  }

  // ---- chain integrity

  function Nets(rows: seq<Row>): seq<real> {
    seq(|rows|, i requires 0 <= i < |rows| => rows[i].net)
  }

  /** `row` carries on from `earlier`: its date is later, its P&L is that of exactly the book the last of
      them recorded from that date on, less costs, its trades start from that book, and its cumulative P&L adds
      its own to theirs. */
  predicate Follows(earlier: seq<Row>, row: Row, prices: Returns) {
    && (earlier != [] ==> earlier[|earlier| - 1].date < row.date)
    && row.basis == LastState(earlier)
    && row.net == Pnl(prices, row.basis, row.date) - row.costs
    && row.held == (row.basis.longs, row.basis.shorts)
    && row.cum == LastCum(earlier) + row.net
  }

  predicate Chained(rows: seq<Row>, prices: Returns) {
    rows == []
    || (Chained(rows[..|rows| - 1], prices) && Follows(rows[..|rows| - 1], rows[|rows| - 1], prices))
  }

  lemma {:induction false} AllBefore(rows: seq<Row>, d: int)
    requires forall i :: 0 <= i < |rows| ==> rows[i].date < d
    ensures Before(rows, d) == rows && Later(rows, d) == []
  {
    if rows != [] {
      assert rows == [rows[0]] + rows[1..];
      AllBefore(rows[1..], d);
    }
  }

  lemma {:induction false} DatesRise(rows: seq<Row>, prices: Returns, i: nat)
    requires Chained(rows, prices) && i < |rows|
    ensures rows[i].date <= rows[|rows| - 1].date
    decreases |rows|
  {
    if i < |rows| - 1 {
      DatesRise(rows[..|rows| - 1], prices, i);
    }
  }

  /** Every row but the first starts from the one before it: its P&L is that of exactly that row's book since
      that row's date, less its own costs. */
  lemma {:induction false} RowsFollow(rows: seq<Row>, prices: Returns, i: nat)
    requires Chained(rows, prices) && i < |rows|
    ensures rows[i].basis == (if i == 0 then Basis(None, map[], map[])
                              else Basis(Some(rows[i - 1].date), rows[i - 1].longs, rows[i - 1].shorts))
    ensures rows[i].net == (if i == 0 then 0.0 else prices(rows[i].basis, rows[i].date)) - rows[i].costs
    ensures rows[i].held == (rows[i].basis.longs, rows[i].basis.shorts)
    ensures i > 0 ==> rows[i - 1].date < rows[i].date
    decreases |rows|
  {
    if i < |rows| - 1 {
      RowsFollow(rows[..|rows| - 1], prices, i);
    }
  }

  lemma ChainAppends(rows: seq<Row>, prices: Returns, row: Row)
    requires Chained(rows, prices) && Follows(rows, row, prices)
    ensures Chained(rows + [row], prices) && rows <= rows + [row]
  {
    assert (rows + [row])[..|rows|] == rows;
  }

  /** Storing a later date's row appends it. */
  lemma ReplacingAppends(rows: seq<Row>, prices: Returns, row: Row)
    requires Chained(rows, prices) && (rows != [] ==> row.date > rows[|rows| - 1].date)
    ensures Before(rows, row.date) == rows && Replacing(rows, row) == rows + [row]
  {
    ChainIsBefore(rows, prices, row.date);
    NothingAfter(rows + [row]);
  }

  lemma ChainIsBefore(rows: seq<Row>, prices: Returns, d: int)
    requires Chained(rows, prices) && (rows != [] ==> d > rows[|rows| - 1].date)
    ensures Before(rows, d) == rows && Later(rows, d) == []
  {
    forall i | 0 <= i < |rows|
      ensures rows[i].date < d
    {
      DatesRise(rows, prices, i);
    }
    AllBefore(rows, d);
  }

  /** Recording a later date's row appends it, its cumulative P&L carried from the last row. */
  lemma RecordAppends(rows: seq<Row>, prices: Returns, row: Row)
    requires Chained(rows, prices) && (rows != [] ==> row.date > rows[|rows| - 1].date)
    requires row.cum == LastCum(rows) + row.net
    ensures Record(rows, row.date, row.basis, row.held, row.longs, row.shorts, row.costs, row.net) == rows + [row]
  {
    ReplacingAppends(rows, prices, row);
    RecordReplaces(rows, row);
  }

  lemma RecordReplaces(rows: seq<Row>, row: Row)
    requires row.cum == LastCum(Before(rows, row.date)) + row.net
    ensures Record(rows, row.date, row.basis, row.held, row.longs, row.shorts, row.costs, row.net)
            == Replacing(rows, row)
  {
  }

  /** It extends the chain when it starts from the last row's book. */
  lemma RecordingExtends(rows: seq<Row>, prices: Returns, d: int, longs: Holdings, shorts: Holdings, costs: real)
    requires Chained(rows, prices) && (rows != [] ==> d > rows[|rows| - 1].date)
    ensures var b := LastState(rows);
      var all := Record(rows, d, b, (b.longs, b.shorts), longs, shorts, costs, Pnl(prices, b, d) - costs);
      Chained(all, prices) && rows <= all && LastState(all) == Basis(Some(d), longs, shorts)
  {
    var b := LastState(rows);
    var net := Pnl(prices, b, d) - costs;
    var row := Row(d, b, (b.longs, b.shorts), longs, shorts, costs, net, LastCum(rows) + net);
    RecordAppends(rows, prices, row);
    ChainAppends(rows, prices, row);
  }

  lemma NothingAfter<T>(s: seq<T>)
    ensures s + [] == s
  {
  }

  /** Between two dates of a cycle: the runner starts from the last recorded book, and the hook from the
      same one, no earlier in time. */
  ghost predicate InStep(r: Runner) {
    && Chained(r.rows, r.prices)
    && r.prev == LastState(r.rows)
    && r.hook.longs == r.prev.longs && r.hook.shorts == r.prev.shorts
    && (r.prev.date.Some? ==> r.hook.last.Some? && r.prev.date.value <= r.hook.last.value)
  }

  /** `z` has come from `r`: same price files, and the chain only longer. */
  ghost predicate Extends(r: Runner, z: Runner) {
    z.prices == r.prices && Chained(z.rows, z.prices) && r.rows <= z.rows
  }

  lemma ExtendsTwice(r: Runner, y: Runner, z: Runner)
    requires Extends(r, y) && Extends(y, z)
    ensures Extends(r, z)
  {
  }

  /** One date keeps the chain wherever it fails, and keeps the runner in step unless it fails. */
  lemma CallKeepsChain(r: Runner, d: int, act: Act)
    requires InStep(r)
    ensures var c := CallHook(r, d, act);
      Extends(r, c.runner) && (!c.raised ==> InStep(c.runner))
  {
    if !Skips(r.hook, d) && act.Trades? {
      RecordingExtends(r.rows, r.prices, d, act.longs, act.shorts, act.costs);
    }
  }

  lemma {:induction false} DatesKeepChain(dates: seq<int>, c: Cycled, t: Turn)
    requires !c.raised ==> InStep(c.runner)
    requires Chained(c.runner.rows, c.runner.prices)
    ensures Extends(c.runner, RunDates(dates, c, t).runner)
    decreases |dates|
  {
    if dates != [] && !c.raised {
      var call := CallHook(c.runner, dates[0], ActOn(t, dates[0]));
      CallKeepsChain(c.runner, dates[0], ActOn(t, dates[0]));
      DatesKeepChain(dates[1..], Counted(c, call), t);
      ExtendsTwice(c.runner, call.runner, RunDates(dates[1..], Counted(c, call), t).runner);
    }
  }

  lemma RestoredIsInStep(r: Runner, calendar: seq<int>)
    requires Chained(r.rows, r.prices)
    ensures InStep(Restored(r, calendar))
  {
  }

  /** A cycle only ever appends to the chain, wherever it fails. */
  lemma CycleKeepsChain(r: Runner, t: Turn, file: File)
    requires Chained(r.rows, r.prices)
    ensures Extends(r, Cycle(r, t, file).runner)
  {
    if !ShortCircuits(r, t, file) && t.ready && t.failure.NoFailure? {
      var restored := Restored(r, file(t.atCalendar).dates);
      RestoredIsInStep(r, file(t.atCalendar).dates);
      DatesKeepChain(PendingDates(file(t.atDates), restored.prev.date), Cycled(restored, 0, false), t);
    }
  }

  // ---- runs: cycles, and restarts of the process

  datatype Event = ACycle(turn: Turn) | Restart

  function Step(r: Runner, e: Event, file: File): Runner {
    match e
    case ACycle(t) => Cycle(r, t, file).runner
    case Restart => Started(r.prices, r.rows)
  }

  function Run(r: Runner, es: seq<Event>, file: File): Runner
    decreases |es|
  {
    if es == [] then r else Run(Step(r, es[0], file), es[1..], file)
  }

  /** Chain integrity over any run, whatever failed where and however often the process restarted. */
  lemma {:induction false} BookChainHolds(r: Runner, es: seq<Event>, file: File)
    requires Chained(r.rows, r.prices)
    ensures Extends(r, Run(r, es, file))
    decreases |es|
  {
    if es != [] {
      var z := Step(r, es[0], file);
      if es[0].ACycle? {
        CycleKeepsChain(r, es[0].turn, file);
      }
      BookChainHolds(z, es[1..], file);
      ExtendsTwice(r, z, Run(z, es[1..], file));
    }
  }

  lemma NetsOfPrefix(rows: seq<Row>)
    requires rows != []
    ensures var n := |rows| - 1;
      Nets(rows)[..n] == Nets(rows[..n]) && Nets(rows)[n] == rows[n].net
  {
  }

  /** The cumulative P&L of a chain's last row is the sum of every row's own. */
  lemma {:induction false} CumIsSum(rows: seq<Row>, prices: Returns)
    requires Chained(rows, prices)
    ensures LastCum(rows) == Sum(Nets(rows))
    decreases |rows|
  {
    if rows != [] {
      var n := |rows| - 1;
      NetsOfPrefix(rows);
      CumIsSum(rows[..n], prices);
    }
  }

  // ---- the store and the count, in general

  lemma {:induction false} BeforeAndLater(rows: seq<Row>, d: int, r: Row)
    ensures r in Before(rows, d) <==> r in rows && r.date < d
    ensures r in Later(rows, d) <==> r in rows && r.date > d
  {
    if rows != [] {
      assert rows == [rows[0]] + rows[1..];
      BeforeAndLater(rows[1..], d, r);
    }
  }

  /** Recording a date replaces its row and leaves every other one. */
  lemma RecordingReplaces(rows: seq<Row>, row: Row, r: Row)
    requires row.cum == LastCum(Before(rows, row.date)) + row.net
    ensures r in Record(rows, row.date, row.basis, row.held, row.longs, row.shorts, row.costs, row.net) <==>
            r == row || (r in rows && r.date != row.date)
  {
    BeforeAndLater(rows, row.date, r);
  }

  /** What executing one date leaves. A date off the calendar, or not after the last one executed, changes nothing. Any
      other is the last executed from then on, even if it fails; the hook holds the new book as soon as it has traded,
      and the book the next row starts from moves only if the sink succeeds. */
  lemma CallMeans(r: Runner, d: int, act: Act)
    ensures var z, h := CallHook(r, d, act), r.hook;
      && (d !in h.calendar || (h.last.Some? && d <= h.last.value) ==> z == Call(r, false, false))
      && (d in h.calendar && (h.last.Some? ==> d > h.last.value) ==>
            && z.traded && z.runner.hook.last == Some(d) && z.runner.ran == r.ran + [d]
            && (z.raised <==> act.Breaks? || (act.Trades? && act.sink != Stored))
            && (z.runner.hook.longs, z.runner.hook.shorts)
               == (if act.Trades? then (act.longs, act.shorts) else (h.longs, h.shorts))
            && z.runner.prev
               == (if act.Trades? && act.sink == Stored then Basis(Some(d), act.longs, act.shorts) else r.prev)
            && (!act.Trades? || act.sink == FailsUnstored ==> z.runner.rows == r.rows)
            && (act.Trades? && act.sink != FailsUnstored ==>
                  exists row :: row in z.runner.rows && Priced(r, d, act, row)))
  {
    if !Skips(r.hook, d) && act.Trades? && act.sink != FailsUnstored {
      var net := Pnl(r.prices, r.prev, d) - act.costs;
      var row := Row(d, r.prev, (r.hook.longs, r.hook.shorts), act.longs, act.shorts, act.costs, net,
                     LastCum(Before(r.rows, d)) + net);
      RecordingReplaces(r.rows, row, row);
      assert Priced(r, d, act, row);
    }
  }

  /** The row of a date: the price files' P&L of the book held since its own date, nothing if there is none, less the
      costs of trading from the hook's book to the new one. */
  predicate Priced(r: Runner, d: int, act: Act, row: Row)
    requires act.Trades?
  {
    && row.date == d && row.basis == r.prev && row.held == (r.hook.longs, r.hook.shorts)
    && row.longs == act.longs && row.shorts == act.shorts && row.costs == act.costs
    && row.net == (if r.prev.date == None then 0.0 else r.prices(r.prev, d)) - act.costs
  }

  lemma {:induction false} CountGrows(dates: seq<int>, c: Cycled, t: Turn)
    ensures var z := RunDates(dates, c, t);
      !c.raised ==> z.count - c.count + (if z.raised then 1 else 0) == |z.runner.ran| - |c.runner.ran|
    decreases |dates|
  {
    if dates != [] && !c.raised {
      CountGrows(dates[1..], Counted(c, CallHook(c.runner, dates[0], ActOn(t, dates[0]))), t);
    }
  }

  /** A cycle that runs its dates counts exactly those its hook executed, except the one that failed if one did. */
  lemma CycleCounts(r: Runner, t: Turn, file: File)
    requires !ShortCircuits(r, t, file) && t.ready && t.failure.NoFailure?
    ensures var z := Cycle(r, t, file);
      && (!z.raised ==> z.count == |z.runner.finished|)
      && (z.raised ==> z.count + 1 == |z.runner.ran|)
  {
    var restored := Restored(r, file(t.atCalendar).dates);
    CountGrows(PendingDates(file(t.atDates), restored.prev.date), Cycled(restored, 0, false), t);
  }
}
