/** What a restart reads back: the stored orders and fills, replayed, show exactly the ledger's open orders. */
module Replay {
  import opened InsertionDict
  import opened Orders
  import opened FillPoll
  import opened SweepLaws
  import opened PollLaws
  import opened World
  import opened WorldSteps
  import opened Restart
  import opened Runs
  import opened Booking
  import opened FnoRunner

  // ---- replaying the tables

  ghost predicate AllPositive(fills: seq<Fill>) {
    forall i :: 0 <= i < |fills| ==> fills[i].quantity > 0
  }

  /** The row of an order placed `today`, from the stored fills and the orders recorded as ended. */
  ghost predicate Restored(r: Row, o: Order, fills: seq<Fill>, ended: set<Cid>, today: int) {
    && r.order == o && r.placed == today
    && r.filled == Qty(fills, o.cid) && Value(r.filled, r.average) == Notional(fills, o.cid)
    && r.status == if o.cid in ended && !StatusAt(r.filled, o).AllFilled? then Ended else StatusAt(r.filled, o)
  }

  ghost predicate AllRestored(rows: seq<Row>, orders: seq<Order>, fills: seq<Fill>, ended: set<Cid>, today: int) {
    |rows| == |orders| && forall i :: 0 <= i < |rows| ==> Restored(rows[i], orders[i], fills, ended, today)
  }

  /** `_replay_state` on the order side, order by order. */
  method RestoreRows(orders: seq<Order>, fills: seq<Fill>, ended: set<Cid>, today: int) returns (rows: seq<Row>)
    requires AllPositive(fills)
    ensures AllRestored(rows, orders, fills, ended, today)
  {
    rows := [];
    var i := 0;
    while i < |orders|
      invariant 0 <= i <= |orders|
      invariant AllRestored(rows, orders[..i], fills, ended, today)
    {
      var row := RestoreRow(orders[i], fills, ended, today);
      rows := rows + [row];
      i := i + 1;
    }
    assert orders[..|orders|] == orders;
  }

  method RestoreRow(o: Order, fills: seq<Fill>, ended: set<Cid>, today: int) returns (row: Row)
    requires AllPositive(fills)
    ensures Restored(row, o, fills, ended, today)
  {
    var state := new OrderState(o);
    state.Replay(fills);
    if o.cid in ended {
      state.MarkEnded();
    }
    row := Row(o, today, state.status, state.filledQuantity, state.averagePrice);
  }

  // ---- what the open rows are

  lemma {:induction false} OpenIff(rows: seq<Row>, today: int, h: Held)
    ensures h in OpenRows(rows, today) <==>
            exists i :: 0 <= i < |rows| && IsOpen(rows[i], today) && HeldIn(rows[i]) == h
  {
    if rows != [] {
      OpenIff(rows[1..], today, h);
      assert forall i :: 0 <= i < |rows[1..]| ==> rows[1..][i] == rows[i + 1];
      if i :| 0 <= i < |rows[1..]| && IsOpen(rows[1..][i], today) && HeldIn(rows[1..][i]) == h {
        assert IsOpen(rows[i + 1], today) && HeldIn(rows[i + 1]) == h;
      }
      assert forall i :: 0 < i < |rows| ==> rows[i] == rows[1..][i - 1];
    }
  }

  /** The open rows are exactly today's that have been created or partially filled, as the tracker holds them. */
  lemma OpenMeans(rows: seq<Row>, today: int, h: Held)
    ensures h in OpenRows(rows, today) <==> exists i :: 0 <= i < |rows| && WorkingToday(rows[i], today, h)
  {
    OpenIff(rows, today, h);
    assert forall i :: 0 <= i < |rows| ==>
      (WorkingToday(rows[i], today, h) <==> IsOpen(rows[i], today) && HeldIn(rows[i]) == h);
  }

  predicate WorkingToday(r: Row, today: int, h: Held) {
    && r.placed == today && (r.status == Created || r.status == PartiallyFilled)
    && h.order == r.order && h.filled == r.filled && h.average == r.average
  }

  ghost predicate RowsDiffer(rows: seq<Row>) {
    forall i, j :: 0 <= i < j < |rows| ==> rows[i].order != rows[j].order
  }

  lemma {:induction false} OpenAreDistinct(rows: seq<Row>, today: int)
    requires RowsDiffer(rows)
    ensures Distinct(OpenRows(rows, today))
  {
    if rows != [] {
      var rest := OpenRows(rows[1..], today);
      assert forall i :: 0 <= i < |rows[1..]| ==> rows[1..][i] == rows[i + 1];
      OpenAreDistinct(rows[1..], today);
      forall k | 0 <= k < |rest|
        ensures rest[k].order != rows[0].order
      {
        OpenIff(rows[1..], today, rest[k]);
        assert rest[k] in rest;
      }
      DistinctPrepends(HeldIn(rows[0]), rest);
    }
  }

  lemma DistinctPrepends(h: Held, rest: seq<Held>)
    requires Distinct(rest) && forall k :: 0 <= k < |rest| ==> rest[k].order != h.order
    ensures Distinct([h] + rest)
  {
    forall i, j | 0 <= i < j < |[h] + rest|
      ensures ([h] + rest)[i].order != ([h] + rest)[j].order
    {
      assert ([h] + rest)[j] == rest[j - 1];
    }
  }

  // ---- the ledger a restart sees

  /** The table's totals are those of `fills`. */
  ghost predicate TotalsOf(l: Ledger, fills: seq<Fill>) {
    forall c :: QtyIn(l, c) == Qty(fills, c) && ValueIn(l, c) == Notional(fills, c)
  }

  /** The stored orders are the day's, once each, and `ended` those recorded as closed. */
  ghost predicate Registers(w: World, orders: seq<Order>, ended: set<Cid>) {
    && (forall o :: o in w.orders <==> o in orders)
    && (forall i, j :: 0 <= i < j < |orders| ==> orders[i] != orders[j])
    && forall o :: o in w.orders ==> (o in w.closed <==> o.cid in ended)
  }

  lemma OpenRowIsOpen(r: Row, o: Order, fills: seq<Fill>, ended: set<Cid>, today: int, l: Ledger, w: World)
    requires Restored(r, o, fills, ended, today) && TotalsOf(l, fills)
    requires o in w.orders && o.quantity > 0 && (o in w.closed <==> o.cid in ended)
    ensures IsOpen(r, today) <==> StillOpen(l, w, o)
    ensures Agrees(l, o.cid, r.filled, r.average)
  {
    assert QtyIn(l, o.cid) == Qty(fills, o.cid);
  }

  /** The open rows of the replay are exactly the orders the ledger shows working, each once, with the quantity
      and the value the ledger holds. */
  lemma ReplayShowsLedger(rows: seq<Row>, orders: seq<Order>, fills: seq<Fill>, ended: set<Cid>, today: int,
                          l: Ledger, w: World)
    requires AllRestored(rows, orders, fills, ended, today) && Registers(w, orders, ended)
    requires TotalsOf(l, fills) && Honest(w)
    ensures LedgerShows(l, w, OpenRows(rows, today))
  {
    var open := OpenRows(rows, today);
    forall i, j | 0 <= i < j < |rows|
      ensures rows[i].order != rows[j].order
    {
      assert Restored(rows[i], orders[i], fills, ended, today) && Restored(rows[j], orders[j], fills, ended, today);
    }
    OpenAreDistinct(rows, today);
    forall k | 0 <= k < |open|
      ensures StillOpen(l, w, open[k].order) && Agrees(l, open[k].order.cid, open[k].filled, open[k].average)
    {
      OpenIff(rows, today, open[k]);
      var i :| 0 <= i < |rows| && IsOpen(rows[i], today) && HeldIn(rows[i]) == open[k];
      OpenRowIsOpen(rows[i], orders[i], fills, ended, today, l, w);
    }
    forall o | StillOpen(l, w, o)
      ensures exists k :: 0 <= k < |open| && open[k].order == o
    {
      var i :| 0 <= i < |orders| && orders[i] == o;
      OpenRowIsOpen(rows[i], orders[i], fills, ended, today, l, w);
      OpenIff(rows, today, HeldIn(rows[i]));
      var k :| 0 <= k < |open| && open[k] == HeldIn(rows[i]);
    }
  }

  // ---- in any run

  lemma {:induction false} InOrderArePositive(ids: seq<BrokerId>, p: Pending, fills: seq<Fill>)
    requires InOrder(ids, p, fills)
    ensures forall i :: 0 <= i < |fills| ==> fills[i].quantity > 0
    decreases |ids|
  {
    if fills != [] {
      if InOrder(ids[1..], p, fills) {
        InOrderArePositive(ids[1..], p, fills);
      } else {
        InOrderArePositive(ids[1..], p, fills[1..]);
        assert forall i :: 0 < i < |fills| ==> fills[i] == fills[1..][i - 1];
      }
    }
  }

  lemma PollFillsArePositive(s: State, env: Env)
    ensures AllPositive(PollFills(s, env).fills)
  {
    var p := Start(s, env);
    if !LookUp(s, env).denied {
      PollIsReading(s, env);
      KeysHaveValues(p);
      SweepFillIds(p.keys, p, env);
      InOrderArePositive(p.keys, p, PollFills(s, env).fills);
    }
  }

  /** Every fill ever handed over can be replayed. */
  lemma {:induction false} ReceivedArePositive(y: System, run: seq<Event>)
    requires Possible(y, run)
    ensures AllPositive(Received(y, run))
    decreases |run|
  {
    if run != [] {
      match run[0] {
        case PollOnce(env, _) => PollFillsArePositive(y.state, env);
        case CrashAndRestart(env, _, _, _, _) => PollFillsArePositive(y.state, env);
        case _ =>
      }
      ReceivedArePositive(Next(y, run[0]), run[1..]);
    }
  }

  /** What the fills table holds when a process dies after `k` fills of a poll. */
  ghost function StoredAt(run: seq<Event>, env: Env, k: nat): seq<Fill>
    requires Possible(DAY_START, run) && k <= |PollFills(After(DAY_START, run).state, env).fills|
  {
    Received(DAY_START, run) + PollFills(After(DAY_START, run).state, env).fills[..k]
  }

  lemma StoredArePositive(run: seq<Event>, env: Env, k: nat)
    requires Possible(DAY_START, run) && k <= |PollFills(After(DAY_START, run).state, env).fills|
    ensures AllPositive(StoredAt(run, env, k))
  {
    ReceivedArePositive(DAY_START, run);
    PollFillsArePositive(After(DAY_START, run).state, env);
  }

  lemma FreshFillsAdd(l: Ledger, before: seq<Fill>, now: seq<Fill>)
    requires TotalsOf(l, before) && FreshFills(l, now)
    ensures TotalsOf(Post(l, now), before + now)
  {
    forall c
      ensures QtyIn(Post(l, now), c) == Qty(before + now, c) && ValueIn(Post(l, now), c) == Notional(before + now, c)
    {
      assert QtyIn(l, c) == Qty(before, c);
      FreshFillsCount(l, now, c);
      SumsConcat(before, now, c);
    }
  }

  lemma ReceivedTotals(run: seq<Event>)
    requires Possible(DAY_START, run)
    ensures TotalsOf(After(DAY_START, run).ledger, Received(DAY_START, run))
  {
    DayStartIsSane();
    forall c
      ensures QtyIn(After(DAY_START, run).ledger, c) == Qty(Received(DAY_START, run), c)
      ensures ValueIn(After(DAY_START, run).ledger, c) == Notional(Received(DAY_START, run), c)
    {
      NothingIsIgnored(DAY_START, run, c);
    }
  }

  lemma StoredTotals(run: seq<Event>, env: Env, k: nat)
    requires Possible(DAY_START, run) && TruthfulEnv(env, After(DAY_START, run).world)
    requires k <= |PollFills(After(DAY_START, run).state, env).fills|
    ensures var y := After(DAY_START, run);
      TotalsOf(Post(y.ledger, PollFills(y.state, env).fills[..k]), StoredAt(run, env, k))
  {
    var y := After(DAY_START, run);
    var now := PollFills(y.state, env).fills;
    DayStartIsSane();
    RunsStaySane(DAY_START, run);
    PollFillsAreFresh(y.state, y.ledger, y.world, env);
    FreshPrefix(y.ledger, now, k);
    ReceivedTotals(run);
    FreshFillsAdd(y.ledger, Received(DAY_START, run), now[..k]);
  }

  /** Whatever the day and wherever in a poll the process dies, replaying the stored orders and fills hands the
      next process what the ledger shows: the assumption of every restart is a theorem. */
  lemma RestartSeesLedger(run: seq<Event>, env: Env, k: nat, rows: seq<Row>, orders: seq<Order>, ended: set<Cid>,
                          today: int)
    requires Possible(DAY_START, run) && TruthfulEnv(env, After(DAY_START, run).world)
    requires k <= |PollFills(After(DAY_START, run).state, env).fills|
    requires AllRestored(rows, orders, StoredAt(run, env, k), ended, today)
    requires Registers(After(DAY_START, run).world, orders, ended)
    ensures var y := After(DAY_START, run);
      LedgerShows(Post(y.ledger, PollFills(y.state, env).fills[..k]), y.world, OpenRows(rows, today))
    ensures AllPositive(StoredAt(run, env, k))
  {
    var y := After(DAY_START, run);
    DayStartIsSane();
    RunsStaySane(DAY_START, run);
    StoredArePositive(run, env, k);
    StoredTotals(run, env, k);
    ReplayShowsLedger(rows, orders, StoredAt(run, env, k), ended, today,
                      Post(y.ledger, PollFills(y.state, env).fills[..k]), y.world);
  }
}
