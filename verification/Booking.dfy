/** No emitted fill is ever dropped as a duplicate, and no honest reply is ever refused. */
module Booking {
  import opened InsertionDict
  import opened Orders
  import opened FillPoll
  import opened SweepLaws
  import opened PollLaws
  import opened World
  import opened WorldSteps
  import opened Restart
  import opened Runs

  /** The ids a list of fills carries are all different, and none is in the table. */
  ghost predicate FreshFills(l: Ledger, fills: seq<Fill>) {
    && (forall i :: 0 <= i < |fills| ==> fills[i].id !in l.ids)
    && (forall i, j :: 0 <= i < j < |fills| ==> fills[i].id != fills[j].id)
  }

  lemma {:induction false} IdsAfter(l: Ledger, fills: seq<Fill>, f: FillId)
    requires f in Post(l, fills).ids
    ensures f in l.ids || exists i :: 0 <= i < |fills| && fills[i].id == f
    decreases |fills|
  {
    if fills != [] && f != fills[|fills| - 1].id {
      IdsAfter(l, fills[..|fills| - 1], f);
    }
  }

  lemma {:induction false} IdsStay(l: Ledger, fills: seq<Fill>)
    ensures forall f :: f in l.ids ==> f in Post(l, fills).ids
    ensures forall i :: 0 <= i < |fills| ==> fills[i].id in Post(l, fills).ids
    decreases |fills|
  {
    if fills != [] {
      IdsStay(l, fills[..|fills| - 1]);
    }
  }

  lemma {:induction false} HeldIsIgnored(l: Ledger, fills: seq<Fill>)
    requires forall i :: 0 <= i < |fills| ==> fills[i].id in l.ids
    ensures Post(l, fills) == l
    decreases |fills|
  {
    if fills != [] {
      HeldIsIgnored(l, fills[..|fills| - 1]);
    }
  }

  /** Handing over again any fills under ids that were handed over before changes nothing, whatever else they say. */
  lemma RedeliveryIsIgnored(l: Ledger, fills: seq<Fill>, again: seq<Fill>)
    requires forall i :: 0 <= i < |again| ==> exists j :: 0 <= j < |fills| && fills[j].id == again[i].id
    ensures Post(Post(l, fills), again) == Post(l, fills)
  {
    IdsStay(l, fills);
    HeldIsIgnored(Post(l, fills), again);
  }

  /** Fresh fills are all inserted: the table gains exactly their totals. */
  lemma {:induction false} FreshFillsCount(l: Ledger, fills: seq<Fill>, c: Cid)
    requires FreshFills(l, fills)
    ensures QtyIn(Post(l, fills), c) == QtyIn(l, c) + Qty(fills, c)
    ensures ValueIn(Post(l, fills), c) == ValueIn(l, c) + Notional(fills, c)
    decreases |fills|
  {
    if fills != [] {
      var n := |fills| - 1;
      FreshPrefix(l, fills, n);
      FreshFillsCount(l, fills[..n], c);
      if fills[n].id in Post(l, fills[..n]).ids {
        IdsAfter(l, fills[..n], fills[n].id);
      }
    }
  }

  /** `fills` come from different orders among `ids`, in that order, each under a cumulative quantity
      above the one already reported for its order. */
  ghost predicate InOrder(ids: seq<BrokerId>, p: Pending, fills: seq<Fill>) {
    fills == [] ||
    (ids != [] &&
     (InOrder(ids[1..], p, fills) || (FromOrder(ids[0], p, fills[0]) && InOrder(ids[1..], p, fills[1..]))))
  }

  predicate FromOrder(id: BrokerId, p: Pending, f: Fill) {
    id in p.vals && f.id.broker == id && f.id.filled > p.vals[id].filled && f.quantity > 0 && f.price > 0.0
  }

  lemma OneFillInFront(ids: seq<BrokerId>, p: Pending, a: seq<Fill>, b: seq<Fill>)
    requires ids != [] && InOrder(ids[1..], p, b)
    requires a == [] || (|a| == 1 && FromOrder(ids[0], p, a[0]))
    ensures InOrder(ids, p, a + b)
  {
    if a == [] {
      assert a + b == b;
    } else {
      assert (a + b)[1..] == b;
    }
  }

  /** So it is for the fills of every sweep, whatever the replies. */
  lemma {:induction false} SweepFillIds(ids: seq<BrokerId>, p: Pending, env: Env)
    requires forall id :: id in ids ==> id in p.vals
    ensures InOrder(ids, p, Expected(ids, p, env).fills)
  {
    if ids != [] {
      var polled := PolledIn(p, ids[0], env);
      OnePoll(ids[0], p.vals[ids[0]], env.wire(ids[0]), env.estimate);
      if !Stops(polled.verdict) {
        SweepFillIds(ids[1..], p, env);
        OneFillInFront(ids, p, polled.fills, Expected(ids[1..], p, env).fills);
      }
    }
  }

  /** Whatever the replies, no two fills of a sweep carry the same id, and none repeats an id already
      used at the quantities reported. */
  lemma {:induction false} InOrderIsFresh(ids: seq<BrokerId>, p: Pending, fills: seq<Fill>, l: Ledger)
    requires NoDup(ids) && InOrder(ids, p, fills)
    requires forall f :: f in l.ids && f.broker in ids && f.broker in p.vals ==> f.filled <= p.vals[f.broker].filled
    ensures FreshFills(l, fills)
    ensures forall i :: 0 <= i < |fills| ==> fills[i].id.broker in ids
    decreases |ids|
  {
    if fills != [] {
      var rest := ids[1..];
      if InOrder(rest, p, fills) {
        InOrderIsFresh(rest, p, fills, l);
      } else {
        InOrderIsFresh(rest, p, fills[1..], l);
        forall i | 0 < i < |fills|
          ensures fills[i].id !in l.ids && fills[i].id.broker in rest
        {
          assert fills[i] == fills[1..][i - 1];
        }
        forall i, j | 0 <= i < j < |fills|
          ensures fills[i].id != fills[j].id
        {
          if i > 0 {
            assert fills[1..][i - 1].id != fills[1..][j - 1].id;
          }
        }
      }
    }
  }

  /** Under an honest Upstox a poll's fills are all new to the ledger. */
  lemma PollFillsAreFresh(s: State, l: Ledger, w: World, env: Env)
    requires Good(s, l, w) && TruthfulEnv(env, w)
    ensures FreshFills(l, PollFills(s, env).fills)
  {
    var p := Start(s, env);
    if !LookUp(s, env).denied {
      PollIsReading(s, env);
      KeysHaveValues(p);
      SweepFillIds(p.keys, p, env);
      UsedIdsAreReported(s, l, w, env);
      InOrderIsFresh(p.keys, p, PollFills(s, env).fills, l);
    }
  }

  lemma UsedIdsAreReported(s: State, l: Ledger, w: World, env: Env)
    requires Good(s, l, w) && TruthfulEnv(env, w)
    ensures var p := Start(s, env);
      forall f :: f in l.ids && f.broker in p.vals ==> f.filled <= p.vals[f.broker].filled
  {
    LookUpKeepsGood(s, l, w, env);
    var p := Start(s, env);
    forall f | f in l.ids && f.broker in p.vals
      ensures f.filled <= p.vals[f.broker].filled
    {
      assert Named(l, f, w);
    }
  }

  lemma FreshPrefix(l: Ledger, fills: seq<Fill>, k: nat)
    requires FreshFills(l, fills) && k <= |fills|
    ensures FreshFills(l, fills[..k])
  {
  }

  /** The fills the callback books in one event, and in a run over all its lifetimes. */
  ghost function BookedBy(y: System, e: Event): seq<Fill>
    requires Enabled(y, e)
  {
    match e
    case PollOnce(env, _) => PollFills(y.state, env).fills
    case CrashAndRestart(env, k, _, _, _) => PollFills(y.state, env).fills[..k]
    case _ => []
  }

  ghost function Received(y: System, run: seq<Event>): seq<Fill>
    requires Possible(y, run)
    decreases |run|
  {
    if run == [] then [] else BookedBy(y, run[0]) + Received(Next(y, run[0]), run[1..])
  }

  /** The ledger's insert-or-ignore never ignores: over any run, across crashes, its totals are the sums
      of every fill ever handed to the callback. */
  lemma {:induction false} NothingIsIgnored(y: System, run: seq<Event>, c: Cid)
    requires Sane(y) && Possible(y, run)
    ensures QtyIn(After(y, run).ledger, c) == QtyIn(y.ledger, c) + Qty(Received(y, run), c)
    ensures ValueIn(After(y, run).ledger, c) == ValueIn(y.ledger, c) + Notional(Received(y, run), c)
    decreases |run|
  {
    if run != [] {
      var e, z := run[0], Next(y, run[0]);
      EventKeepsSane(y, e);
      NothingIsIgnored(z, run[1..], c);
      var now := BookedBy(y, e);
      SumsConcat(now, Received(z, run[1..]), c);
      EventBooks(y, e, c);
    }
  }

  lemma EventBooks(y: System, e: Event, c: Cid)
    requires Sane(y) && Enabled(y, e)
    ensures QtyIn(Next(y, e).ledger, c) == QtyIn(y.ledger, c) + Qty(BookedBy(y, e), c)
    ensures ValueIn(Next(y, e).ledger, c) == ValueIn(y.ledger, c) + Notional(BookedBy(y, e), c)
  {
    match e
    case PollOnce(env, _) =>
      PollFillsAreFresh(y.state, y.ledger, y.world, env);
      FreshFillsCount(y.ledger, BookedBy(y, e), c);
    case CrashAndRestart(env, k, _, _, _) =>
      PollFillsAreFresh(y.state, y.ledger, y.world, env);
      FreshPrefix(y.ledger, PollFills(y.state, env).fills, k);
      FreshFillsCount(y.ledger, BookedBy(y, e), c);
    case _ =>
  }

  /** The texts the ids are stored under tell them apart, in any run. */
  lemma StoredIdsDiffer(run: seq<Event>, f: FillId, g: FillId)
    requires Possible(DAY_START, run)
    requires var ids := After(DAY_START, run).ledger.ids;
      f in ids && g in ids && Rendered(f) == Rendered(g)
    ensures f == g
  {
    DayStartIsSane();
    RunsStaySane(DAY_START, run);
    var y := After(DAY_START, run);
    assert Named(y.ledger, f, y.world) && Named(y.ledger, g, y.world);
    FillIdInjective(f, g);
  }

  // ---- an honest reply is booked

  /** The checks a reply must pass never turn an honest, readable one away: unless it is stale, the poll
      takes the entry to exactly what it says. */
  lemma HonestReplyIsBooked(l: Ledger, id: BrokerId, t: Tracked, reply: Reply, estimate: Estimate, b: BrokerOrder)
    requires ExecsOk(b) && Booked(l, b) && t.order == b.order && Agrees(l, t.order.cid, t.filled, t.average)
    requires Truthful(reply, b) && reply.Details? && reply.status.Some?
    requires FilledQuantity(reply.filled).Some? && FilledQuantity(reply.filled).value >= t.filled
    requires AveragePrice(reply.average).Price?
    ensures var p := PollOrder(id, t, reply, estimate);
      && p.entry.filled == FilledQuantity(reply.filled).value
      && !p.verdict.Contract? && !Stops(p.verdict)
      && (Terminal(reply.status.value) ==> Leaves(p.verdict) && p.entry.filled == SumQ(b.execs))
  {
    HonestIsAcceptable(l, t, reply, b);
    LeavesExactly(id, t, reply, estimate);
  }

  lemma HonestIsAcceptable(l: Ledger, t: Tracked, reply: Reply, b: BrokerOrder)
    requires ExecsOk(b) && Booked(l, b) && t.order == b.order && Agrees(l, t.order.cid, t.filled, t.average)
    requires Truthful(reply, b) && reply.Details? && reply.status.Some?
    requires FilledQuantity(reply.filled).Some? && FilledQuantity(reply.filled).value >= t.filled
    requires AveragePrice(reply.average).Price?
    ensures Acceptable(t, reply)
    ensures Terminal(reply.status.value) ==>
              FilledQuantity(reply.filled).value == SumQ(b.execs) && b.ended == reply.status
  {
    var n, avg := FilledQuantity(reply.filled).value, AveragePrice(reply.average).value;
    var m: nat, v: real :|
      && IsPrefix(b.execs, m, n, v) && (n > 0 ==> Value(n, avg) == v)
      && (Terminal(reply.status.value) ==> m == |b.execs| && b.ended == reply.status);
    var m0: nat :| IsPrefix(b.execs, m0, QtyIn(l, b.order.cid), ValueIn(l, b.order.cid));
    PrefixesCompare(b, m0, QtyIn(l, b.order.cid), ValueIn(l, b.order.cid), m, n, v);
    PrefixesCompare(b, m, n, v, m0, QtyIn(l, b.order.cid), ValueIn(l, b.order.cid));
    assert Terminal(reply.status.value) ==> b.execs[..m] == b.execs;
    if n > t.filled {
      QuotientPositive(v - Value(t.filled, t.average), n - t.filled);
    }
  }

  lemma QuotientPositive(x: real, q: int)
    requires x > 0.0 && q > 0
    ensures x / q as real > 0.0
  {
  }
}
