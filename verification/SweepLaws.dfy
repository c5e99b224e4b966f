/** What one poll of one order, and one sweep over all of them, amount to. */
module SweepLaws {
  import opened InsertionDict
  import opened Orders
  import opened FillPoll

  // ---- one order

  predicate Stops(v: Verdict) {
    v.Deferred? || v.AuthFailed? || v.Uncaught?
  }

  predicate Leaves(v: Verdict) {
    v.Complete? || v.EndedUnfilled?
  }

  /** At most one fill, of a positive quantity at a positive price, worth exactly what the order's
      cumulative value grew by; and without a fill nothing changes. */
  predicate FillsTheGap(id: BrokerId, t: Tracked, p: Polled) {
    && p.entry.order == t.order
    && |p.fills| <= 1
    && (p.fills == [] ==> p.entry == t)
    && (p.fills != [] ==>
          var f := p.fills[0];
          && f.cid == t.order.cid && f.symbol == t.order.symbol && f.side == t.order.side
          && f.id == FillId(id, p.entry.filled)
          && f.quantity == p.entry.filled - t.filled > 0
          && f.price > 0.0 && p.entry.average > 0.0
          && p.entry.filled <= t.order.quantity
          && Value(f.quantity, f.price) == Value(p.entry.filled, p.entry.average) - Value(t.filled, t.average)
          && f.fee == p.entry.fee - t.fee)
  }

  /** One poll, whatever Upstox replies. */
  lemma OnePoll(id: BrokerId, t: Tracked, reply: Reply, estimate: Estimate)
    ensures var p := PollOrder(id, t, reply, estimate);
      && FillsTheGap(id, t, p)
      && (Stops(p.verdict) ==> p.fills == [])
      && (p.verdict.Complete? ==> p.entry.filled == t.order.quantity)
  {
    var p := PollOrder(id, t, reply, estimate);
    if p.fills != [] {
      var filled := FilledQuantity(reply.filled).value;
      var average := AveragePrice(reply.average).value;
      PriceTimesQuantity(Value(filled, average) - Value(t.filled, t.average), filled - t.filled);
    }
  }

  lemma PriceTimesQuantity(value: real, q: int)
    requires q > 0
    ensures Value(q, value / q as real) == value
  {
  }

  /** What the newly filled part cost: the cumulative quantity at its average price, less what was reported before at
      its own. */
  lemma NewPartCost(id: BrokerId, t: Tracked, reply: Reply, estimate: Estimate)
    requires PollOrder(id, t, reply, estimate).fills != []
    ensures var p := PollOrder(id, t, reply, estimate);
      p.fills[0].quantity as real * p.fills[0].price
      == p.entry.filled as real * p.entry.average - t.filled as real * t.average
  {
    OnePoll(id, t, reply, estimate);
  }

  /** The reply is one the poll can act on: its quantity is readable and between what was reported and
      what was ordered, and if it is new its price is readable and implies a positive one for the new part. */
  predicate Acceptable(t: Tracked, reply: Reply) {
    && reply.Details? && FilledQuantity(reply.filled).Some?
    && t.filled <= FilledQuantity(reply.filled).value <= t.order.quantity
    && (FilledQuantity(reply.filled).value > t.filled ==>
          AveragePrice(reply.average).Price?
          && FillPrice(t, FilledQuantity(reply.filled).value, AveragePrice(reply.average).value) > 0.0)
  }

  /** A contract error raised before the fill leaves the order untouched; one raised after it (an
      unreadable status, or "complete" short of the ordered quantity) still books the fill. */
  lemma ContractErrorKeepsTheFill(id: BrokerId, t: Tracked, reply: Reply, estimate: Estimate)
    requires Acceptable(t, reply) && FilledQuantity(reply.filled).value > t.filled
    ensures var p, filled := PollOrder(id, t, reply, estimate), FilledQuantity(reply.filled).value;
      && |p.fills| == 1 && p.entry.filled == filled && p.entry.average == AveragePrice(reply.average).value
      && (p.verdict.Contract? <==>
            reply.status.None? || (reply.status.value.Filled? && filled < t.order.quantity))
  {
  }

  /** When an order leaves the poll, and as what: on an acceptable reply with a terminal status, except a
      "complete" short of the ordered quantity. */
  lemma LeavesExactly(id: BrokerId, t: Tracked, reply: Reply, estimate: Estimate)
    ensures var p := PollOrder(id, t, reply, estimate);
      && (p.verdict.Complete? <==>
            Acceptable(t, reply) && reply.status == Some(Status.Filled)
            && FilledQuantity(reply.filled).value == t.order.quantity)
      && (p.verdict.EndedUnfilled? <==>
            Acceptable(t, reply) && (reply.status == Some(Status.Rejected) || reply.status == Some(Status.Cancelled)))
      && (p.verdict.EndedUnfilled? ==>
            p.verdict.ended == EndedOrder(t.order.cid, reply.status.value, id, FilledQuantity(reply.filled).value))
      && (Acceptable(t, reply) ==> p.entry.filled == FilledQuantity(reply.filled).value)
  {
  }

  // ---- one order over any sequence of replies

  datatype Many = Many(entry: Tracked, fills: seq<Fill>)

  /** Polls one order once per element, until it leaves the pending orders. */
  function PollMany(id: BrokerId, t: Tracked, polls: seq<(Reply, Estimate)>): Many
    decreases |polls|
  {
    if polls == [] then Many(t, [])
    else
      var p := PollOrder(id, t, polls[0].0, polls[0].1);
      if Leaves(p.verdict) then Many(p.entry, p.fills)
      else
        var rest := PollMany(id, p.entry, polls[1..]);
        Many(rest.entry, p.fills + rest.fills)
  }

  /** The fills of one order: positive, priced above zero, numbered by a rising cumulative quantity
      that ends at the one reported. */
  predicate FillChain(id: BrokerId, c: Cid, from: int, fills: seq<Fill>, to: int)
    decreases |fills|
  {
    if fills == [] then from == to
    else
      var f := fills[0];
      && f.quantity > 0 && f.price > 0.0 && f.cid == c
      && f.id == FillId(id, from + f.quantity)
      && FillChain(id, c, from + f.quantity, fills[1..], to)
  }

  lemma {:induction false} SumsConcat(a: seq<Fill>, b: seq<Fill>, c: Cid)
    ensures Qty(a + b, c) == Qty(a, c) + Qty(b, c)
    ensures Notional(a + b, c) == Notional(a, c) + Notional(b, c)
    ensures Fees(a + b, c) == Fees(a, c) + Fees(b, c)
  {
    if b == [] {
      assert a + b == a;
    } else {
      assert a + b == (a + b[..|b| - 1]) + [b[|b| - 1]];
      assert b == b[..|b| - 1] + [b[|b| - 1]];
      SumsConcat(a, b[..|b| - 1], c);
      SumsAppend(a + b[..|b| - 1], b[|b| - 1], c);
      SumsAppend(b[..|b| - 1], b[|b| - 1], c);
    }
  }

  /** `fills` take the order from `t` to `end`: what they add up to is what its cumulative quantity,
      value and fee grew by. */
  predicate Accounts(id: BrokerId, t: Tracked, fills: seq<Fill>, end: Tracked) {
    var c := t.order.cid;
    && end.order == t.order
    && FillChain(id, c, t.filled, fills, end.filled)
    && (fills != [] ==> end.filled <= t.order.quantity)
    && Qty(fills, c) == end.filled - t.filled
    && Notional(fills, c) == Value(end.filled, end.average) - Value(t.filled, t.average)
    && Fees(fills, c) == end.fee - t.fee
  }

  lemma GapIsAccounted(id: BrokerId, t: Tracked, p: Polled)
    requires FillsTheGap(id, t, p)
    ensures Accounts(id, t, p.fills, p.entry)
  {
    if p.fills != [] {
      assert p.fills == [p.fills[0]] && p.fills[1..] == [];
      OneFillSums(p.fills[0]);
    }
  }

  lemma OneFillSums(f: Fill)
    ensures Qty([f], f.cid) == f.quantity
    ensures Notional([f], f.cid) == Value(f.quantity, f.price)
    ensures Fees([f], f.cid) == f.fee
  {
    assert [f][..0] == [];
  }

  lemma AccountsChain(id: BrokerId, t: Tracked, a: seq<Fill>, middle: Tracked, b: seq<Fill>, end: Tracked)
    requires |a| <= 1 && Accounts(id, t, a, middle) && Accounts(id, middle, b, end)
    ensures Accounts(id, t, a + b, end)
  {
    SumsConcat(a, b, t.order.cid);
    if a == [] {
      assert a + b == b;
    } else {
      assert (a + b)[1..] == b && a[1..] == [];
    }
  }

  /** VWAP and fee telescoping for arbitrary replies and a fee model that may fail on any call. */
  lemma {:induction false} Telescopes(id: BrokerId, t: Tracked, polls: seq<(Reply, Estimate)>)
    ensures Accounts(id, t, PollMany(id, t, polls).fills, PollMany(id, t, polls).entry)
    decreases |polls|
  {
    if polls != [] {
      var p := PollOrder(id, t, polls[0].0, polls[0].1);
      OnePoll(id, t, polls[0].0, polls[0].1);
      GapIsAccounted(id, t, p);
      if !Leaves(p.verdict) {
        Telescopes(id, p.entry, polls[1..]);
        var rest := PollMany(id, p.entry, polls[1..]);
        AccountsChain(id, t, p.fills, p.entry, rest.fills, rest.entry);
      }
    }
  }

  /** What the fee model says of everything filled so far, at its average price. */
  function Charge(e: Tracked, estimate: Estimate): Option<real> {
    estimate(e.order.(quantity := e.filled), e.average)
  }

  /** A new fill brings the stored fee to the model's charge for the whole filled quantity; if the model fails, the
      fill carries no fee and the stored one stays. */
  lemma NewFee(id: BrokerId, t: Tracked, reply: Reply, estimate: Estimate)
    requires PollOrder(id, t, reply, estimate).fills != [] && PollOrder(id, t, reply, estimate).entry.filled > 0
    ensures var p := PollOrder(id, t, reply, estimate);
      && (Charge(p.entry, estimate).Some? ==> p.entry.fee == Charge(p.entry, estimate).value)
      && (Charge(p.entry, estimate).None? ==> p.fills[0].fee == 0.0 && p.entry.fee == t.fee)
  {
  }

  /** However often the model failed before, once it prices the latest fill the fees charged are its
      charge for everything filled so far, less what the order was seeded with. */
  lemma FeesCatchUp(id: BrokerId, t: Tracked, polls: seq<(Reply, Estimate)>, reply: Reply, estimate: Estimate, x: real)
    requires var m := PollMany(id, t, polls);
      var p := PollOrder(id, m.entry, reply, estimate);
      && p.fills != [] && p.entry.filled > 0
      && estimate(t.order.(quantity := p.entry.filled), p.entry.average) == Some(x)
    ensures var m := PollMany(id, t, polls);
      var p := PollOrder(id, m.entry, reply, estimate);
      Fees(m.fills + p.fills, t.order.cid) == x - t.fee
  {
    Telescopes(id, t, polls);
    var m := PollMany(id, t, polls);
    var p := PollOrder(id, m.entry, reply, estimate);
    OnePoll(id, m.entry, reply, estimate);
    GapIsAccounted(id, m.entry, p);
    SumsConcat(m.fills, p.fills, t.order.cid);
    NewFee(id, m.entry, reply, estimate);
  }

  /** Along a chain no two fills carry the same id. */
  lemma {:induction false} ChainIdsRise(id: BrokerId, c: Cid, from: int, fills: seq<Fill>, to: int, k: nat)
    requires FillChain(id, c, from, fills, to) && k < |fills|
    ensures fills[k].id.broker == id && from < fills[k].id.filled <= to
    ensures forall j :: 0 <= j < k ==> fills[j].id.filled < fills[k].id.filled
    decreases k
  {
    var next := from + fills[0].quantity;
    ChainGrows(id, c, next, fills[1..], to);
    if k > 0 {
      ChainIdsRise(id, c, next, fills[1..], to, k - 1);
      forall j | 0 <= j < k
        ensures fills[j].id.filled < fills[k].id.filled
      {
        if j > 0 {
          assert fills[1..][j - 1] == fills[j];
        }
      }
    }
  }

  lemma ChainGrows(id: BrokerId, c: Cid, from: int, fills: seq<Fill>, to: int)
    requires FillChain(id, c, from, fills, to)
    ensures from <= to
    decreases |fills|
  {
    if fills != [] {
      ChainGrows(id, c, from + fills[0].quantity, fills[1..], to);
    }
  }

  // ---- one sweep, order by order

  /** What a sweep yields, read off the orders' replies one at a time and from the back. */
  datatype Effect = Effect(keys: seq<BrokerId>, fills: seq<Fill>, calls: seq<BrokerId>, ended: seq<EndedOrder>,
                             contract: seq<Problem>, unavailable: seq<Problem>, stop: Stop)

  function PolledIn(p: Pending, id: BrokerId, env: Env): Polled
    requires id in p.vals
  {
    PollOrder(id, p.vals[id], env.wire(id), env.estimate)
  }

  /** An order the sweep goes past, in front of what the rest yields. */
  function Prepend(id: BrokerId, p: Polled, rest: Effect): Effect {
    Effect(if Leaves(p.verdict) then rest.keys else [id] + rest.keys,
            p.fills + rest.fills,
            [id] + rest.calls,
            if p.verdict.EndedUnfilled? then [p.verdict.ended] + rest.ended else rest.ended,
            if p.verdict.Contract? then [Troubled(id)] + rest.contract else rest.contract,
            rest.unavailable,
            rest.stop)
  }

  /** An order the sweep stops at. */
  function Halt(id: BrokerId, v: Verdict, rest: seq<BrokerId>): Effect {
    if v.Deferred? then
      Effect(rest + [id], [], [id], [], [], [Troubled(id)] + if rest != [] then [Skipped(|rest|)] else [],
              ByOutage)
    else
      Effect([id] + rest, [], [id], [], [], [], if v.AuthFailed? then ByAuth else ByUncaught)
  }

  function Expected(ids: seq<BrokerId>, p: Pending, env: Env): Effect
    requires forall id :: id in ids ==> id in p.vals
  {
    if ids == [] then Effect([], [], [], [], [], [], Going)
    else
      var polled := PolledIn(p, ids[0], env);
      if Stops(polled.verdict) then Halt(ids[0], polled.verdict, ids[1..])
      else Prepend(ids[0], polled, Expected(ids[1..], p, env))
  }

  ghost predicate Untouched(ids: seq<BrokerId>, r: Run, p: Pending) {
    forall id :: id in ids ==> id in r.pending.vals && id in p.vals && r.pending.vals[id] == p.vals[id]
  }

  /** `final` is `r` carried on by `e`, with the orders `done` already behind. */
  predicate CarriedOn(r: Run, e: Effect, done: seq<BrokerId>, final: Run) {
    && final.pending.keys == done + e.keys
    && final.fills == r.fills + e.fills
    && final.calls == r.calls + e.calls
    && final.notFilled == r.notFilled + e.ended
    && final.contract == r.contract + e.contract
    && final.unavailable == r.unavailable + e.unavailable
    && final.stop == e.stop
  }

  lemma {:induction false} WithoutMiddle<T>(a: seq<T>, x: T, b: seq<T>)
    requires NoDup(a + [x] + b)
    ensures Without(a + [x] + b, x) == a + b
  {
    if a == [] {
      assert a + [x] + b == [x] + b && ([x] + b)[1..] == b;
      WithoutAbsent(b, x);
      assert a + b == b;
    } else {
      var s := a + [x] + b;
      assert s[1..] == a[1..] + [x] + b;
      assert x == s[1..][|a| - 1];
      WithoutMiddle(a[1..], x, b);
      assert [a[0]] + (a[1..] + b) == a + b;
    }
  }

  lemma {:induction false} WithoutAbsent<T>(s: seq<T>, x: T)
    requires x !in s
    ensures Without(s, x) == s
  {
    if s != [] {
      WithoutAbsent(s[1..], x);
      assert [s[0]] + s[1..] == s;
    }
  }

  lemma StopsEmpty(p: Pending, id: BrokerId, env: Env)
    requires id in p.vals
    ensures Stops(PolledIn(p, id, env).verdict) ==> PolledIn(p, id, env).fills == []
  {
    OnePoll(id, p.vals[id], env.wire(id), env.estimate);
  }

  lemma TurnStops(r: Run, id: BrokerId, rest: seq<BrokerId>, p: Polled, done: seq<BrokerId>)
    requires id in r.pending.vals && r.pending.keys == done + [id] + rest && r.stop.Going?
    requires Stops(p.verdict) && p.fills == []
    ensures CarriedOn(r, Halt(id, p.verdict, rest), done, Apply(r, id, |rest|, p))
  {
    WithoutMiddle(done, id, rest);
    assert done + (rest + [id]) == done + rest + [id];
    assert done + ([id] + rest) == done + [id] + rest;
  }

  lemma TurnGoesOn(r: Run, id: BrokerId, rest: seq<BrokerId>, p: Polled, done: seq<BrokerId>, e: Effect, final: Run)
    requires id in r.pending.vals && r.pending.keys == done + [id] + rest && r.stop.Going?
    requires !Stops(p.verdict)
    requires var kept := if Leaves(p.verdict) then done else done + [id];
      CarriedOn(Apply(r, id, |rest|, p), e, kept, final)
    ensures CarriedOn(r, Prepend(id, p, e), done, final)
  {
    var v, whole := Apply(r, id, |rest|, p), Prepend(id, p, e);
    assert done + [id] + e.keys == done + ([id] + e.keys);
    assert v.fills + e.fills == r.fills + whole.fills;
    assert v.calls + e.calls == r.calls + whole.calls;
    assert v.notFilled + e.ended == r.notFilled + whole.ended;
    assert v.contract + e.contract == r.contract + whole.contract;
  }

  lemma TurnKeys(r: Run, id: BrokerId, rest: seq<BrokerId>, p: Polled, done: seq<BrokerId>)
    requires id in r.pending.vals && r.pending.keys == done + [id] + rest
    requires !Stops(p.verdict)
    ensures Apply(r, id, |rest|, p).pending.keys == (if Leaves(p.verdict) then done else done + [id]) + rest
  {
    WithoutMiddle(done, id, rest);
  }

  lemma NextUntouched(ids: seq<BrokerId>, r: Run, p: Pending, env: Env)
    requires CanSweep(ids, r) && ids != [] && Untouched(ids, r, p)
    ensures Untouched(ids[1..], Visit(r, ids[0], |ids| - 1, env), p)
  {
    var v := Visit(r, ids[0], |ids| - 1, env);
    forall k | k in ids[1..]
      ensures k in v.pending.vals && k in p.vals && v.pending.vals[k] == p.vals[k]
    {
      assert k in ids && k != ids[0];
    }
  }

  /** One turn of a sweep: either it stops there, or the rest is still to be swept. */
  lemma ExpectedTurn(ids: seq<BrokerId>, r: Run, p: Pending, env: Env, done: seq<BrokerId>)
    returns (v: Run, polled: Polled, kept: seq<BrokerId>)
    requires CanSweep(ids, r) && ids != [] && r.stop.Going? && Untouched(ids, r, p)
    requires r.pending.keys == done + ids
    ensures ids[0] in r.pending.vals && r.pending.keys == done + [ids[0]] + ids[1..]
    ensures kept == if Leaves(polled.verdict) then done else done + [ids[0]]
    ensures forall e, final :: !Stops(polled.verdict) && CarriedOn(v, e, kept, final) ==>
              CarriedOn(r, Prepend(ids[0], polled, e), done, final)
    ensures Stops(polled.verdict) ==> CarriedOn(r, Expected(ids, p, env), done, Sweep(ids, r, env))
    ensures !Stops(polled.verdict) ==>
              && CanSweep(ids[1..], v) && v.stop.Going? && Untouched(ids[1..], v, p)
              && v.pending.keys == kept + ids[1..]
              && Sweep(ids, r, env) == Sweep(ids[1..], v, env)
              && Expected(ids, p, env) == Prepend(ids[0], polled, Expected(ids[1..], p, env))
  {
    var id, rest := ids[0], ids[1..];
    polled := PolledIn(p, id, env);
    v := Apply(r, id, |rest|, polled);
    kept := if Leaves(polled.verdict) then done else done + [id];
    StopsEmpty(p, id, env);
    assert done + ids == done + [id] + rest;
    assert ids[0..] == ids;
    SweepTurn(ids, 0, r, env);
    assert v == Visit(r, id, |rest|, env);
    if Stops(polled.verdict) {
      TurnStops(r, id, rest, polled, done);
      assert Sweep(rest, v, env) == v;
    } else {
      NextUntouched(ids, r, p, env);
      TurnKeys(r, id, rest, polled, done);
      forall e, final | CarriedOn(v, e, kept, final)
        ensures CarriedOn(r, Prepend(id, polled, e), done, final)
      {
        TurnGoesOn(r, id, rest, polled, done, e, final);
      }
    }
  }

  /** The sweep's loop, with its running totals and early exit, is the order-by-order reading: ended
      orders only close the gap, an unreachable one goes to the back, every other keeps its place,
      and nothing is asked after the order that stopped it. */
  lemma {:induction false} SweepIsExpected(ids: seq<BrokerId>, r: Run, p: Pending, env: Env, done: seq<BrokerId>)
    requires CanSweep(ids, r) && r.stop.Going? && Untouched(ids, r, p)
    requires r.pending.keys == done + ids
    ensures CarriedOn(r, Expected(ids, p, env), done, Sweep(ids, r, env))
    decreases |ids|
  {
    if ids != [] {
      var v, polled, kept := ExpectedTurn(ids, r, p, env, done);
      if !Stops(polled.verdict) {
        SweepIsExpected(ids[1..], v, p, env, kept);
      }
    }
  }
}
