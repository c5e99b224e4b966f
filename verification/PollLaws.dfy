/** What every poll guarantees, for arbitrary replies: fairness and a complete report. */
module PollLaws {
  import opened InsertionDict
  import opened Orders
  import opened Requests
  import opened FillPoll
  import opened SweepLaws

  // ---- from a sweep to a poll

  function Start(s: State, env: Env): Pending {
    LookUp(s, env).state.pending
  }

  lemma KeysHaveValues(p: Pending)
    ensures forall id :: id in p.keys ==> id in p.vals
  {
    forall id | id in p.keys
      ensures id in p.vals
    {
      KeysAndValues(p, id);
    }
  }

  /** The order-by-order reading of a poll's sweep. */
  ghost function Reading(s: State, env: Env): Effect {
    KeysHaveValues(Start(s, env));
    Expected(Start(s, env).keys, Start(s, env), env)
  }

  lemma PollIsReading(s: State, env: Env)
    requires !LookUp(s, env).denied
    ensures var poll, e := PollFills(s, env), Reading(s, env);
      && poll.state.pending.keys == e.keys
      && poll.fills == e.fills
      && poll.calls == e.calls
      && poll.raised == (
          if e.stop == ByAuth then AuthError
          else if e.stop == ByUncaught then UncaughtError
          else RaisePollProblems(poll.state.unconfirmed.keys != [], LookUp(s, env).unavailable + e.unavailable,
                                 LookUp(s, env).contract + e.contract, e.ended))
  {
    var p := LookUp(s, env);
    var r := StartRun(p);
    PendingCanSweep(p.state.pending, r);
    assert [] + r.pending.keys == r.pending.keys;
    SweepIsExpected(r.pending.keys, r, r.pending, env, []);
    var final, e := SweepOf(p, env), Reading(s, env);
    assert [] + e.keys == e.keys && [] + e.fills == e.fills && [] + e.calls == e.calls && [] + e.ended == e.ended;
  }

  // ---- at most one call per order, and one unreachable call per sweep

  lemma {:induction false} CallsArePrefix(ids: seq<BrokerId>, p: Pending, env: Env)
    requires forall id :: id in ids ==> id in p.vals
    ensures var calls := Expected(ids, p, env).calls;
      && calls <= ids
      && (forall i :: 0 <= i < |calls| - 1 ==> !Stops(PolledIn(p, ids[i], env).verdict))
      && (Expected(ids, p, env).stop.Going? ==> calls == ids)
  {
    if ids != [] && !Stops(PolledIn(p, ids[0], env).verdict) {
      var rest := Expected(ids[1..], p, env).calls;
      CallsArePrefix(ids[1..], p, env);
      forall i | 0 <= i < |rest|
        ensures !Stops(PolledIn(p, ids[i], env).verdict)
      {
        assert i > 0 ==> ids[1..][i - 1] == ids[i];
      }
      assert ([ids[0]] + rest) <= [ids[0]] + ids[1..] == ids;
    }
  }

  lemma {:induction false} PrefixNoDup<T>(s: seq<T>, n: nat)
    requires NoDup(s) && n <= |s|
    ensures NoDup(s[..n])
  {
    if n > 0 {
      PrefixNoDup(s[1..], n - 1);
      assert s[..n][1..] == s[1..][..n - 1];
      assert s[..n][0] == s[0];
    }
  }

  /** Each sweep asks about each order at most once, in their order, and every order but the last one
      asked about was reachable. */
  lemma SweepAsksOnce(s: State, env: Env)
    ensures var calls := PollFills(s, env).calls;
      && calls <= Start(s, env).keys
      && NoDup(calls)
      && forall i :: 0 <= i < |calls| - 1 ==> calls[i] in Start(s, env).vals && !env.wire(calls[i]).Unreachable?
  {
    var p := Start(s, env);
    if !LookUp(s, env).denied {
      PollIsReading(s, env);
      KeysHaveValues(p);
      CallsArePrefix(p.keys, p, env);
      var calls := PollFills(s, env).calls;
      PrefixNoDup(p.keys, |calls|);
      assert calls == p.keys[..|calls|];
      forall i | 0 <= i < |calls| - 1
        ensures calls[i] in p.vals && !env.wire(calls[i]).Unreachable?
      {
        assert calls[i] == p.keys[i];
      }
    }
  }

  // ---- no starvation

  /** An order the sweep did not get to is still pending and, unless the sweep was aborted, closer to
      the front. */
  lemma {:induction false} PassedOverMovesUp(ids: seq<BrokerId>, p: Pending, env: Env, x: BrokerId)
    requires forall id :: id in ids ==> id in p.vals
    requires x in ids && x !in Expected(ids, p, env).calls
    ensures var e := Expected(ids, p, env);
      && x in e.keys
      && IndexOf(e.keys, x) <= IndexOf(ids, x)
      && (e.stop == ByOutage ==> IndexOf(e.keys, x) < IndexOf(ids, x))
      && e.stop != Going
  {
    var id, rest := ids[0], ids[1..];
    var polled := PolledIn(p, id, env);
    assert x != id && x in rest;
    if Stops(polled.verdict) {
      IndexOfAppend(rest, [id], x);
      assert ([id] + rest)[1..] == rest;
    } else {
      PassedOverMovesUp(rest, p, env, x);
      var e := Expected(rest, p, env);
      assert ([id] + e.keys)[1..] == e.keys;
    }
  }

  lemma {:induction false} UnconfirmedAppends(todo: seq<(Cid, Order)>, book: seq<Entry>, r: Resolved)
    ensures r.state.pending.keys <= ResolveUnconfirmed(todo, book, r).state.pending.keys
    decreases |todo|
  {
    if todo != [] {
      UnconfirmedAppends(todo[1..], book, ResolveOne(todo[0], book, r));
    }
  }

  lemma {:induction false} WatchAppends(todo: seq<(Cid, Held)>, book: seq<Entry>, s: State, estimate: Estimate)
    ensures s.pending.keys <= ResolveWatch(todo, book, s, estimate).pending.keys
    decreases |todo|
  {
    if todo != [] {
      WatchAppends(todo[1..], book, WatchOne(todo[0], book, s, estimate), estimate);
    }
  }

  /** Looking orders up in the book only adds orders behind those already pending. */
  lemma LookUpAppends(s: State, env: Env)
    ensures s.pending.keys <= Start(s, env).keys
  {
    if env.book.Book? {
      var checkWatch := s.watch.keys != [] && WatchDue(s.watchCheckedAt, env.now);
      var stamped := if checkWatch then s.(watchCheckedAt := Some(env.now)) else s;
      var entries := env.book.entries;
      UnconfirmedAppends(Items(s.unconfirmed), entries, Resolved(stamped, []));
      var r := ResolveUnconfirmed(Items(s.unconfirmed), entries, Resolved(stamped, []));
      WatchAppends(Items(s.watch), entries, r.state, env.estimate);
    }
  }

  lemma PrefixKeepsPlace<T>(s: seq<T>, t: seq<T>, x: T)
    requires s <= t && x in s
    ensures x in t && IndexOf(t, x) == IndexOf(s, x)
  {
    assert t == s + t[|s|..];
    IndexOfAppend(s, t[|s|..], x);
  }

  /** A sweep is aborted by an auth error, or by an exception nothing on the path catches. */
  predicate Aborted(r: Raised) {
    r.AuthError? || r.UncaughtError?
  }

  /** The operations that can come between a pending order and its next poll. */
  datatype Op = Polling(env: Env) | Placing(order: Order, http: Http<PlaceBody>)

  ghost function Do(s: State, op: Op): State {
    match op
    case Polling(env) => PollFills(s, env).state
    case Placing(o, http) =>
      match SendResult(Classified(http, true))
      case Placed(id) => RecordPlaced(s, o, id)
      case PlacementAmbiguous => RecordAmbiguous(s, o)
      case _ => s
  }

  ghost predicate AsksNow(s: State, op: Op, x: BrokerId) {
    op.Polling? && x in PollFills(s, op.env).calls
  }

  ghost predicate Asked(s: State, ops: seq<Op>, x: BrokerId)
    decreases |ops|
  {
    ops != [] && (AsksNow(s, ops[0], x) || Asked(Do(s, ops[0]), ops[1..], x))
  }

  /** How many polls of a run are not aborted. */
  ghost function Sweeps(s: State, ops: seq<Op>): nat
    decreases |ops|
  {
    if ops == [] then 0
    else
      (if ops[0].Polling? && !Aborted(PollFills(s, ops[0].env).raised) then 1 else 0) + Sweeps(Do(s, ops[0]), ops[1..])
  }

  lemma PollKeepsPlace(s: State, env: Env, x: BrokerId)
    requires x in s.pending.keys && x !in PollFills(s, env).calls
    ensures var k := PollFills(s, env).state.pending.keys;
      && x in k
      && IndexOf(k, x) <= IndexOf(s.pending.keys, x)
      && (!Aborted(PollFills(s, env).raised) ==> IndexOf(k, x) < IndexOf(s.pending.keys, x))
  {
    var p := Start(s, env);
    LookUpAppends(s, env);
    PrefixKeepsPlace(s.pending.keys, p.keys, x);
    if !LookUp(s, env).denied {
      PollIsReading(s, env);
      KeysHaveValues(p);
      PassedOverMovesUp(p.keys, p, env, x);
      var e := Reading(s, env);
      assert e.stop == ByOutage || e.stop == ByAuth || e.stop == ByUncaught;
    }
  }

  lemma OneOpKeepsPlace(s: State, op: Op, x: BrokerId)
    requires x in s.pending.keys && !AsksNow(s, op, x)
    ensures var k := Do(s, op).pending.keys;
      && x in k
      && IndexOf(k, x) <= IndexOf(s.pending.keys, x)
      && (op.Polling? && !Aborted(PollFills(s, op.env).raised) ==> IndexOf(k, x) < IndexOf(s.pending.keys, x))
  {
    match op
    case Polling(env) =>
      PollKeepsPlace(s, env, x);
    case Placing(o, http) =>
      PrefixKeepsPlace(s.pending.keys, Do(s, op).pending.keys, x);
  }

  /** No starvation: an order at index k is asked about within k+1 sweeps that are not aborted,
      whatever Upstox replies, whatever is placed meanwhile and however many aborted sweeps lie in
      between. */
  lemma {:induction false} NoStarvation(s: State, ops: seq<Op>, x: BrokerId)
    requires x in s.pending.keys
    requires Sweeps(s, ops) > IndexOf(s.pending.keys, x)
    ensures Asked(s, ops, x)
    decreases |ops|
  {
    if !AsksNow(s, ops[0], x) {
      OneOpKeepsPlace(s, ops[0], x);
      NoStarvation(Do(s, ops[0]), ops[1..], x);
    }
  }

  // ---- the report

  /** Ids of the pending orders a sweep goes past before it stops, if it does. */
  ghost predicate Reached(s: State, env: Env, id: BrokerId) {
    id in PollFills(s, env).calls && id in Start(s, env).vals
  }

  ghost function VerdictOn(s: State, env: Env, id: BrokerId): Verdict
    requires Reached(s, env, id)
  {
    PolledIn(Start(s, env), id, env).verdict
  }

  /** Nothing went wrong anywhere in the poll. */
  ghost predicate Clean(s: State, env: Env) {
    && !LookUp(s, env).denied && LookUp(s, env).unavailable == [] && LookUp(s, env).contract == []
    && LookUp(s, env).state.unconfirmed.keys == []
    && forall id :: id in Start(s, env).keys ==>
         id in Start(s, env).vals && PolledIn(Start(s, env), id, env).verdict in {Live, Complete}
  }

  lemma {:induction false} QuietMeansClean(ids: seq<BrokerId>, p: Pending, env: Env)
    requires forall id :: id in ids ==> id in p.vals
    ensures var e := Expected(ids, p, env);
      (e.stop.Going? && e.contract == [] && e.unavailable == [] && e.ended == []) <==>
      (forall id :: id in ids ==> PolledIn(p, id, env).verdict in {Live, Complete})
  {
    if ids != [] {
      assert ids[0] in ids;
      if !Stops(PolledIn(p, ids[0], env).verdict) {
        QuietMeansClean(ids[1..], p, env);
        assert forall id :: id in ids <==> id == ids[0] || id in ids[1..];
      }
    }
  }

  /** A poll returns normally exactly when it found no problem and no placement is unconfirmed. */
  lemma SilenceMeansClean(s: State, env: Env)
    ensures PollFills(s, env).raised == Nothing <==> Clean(s, env)
  {
    var look := LookUp(s, env);
    if !look.denied {
      var e, raised := Reading(s, env), PollFills(s, env).raised;
      PollIsReading(s, env);
      KeysHaveValues(look.state.pending);
      QuietMeansClean(look.state.pending.keys, look.state.pending, env);
      OutageIsNoted(look.state.pending.keys, look.state.pending, env);
      BothEmpty(look.contract, e.contract);
      BothEmpty(look.unavailable, e.unavailable);
      assert PollFills(s, env).state.unconfirmed == look.state.unconfirmed;
      assert raised == Nothing <==>
        e.stop.Going? && look.state.unconfirmed.keys == [] && look.contract == [] && look.unavailable == []
        && e.contract == [] && e.unavailable == [] && e.ended == [];
    }
  }

  lemma BothEmpty<T>(a: seq<T>, b: seq<T>)
    ensures a + b == [] <==> a == [] && b == []
  {
    assert |a + b| == |a| + |b|;
  }

  lemma {:induction false} OutageIsNoted(ids: seq<BrokerId>, p: Pending, env: Env)
    requires forall id :: id in ids ==> id in p.vals
    ensures Expected(ids, p, env).stop == ByOutage <==> Expected(ids, p, env).unavailable != []
    ensures var e := Expected(ids, p, env);
      e.stop == ByOutage ==>
        && e.calls != [] && |e.calls| <= |ids|
        && e.unavailable == [Troubled(e.calls[|e.calls| - 1])]
                            + if |e.calls| < |ids| then [Skipped(|ids| - |e.calls|)] else []
  {
    if ids != [] && !Stops(PolledIn(p, ids[0], env).verdict) {
      OutageIsNoted(ids[1..], p, env);
    }
  }

  /** The orders a poll found ended rejected or cancelled, in the order it asked about them. */
  ghost function EndedBy(s: State, env: Env): seq<EndedOrder> {
    KeysHaveValues(Start(s, env));
    if LookUp(s, env).denied then [] else EndedAmong(PollFills(s, env).calls, Start(s, env), env)
  }

  function EndedAmong(calls: seq<BrokerId>, p: Pending, env: Env): seq<EndedOrder> {
    if calls == [] then []
    else
      (if calls[0] in p.vals && PolledIn(p, calls[0], env).verdict.EndedUnfilled?
       then [PolledIn(p, calls[0], env).verdict.ended] else [])
      + EndedAmong(calls[1..], p, env)
  }

  function Carried(r: Raised): seq<EndedOrder> {
    match r
    case ContractError(nf) => nf
    case AmbiguousError(nf) => nf
    case UnavailableError(nf) => nf
    case NotFilledError(nf) => nf
    case _ => []
  }

  lemma {:induction false} EndedIsEndedAmong(ids: seq<BrokerId>, p: Pending, env: Env)
    requires forall id :: id in ids ==> id in p.vals
    ensures Expected(ids, p, env).ended == EndedAmong(Expected(ids, p, env).calls, p, env)
  {
    if ids != [] {
      var calls := Expected(ids, p, env).calls;
      if Stops(PolledIn(p, ids[0], env).verdict) {
        assert calls[1..] == [];
      } else {
        EndedIsEndedAmong(ids[1..], p, env);
        assert calls[1..] == Expected(ids[1..], p, env).calls;
      }
    }
  }

  /** A reply, or the order book, could not be trusted. */
  ghost predicate Untrusted(s: State, env: Env) {
    LookUp(s, env).contract != [] || exists id :: Reached(s, env, id) && VerdictOn(s, env, id).Contract?
  }

  /** Upstox could not be reached for the order book or an order. */
  ghost predicate Unreached(s: State, env: Env) {
    LookUp(s, env).unavailable != [] || exists id :: Reached(s, env, id) && VerdictOn(s, env, id).Deferred?
  }

  ghost predicate Unresolved(s: State, env: Env) {
    PollFills(s, env).state.unconfirmed.keys != []
  }

  lemma {:induction false} OutageIsDeferred(ids: seq<BrokerId>, p: Pending, env: Env)
    requires forall id :: id in ids ==> id in p.vals
    ensures var e := Expected(ids, p, env);
      && (forall id :: id in e.calls ==> id in p.vals)
      && (e.stop == ByOutage <==> exists id :: id in e.calls && PolledIn(p, id, env).verdict.Deferred?)
  {
    if ids != [] {
      assert ids[0] in p.vals;
      if !Stops(PolledIn(p, ids[0], env).verdict) {
        OutageIsDeferred(ids[1..], p, env);
        var rest := Expected(ids[1..], p, env).calls;
        assert forall id :: id in Expected(ids, p, env).calls <==> id == ids[0] || id in rest;
      }
    }
  }

  lemma {:induction false} ContractIsNoted(ids: seq<BrokerId>, p: Pending, env: Env)
    requires forall id :: id in ids ==> id in p.vals
    ensures var e := Expected(ids, p, env);
      && (forall id :: id in e.calls ==> id in p.vals)
      && (e.contract != [] <==> exists id :: id in e.calls && PolledIn(p, id, env).verdict.Contract?)
      && (forall id :: Troubled(id) in e.contract <==> id in e.calls && PolledIn(p, id, env).verdict.Contract?)
  {
    if ids != [] {
      assert ids[0] in p.vals;
      if !Stops(PolledIn(p, ids[0], env).verdict) {
        ContractIsNoted(ids[1..], p, env);
        var rest := Expected(ids[1..], p, env).calls;
        assert forall id :: id in Expected(ids, p, env).calls <==> id == ids[0] || id in rest;
      }
    }
  }
}
