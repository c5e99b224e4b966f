/** What aborts a poll, and what an aborted poll loses: over the orders polled and Upstox's replies. */
module AbortLaws {
  import opened InsertionDict
  import opened Orders
  import opened FillPoll
  import opened SweepLaws
  import opened PollLaws
  import opened BookLaws
  import opened LookUpLaws

  // ---- what each reply does

  /** A newly filled quantity with an average price too large to convert. */
  predicate Oversized(t: Tracked, reply: Reply) {
    && reply.Details? && reply.average.Huge?
    && FilledQuantity(reply.filled).Some?
    && t.filled < FilledQuantity(reply.filled).value <= t.order.quantity
  }

  predicate Aborting(t: Tracked, reply: Reply) {
    reply.AuthDenied? || Oversized(t, reply)
  }

  /** The sweep goes on to the next order. */
  predicate GoesOn(t: Tracked, reply: Reply) {
    !reply.Unreachable? && !Aborting(t, reply)
  }

  predicate EndsUnfilled(t: Tracked, reply: Reply) {
    Acceptable(t, reply) && (reply.status == Some(Status.Rejected) || reply.status == Some(Status.Cancelled))
  }

  /** A reply that cannot be trusted: unusable, or one the poll cannot act on, or one whose status is unreadable or
      says complete before every unit is filled. */
  predicate Untrustworthy(t: Tracked, reply: Reply) {
    || reply.Unusable?
    || (reply.Details? && !Oversized(t, reply) && !Acceptable(t, reply))
    || (Acceptable(t, reply) && reply.status.None?)
    || (Acceptable(t, reply) && reply.status == Some(Status.Filled)
        && FilledQuantity(reply.filled) != Some(t.order.quantity))
  }

  /** A reply there is nothing to report about: the order is working, or complete with every unit filled. */
  predicate Fine(t: Tracked, reply: Reply) {
    Acceptable(t, reply)
    && match reply.status
       case Some(Submitted) => true
       case Some(Open) => true
       case Some(Filled) => FilledQuantity(reply.filled) == Some(t.order.quantity)
       case _ => false
  }

  /** Of a new quantity, the price of the new part is positive exactly when the order's value has grown. */
  lemma NewPriceIsPositive(t: Tracked, filled: int, average: real)
    requires filled > t.filled
    ensures FillPrice(t, filled, average) > 0.0 <==> filled as real * average > t.filled as real * t.average
  {
    var growth := filled as real * average - t.filled as real * t.average;
    assert FillPrice(t, filled, average) * (filled - t.filled) as real == growth;
  }

  lemma VerdictsMean(id: BrokerId, t: Tracked, reply: Reply, estimate: Estimate)
    ensures var v := PollOrder(id, t, reply, estimate).verdict;
      && (v.AuthFailed? <==> reply.AuthDenied?)
      && (v.Uncaught? <==> Oversized(t, reply))
      && (v.Deferred? <==> reply.Unreachable?)
      && (v.EndedUnfilled? <==> EndsUnfilled(t, reply))
      && (Stops(v) <==> !GoesOn(t, reply))
      && (v.Contract? <==> Untrustworthy(t, reply))
      && (v.Live? || v.Complete? <==> Fine(t, reply))
      && (v.Live? <==> Acceptable(t, reply) && (reply.status == Some(Submitted) || reply.status == Some(Open)))
  {
  }

  // ---- what aborts a sweep

  /** The order at index `i` aborts a sweep over `ids`: every order before it lets the sweep go on. */
  predicate AbortAmong(ids: seq<BrokerId>, p: Pending, env: Env, i: nat) {
    && i < |ids| && (forall j :: 0 <= j <= i ==> ids[j] in p.vals)
    && Aborting(p.vals[ids[i]], env.wire(ids[i]))
    && forall j :: 0 <= j < i ==> GoesOn(p.vals[ids[j]], env.wire(ids[j]))
  }

  predicate EndedAt(ids: seq<BrokerId>, p: Pending, env: Env, j: nat) {
    j < |ids| && ids[j] in p.vals && EndsUnfilled(p.vals[ids[j]], env.wire(ids[j]))
  }

  lemma AbortAmongRest(ids: seq<BrokerId>, p: Pending, env: Env, i: nat)
    requires ids != [] && ids[0] in p.vals && GoesOn(p.vals[ids[0]], env.wire(ids[0]))
    ensures AbortAmong(ids[1..], p, env, i) ==> AbortAmong(ids, p, env, i + 1)
    ensures i > 0 && AbortAmong(ids, p, env, i) ==> AbortAmong(ids[1..], p, env, i - 1)
  {
    var rest := ids[1..];
    if AbortAmong(rest, p, env, i) {
      forall j | 0 < j <= i + 1
        ensures ids[j] == rest[j - 1]
      {
      }
    }
    if i > 0 && AbortAmong(ids, p, env, i) {
      forall j | 0 <= j < i
        ensures rest[j] == ids[j + 1]
      {
      }
    }
  }

  /** An aborted sweep was aborted by some order. */
  lemma {:induction false} AbortHasIndex(ids: seq<BrokerId>, p: Pending, env: Env) returns (i: nat)
    requires forall id :: id in ids ==> id in p.vals
    requires Expected(ids, p, env).stop in {ByAuth, ByUncaught}
    ensures AbortAmong(ids, p, env, i)
  {
    VerdictsMean(ids[0], p.vals[ids[0]], env.wire(ids[0]), env.estimate);
    if Stops(PolledIn(p, ids[0], env).verdict) {
      i := 0;
    } else {
      var k := AbortHasIndex(ids[1..], p, env);
      AbortAmongRest(ids, p, env, k);
      i := k + 1;
    }
  }

  /** And an order that aborts a sweep decides how it stops. */
  lemma {:induction false} AbortDecides(ids: seq<BrokerId>, p: Pending, env: Env, i: nat)
    requires (forall id :: id in ids ==> id in p.vals) && AbortAmong(ids, p, env, i)
    ensures Expected(ids, p, env).stop == if env.wire(ids[i]).AuthDenied? then ByAuth else ByUncaught
    ensures Expected(ids, p, env).ended != [] <==> exists j: nat :: j < i && EndedAt(ids, p, env, j)
    decreases i
  {
    VerdictsMean(ids[0], p.vals[ids[0]], env.wire(ids[0]), env.estimate);
    if i > 0 {
      AbortAmongRest(ids, p, env, i);
      AbortDecides(ids[1..], p, env, i - 1);
      EndedAmongRest(ids, p, env, i);
      assert EndedAt(ids, p, env, 0) <==> PolledIn(p, ids[0], env).verdict.EndedUnfilled?;
    }
  }

  lemma EndedAmongRest(ids: seq<BrokerId>, p: Pending, env: Env, i: nat)
    requires 0 < i < |ids|
    ensures (exists j: nat :: j < i && EndedAt(ids, p, env, j)) <==>
            EndedAt(ids, p, env, 0) || exists j: nat :: j < i - 1 && EndedAt(ids[1..], p, env, j)
  {
    var rest := ids[1..];
    if j: nat :| j < i && EndedAt(ids, p, env, j) {
      if j > 0 {
        assert EndedAt(rest, p, env, j - 1);
      }
    }
    if j: nat :| j < i - 1 && EndedAt(rest, p, env, j) {
      assert EndedAt(ids, p, env, j + 1);
    }
  }

  // ---- what aborts a poll

  /** The poll needs the order book and is denied it. */
  predicate BookDenies(s: State, env: Env) {
    env.book.BookDenied?
    && (s.unconfirmed.keys != [] || (s.watch.keys != [] && CheckDue(s, env)))
  }

  /** The order at index `i`, of those pending when the sweep starts, aborts it. */
  ghost predicate AbortsAt(s: State, env: Env, i: nat) {
    AbortAmong(Start(s, env).keys, Start(s, env), env, i)
  }

  ghost predicate EndsAt(s: State, env: Env, j: nat) {
    EndedAt(Start(s, env).keys, Start(s, env), env, j)
  }

  ghost predicate SweepAborts(s: State, env: Env) {
    exists i: nat :: AbortsAt(s, env, i)
  }

  /** Which replies abort a poll: a 401 or 403 to the order book it needs, or, from the first order on that
      does not let the sweep go on, a 401 or 403 or an oversized price. */
  lemma AbortedExactly(s: State, env: Env)
    ensures Aborted(PollFills(s, env).raised) <==> BookDenies(s, env) || SweepAborts(s, env)
  {
    var p := Start(s, env);
    if !BookDenies(s, env) {
      PollIsReading(s, env);
      KeysHaveValues(p);
      if i: nat :| AbortsAt(s, env, i) {
        AbortDecides(p.keys, p, env, i);
      }
      if Aborted(PollFills(s, env).raised) {
        var i := AbortHasIndex(p.keys, p, env);
        assert AbortsAt(s, env, i);
      }
    }
  }

  /** When an exception that nothing catches escapes a poll: the order that aborts it is newly filled at a
      price too large to convert. */
  lemma UncaughtExactly(s: State, env: Env)
    ensures PollFills(s, env).raised.UncaughtError? <==>
            !BookDenies(s, env)
            && exists i: nat :: AbortsAt(s, env, i) && !env.wire(Start(s, env).keys[i]).AuthDenied?
  {
    var p := Start(s, env);
    if !BookDenies(s, env) {
      PollIsReading(s, env);
      KeysHaveValues(p);
      if i: nat :| AbortsAt(s, env, i) && !env.wire(p.keys[i]).AuthDenied? {
        AbortDecides(p.keys, p, env, i);
      }
      if PollFills(s, env).raised.UncaughtError? {
        var i := AbortHasIndex(p.keys, p, env);
        AbortDecides(p.keys, p, env, i);
        assert AbortsAt(s, env, i);
      }
    }
  }

  /** Such a poll exists: one unit of five newly filled, at an average price too large for a float. */
  lemma OversizedPriceEscapes(id: BrokerId, o: Order, env: Env)
    requires o.quantity == 5 && env.wire(id) == Details(Number(1.0), Huge, None)
    ensures var s := State(Put(Empty(), id, Tracked(o, 0, 0.0, 0.0)), Empty(), Empty(), None);
      PollFills(s, env).raised == UncaughtError
  {
    var s := State(Put(Empty(), id, Tracked(o, 0, 0.0, 0.0)), Empty(), Empty(), None);
    assert Start(s, env).keys == [id];
    assert Whole(1.0) == Some(1);
    assert AbortsAt(s, env, 0);
    UncaughtExactly(s, env);
  }

  // ---- what an aborted poll loses

  /** Every order that ended rejected or cancelled in a poll is carried on what the poll raises, whatever
      kind that is, exactly unless the order that aborts the sweep has one that ended in front of it. */
  lemma EndedOrdersAreCarried(s: State, env: Env)
    ensures Carried(PollFills(s, env).raised) == EndedBy(s, env) <==>
            BookDenies(s, env) || !exists i: nat, j: nat :: j < i && AbortsAt(s, env, i) && EndsAt(s, env, j)
  {
    if !BookDenies(s, env) {
      if i: nat, j: nat :| j < i && AbortsAt(s, env, i) && EndsAt(s, env, j) {
        AbortLoses(s, env, i, j);
      }
      if Carried(PollFills(s, env).raised) != EndedBy(s, env) {
        var i, j := LostByAbort(s, env);
      }
    }
  }

  lemma ReportIsReading(s: State, env: Env) returns (e: Effect)
    requires !BookDenies(s, env)
    ensures KeysAreThere(Start(s, env)) && e == Expected(Start(s, env).keys, Start(s, env), env)
    ensures EndedBy(s, env) == e.ended
    ensures Carried(PollFills(s, env).raised) == if e.stop in {ByAuth, ByUncaught} then [] else e.ended
  {
    var p := Start(s, env);
    PollIsReading(s, env);
    KeysHaveValues(p);
    EndedIsEndedAmong(p.keys, p, env);
    e := Reading(s, env);
  }

  ghost predicate KeysAreThere(p: Pending) {
    forall id :: id in p.keys ==> id in p.vals
  }

  lemma AbortLoses(s: State, env: Env, i: nat, j: nat)
    requires !BookDenies(s, env) && j < i && AbortsAt(s, env, i) && EndsAt(s, env, j)
    ensures Carried(PollFills(s, env).raised) != EndedBy(s, env)
  {
    var p := Start(s, env);
    var e := ReportIsReading(s, env);
    AbortDecides(p.keys, p, env, i);
    assert EndedAt(p.keys, p, env, j);
  }

  lemma LostByAbort(s: State, env: Env) returns (i: nat, j: nat)
    requires !BookDenies(s, env) && Carried(PollFills(s, env).raised) != EndedBy(s, env)
    ensures j < i && AbortsAt(s, env, i) && EndsAt(s, env, j)
  {
    var p := Start(s, env);
    var e := ReportIsReading(s, env);
    i := AbortHasIndex(p.keys, p, env);
    AbortDecides(p.keys, p, env, i);
    j :| j < i && EndedAt(p.keys, p, env, j);
  }

  /** Such a poll exists: the first order ends rejected, the second is answered with a 401, and no error
      carries the rejection. */
  lemma AbortLosesEndedOrder(a: BrokerId, b: BrokerId, o: Order, q: Order, env: Env)
    requires a != b && o.quantity > 0
    requires env.wire(a) == Details(Number(0.0), Null, Some(Status.Rejected)) && env.wire(b) == AuthDenied
    ensures var p := Put(Put(Empty(), a, Tracked(o, 0, 0.0, 0.0)), b, Tracked(q, 0, 0.0, 0.0));
      var s := State(p, Empty(), Empty(), None);
      && EndedBy(s, env) == [EndedOrder(o.cid, Status.Rejected, a, 0)]
      && PollFills(s, env).state.pending.keys == [b]
      && PollFills(s, env).raised == AuthError
  {
    var p := Put(Put(Empty(), a, Tracked(o, 0, 0.0, 0.0)), b, Tracked(q, 0, 0.0, 0.0));
    var s := State(p, Empty(), Empty(), None);
    assert p.keys == [a, b];
    assert FilledQuantity(Number(0.0)) == Some(0);
    EndedThenDenied(p, a, b, env, EndedOrder(o.cid, Status.Rejected, a, 0));
    PollIsReading(s, env);
  }

  lemma EndedThenDenied(p: Pending, a: BrokerId, b: BrokerId, env: Env, e: EndedOrder)
    requires a in p.vals && b in p.vals
    requires PolledIn(p, a, env).verdict == EndedUnfilled(e) && PolledIn(p, b, env).verdict == AuthFailed
    ensures var x := Expected([a, b], p, env); x.calls == [a, b] && x.keys == [b] && x.stop == ByAuth
    ensures EndedAmong([a, b], p, env) == [e]
  {
    assert [a, b][1..] == [b] && [b][1..] == [];
    assert Expected([b], p, env) == Halt(b, AuthFailed, []);
    assert EndedAmong([b], p, env) == [];
    assert EndedAmong([a, b], p, env) == [e] + EndedAmong([b], p, env);
  }

  /** The order book was needed and cannot be trusted: unusable, or showing an unconfirmed placement twice. */
  ghost predicate BookUntrusted(s: State, env: Env) {
    s.unconfirmed.keys != []
    && (env.book.BookUnusable? || (env.book.Book? && SomeTwice(s, env.book.entries)))
  }

  /** Something asked about gave a reply that cannot be trusted. */
  ghost predicate SomeUntrusted(s: State, env: Env) {
    BookUntrusted(s, env)
    || exists id :: Reached(s, env, id) && Untrustworthy(Start(s, env).vals[id], env.wire(id))
  }

  /** Something asked about was out of reach. */
  ghost predicate SomeUnreachable(s: State, env: Env) {
    (s.unconfirmed.keys != [] && env.book.BookUnreachable?)
    || exists id :: Reached(s, env, id) && env.wire(id).Unreachable?
  }

  lemma ReachedMeans(s: State, env: Env, id: BrokerId)
    requires Reached(s, env, id)
    ensures VerdictOn(s, env, id).Contract? <==> Untrustworthy(Start(s, env).vals[id], env.wire(id))
    ensures VerdictOn(s, env, id).Deferred? <==> env.wire(id).Unreachable?
  {
    VerdictsMean(id, Start(s, env).vals[id], env.wire(id), env.estimate);
  }

  lemma ProblemsMean(s: State, env: Env)
    ensures Untrusted(s, env) <==> SomeUntrusted(s, env)
    ensures Unreached(s, env) <==> SomeUnreachable(s, env)
  {
    LookUpReports(s, env);
    forall id | Reached(s, env, id)
      ensures VerdictOn(s, env, id).Contract? <==> Untrustworthy(Start(s, env).vals[id], env.wire(id))
      ensures VerdictOn(s, env, id).Deferred? <==> env.wire(id).Unreachable?
    {
      ReachedMeans(s, env, id);
    }
  }

  /** Otherwise the most severe kind present is the one raised: an untrusted reply, then an unconfirmed
      placement, then an outage, then an order ended unfilled. */
  lemma MostSevereIsRaised(s: State, env: Env)
    requires !BookDenies(s, env) && !SweepAborts(s, env)
    ensures var raised := PollFills(s, env).raised;
      && (raised.ContractError? <==> SomeUntrusted(s, env))
      && (raised.AmbiguousError? <==> !SomeUntrusted(s, env) && Unresolved(s, env))
      && (raised.UnavailableError? <==> !SomeUntrusted(s, env) && !Unresolved(s, env) && SomeUnreachable(s, env))
      && (raised.NotFilledError? <==>
            && !SomeUntrusted(s, env) && !Unresolved(s, env) && !SomeUnreachable(s, env)
            && EndedBy(s, env) != [])
  {
    AbortedExactly(s, env);
    ReportIsRanked(s, env);
    ProblemsMean(s, env);
  }

  /** A poll returns normally exactly when the order book, if anything is unconfirmed, can be read and shows each
      unconfirmed placement once, no due check is denied the book, and there is nothing to report about any order. */
  lemma SilenceExactly(s: State, env: Env)
    ensures PollFills(s, env).raised == Nothing <==>
            && !BookDenies(s, env)
            && (s.unconfirmed.keys != [] ==> env.book.Book?)
            && (forall c :: c in s.unconfirmed.vals ==>
                  env.book.Book? && exists id :: ShownOnce(env.book.entries, s.unconfirmed.vals[c], id))
            && forall id :: id in Start(s, env).keys ==>
                 id in Start(s, env).vals && Fine(Start(s, env).vals[id], env.wire(id))
  {
    SilenceMeansClean(s, env);
    LookUpReports(s, env);
    NoneLeftUnconfirmed(s, env);
    KeysHaveValues(Start(s, env));
    forall id | id in Start(s, env).keys
      ensures PolledIn(Start(s, env), id, env).verdict in {Live, Complete} <==>
              Fine(Start(s, env).vals[id], env.wire(id))
    {
      VerdictsMean(id, Start(s, env).vals[id], env.wire(id), env.estimate);
    }
    if env.book.Book? && SomeTwice(s, env.book.entries) {
      var c :| c in s.unconfirmed.vals && ShownTwice(env.book.entries, s.unconfirmed.vals[c]);
      MatchesMean(env.book.entries, s.unconfirmed.vals[c]);
      OneOrNot(env.book.entries, s.unconfirmed.vals[c]);
    }
  }

  lemma NoneLeftUnconfirmed(s: State, env: Env)
    ensures LookUp(s, env).state.unconfirmed.keys == [] <==>
            forall c :: c in s.unconfirmed.vals ==>
              env.book.Book? && exists id :: ShownOnce(env.book.entries, s.unconfirmed.vals[c], id)
    ensures s.unconfirmed.keys != [] <==> exists c :: c in s.unconfirmed.vals
  {
    var u, v := s.unconfirmed, LookUp(s, env).state.unconfirmed;
    KeyedIffHeld(u);
    KeyedIffHeld(v);
    NoneAdded(s, env);
    if env.book.Book? {
      forall c | c in u.vals
        ensures c !in v.vals <==> exists id :: ShownOnce(env.book.entries, u.vals[c], id)
      {
        ConfirmedIff(s, env, c);
      }
    }
  }

  lemma KeyedIffHeld(d: Unconfirmed)
    ensures d.keys != [] <==> exists c :: c in d.vals
  {
    if d.keys != [] {
      KeysAndValues(d, d.keys[0]);
    }
    if c :| c in d.vals {
      KeysAndValues(d, c);
    }
  }

  lemma NoneAdded(s: State, env: Env)
    ensures !env.book.Book? ==> LookUp(s, env).state.unconfirmed == s.unconfirmed
    ensures forall c :: c in LookUp(s, env).state.unconfirmed.vals ==> c in s.unconfirmed.vals
  {
    if env.book.Book? {
      forall c | c in LookUp(s, env).state.unconfirmed.vals
        ensures c in s.unconfirmed.vals
      {
        LookUpAddsNone(s, env, c);
      }
    }
  }

  lemma ReportIsRanked(s: State, env: Env)
    requires !Aborted(PollFills(s, env).raised)
    ensures var raised := PollFills(s, env).raised;
      && (raised.ContractError? <==> Untrusted(s, env))
      && (raised.AmbiguousError? <==> !Untrusted(s, env) && Unresolved(s, env))
      && (raised.UnavailableError? <==> !Untrusted(s, env) && !Unresolved(s, env) && Unreached(s, env))
      && (raised.NotFilledError? <==>
            !Untrusted(s, env) && !Unresolved(s, env) && !Unreached(s, env) && EndedBy(s, env) != [])
  {
    var p := Start(s, env);
    var e := Reading(s, env);
    PollIsReading(s, env);
    KeysHaveValues(p);
    EndedIsEndedAmong(p.keys, p, env);
    ContractIsNoted(p.keys, p, env);
    OutageIsNoted(p.keys, p, env);
    OutageIsDeferred(p.keys, p, env);
    BothEmpty(LookUp(s, env).contract, e.contract);
    BothEmpty(LookUp(s, env).unavailable, e.unavailable);
    if e.contract != [] {
      var id :| id in e.calls && PolledIn(p, id, env).verdict.Contract?;
      assert Reached(s, env, id) && VerdictOn(s, env, id).Contract?;
    }
    if e.unavailable != [] {
      var id :| id in e.calls && PolledIn(p, id, env).verdict.Deferred?;
      assert Reached(s, env, id) && VerdictOn(s, env, id).Deferred?;
    }
  }

  // ---- an order whose reply aborts every sweep

  /** A sweep that `x` would abort asks about no order behind `x`, and leaves both where they were. */
  lemma {:induction false} NothingPasses(ids: seq<BrokerId>, p: Pending, env: Env, x: BrokerId, y: BrokerId)
    requires (forall id :: id in ids ==> id in p.vals) && NoDup(ids)
    requires x in ids && y in ids && IndexOf(ids, x) < IndexOf(ids, y)
    requires Aborting(p.vals[x], env.wire(x))
    ensures var e := Expected(ids, p, env);
      && y !in e.calls && x in e.keys && y in e.keys && IndexOf(e.keys, x) < IndexOf(e.keys, y)
      && (ids[0] == x ==> e.keys == ids && e.stop in {ByAuth, ByUncaught})
  {
    var id, rest := ids[0], ids[1..];
    VerdictsMean(id, p.vals[id], env.wire(id), env.estimate);
    assert y != id;
    if id == x {
      assert [id] + rest == ids;
    } else {
      assert x in rest && y in rest;
      if Stops(PolledIn(p, id, env).verdict) {
        IndexOfAppend(rest, [id], x);
        IndexOfAppend(rest, [id], y);
        assert [id] + rest == ids;
      } else {
        NothingPasses(rest, p, env, x, y);
        IndexOfCons(id, Expected(rest, p, env).keys, x);
        IndexOfCons(id, Expected(rest, p, env).keys, y);
      }
    }
  }

  /** `x` is polled ahead of `y`. */
  ghost predicate Ahead(s: State, x: BrokerId, y: BrokerId) {
    x in s.pending.keys && y in s.pending.keys && IndexOf(s.pending.keys, x) < IndexOf(s.pending.keys, y)
  }

  /** The reply about `x` aborts the poll's sweep, if there is one and it reaches `x`. */
  ghost predicate AbortsPoll(s: State, env: Env, x: BrokerId) {
    !LookUp(s, env).denied ==> x in Start(s, env).vals && Aborting(Start(s, env).vals[x], env.wire(x))
  }

  /** And so for every poll of a run of polls and placements. */
  ghost predicate AbortsEach(s: State, ops: seq<Op>, x: BrokerId)
    decreases |ops|
  {
    ops == [] || ((ops[0].Polling? ==> AbortsPoll(s, ops[0].env, x)) && AbortsEach(Do(s, ops[0]), ops[1..], x))
  }

  lemma PollStaysBehind(s: State, env: Env, x: BrokerId, y: BrokerId)
    requires Ahead(s, x, y) && AbortsPoll(s, env, x)
    ensures Ahead(PollFills(s, env).state, x, y) && y !in PollFills(s, env).calls
    ensures s.pending.keys[0] == x ==>
              Aborted(PollFills(s, env).raised) && PollFills(s, env).state.pending.keys[0] == x
  {
    var p := Start(s, env);
    LookUpAppends(s, env);
    PrefixKeepsPlace(s.pending.keys, p.keys, x);
    PrefixKeepsPlace(s.pending.keys, p.keys, y);
    if !LookUp(s, env).denied {
      PollIsReading(s, env);
      KeysHaveValues(p);
      NothingPasses(p.keys, p, env, x, y);
    }
  }

  lemma OpStaysBehind(s: State, op: Op, x: BrokerId, y: BrokerId)
    requires Ahead(s, x, y) && (op.Polling? ==> AbortsPoll(s, op.env, x))
    ensures Ahead(Do(s, op), x, y) && !AsksNow(s, op, y)
    ensures s.pending.keys[0] == x ==>
              Do(s, op).pending.keys[0] == x && (op.Polling? ==> Aborted(PollFills(s, op.env).raised))
  {
    match op
    case Polling(env) => PollStaysBehind(s, env, x, y);
    case Placing(_, _) =>
      PrefixKeepsPlace(s.pending.keys, Do(s, op).pending.keys, x);
      PrefixKeepsPlace(s.pending.keys, Do(s, op).pending.keys, y);
  }

  /** While one order's reply aborts every sweep that reaches it, no order behind it is ever asked about, however
      many polls there are, whatever Upstox replies about every other order and shows in its book, and whatever is
      placed in between; and if it is the first, no sweep completes. */
  lemma {:induction false} AbortsStarve(s: State, ops: seq<Op>, x: BrokerId, y: BrokerId)
    requires Ahead(s, x, y) && AbortsEach(s, ops, x)
    ensures !Asked(s, ops, y)
    ensures s.pending.keys[0] == x ==> Sweeps(s, ops) == 0
    decreases |ops|
  {
    if ops != [] {
      OpStaysBehind(s, ops[0], x, y);
      AbortsStarve(Do(s, ops[0]), ops[1..], x, y);
    }
  }
}
