/** Every operation of the adapter keeps the ledger, the adapter and an honest Upstox in agreement. */
module WorldSteps {
  import opened InsertionDict
  import opened Orders
  import opened FillPoll
  import opened SweepLaws
  import opened World

  // ---- one turn of a sweep

  /** What an honest reply can make of one order's poll. */
  ghost predicate FairPoll(id: BrokerId, t: Tracked, p: Polled, b: BrokerOrder) {
    && p.entry.order == t.order
    && (p.fills == [] || |p.fills| == 1)
    && (p.fills == [] ==> p.entry == t)
    && (p.fills != [] ==>
          var f := p.fills[0];
          && f.cid == t.order.cid && f.id == FillId(id, p.entry.filled)
          && f.quantity == p.entry.filled - t.filled > 0
          && Value(f.quantity, f.price) == Value(p.entry.filled, p.entry.average) - Value(t.filled, t.average)
          && exists m: nat :: IsPrefix(b.execs, m, p.entry.filled, Value(p.entry.filled, p.entry.average)))
    && (Stops(p.verdict) ==> p.fills == [])
    && (Leaves(p.verdict) ==> b.ended.Some? && p.entry.filled == SumQ(b.execs))
  }

  lemma PollIsFair(id: BrokerId, t: Tracked, reply: Reply, estimate: Estimate, b: BrokerOrder)
    requires Truthful(reply, b) && t.filled >= 0
    ensures FairPoll(id, t, PollOrder(id, t, reply, estimate), b)
  {
    var p := PollOrder(id, t, reply, estimate);
    OnePoll(id, t, reply, estimate);
    if p.fills != [] {
      var m := EntryIsPrefix(id, t, reply, estimate, b);
    }
    if Leaves(p.verdict) {
      LeavingIsWhole(id, t, reply, estimate, b);
    }
  }

  lemma LeavingIsWhole(id: BrokerId, t: Tracked, reply: Reply, estimate: Estimate, b: BrokerOrder)
    requires Truthful(reply, b)
    requires Leaves(PollOrder(id, t, reply, estimate).verdict)
    ensures b.ended.Some? && PollOrder(id, t, reply, estimate).entry.filled == SumQ(b.execs)
  {
    var filled := FilledQuantity(reply.filled).value;
    assert Terminal(reply.status.value);
    var m: nat, v: real :| IsPrefix(b.execs, m, filled, v) && m == |b.execs| && b.ended == reply.status;
    assert b.execs[..m] == b.execs;
  }

  /** Booking a fill that extends one order's prefix leaves the ledger sound for every order. */
  lemma BookingKeepsLedger(l: Ledger, f: Fill, w: World, id: BrokerId)
    requires Honest(w) && LedgerOk(l, w) && id in w.broker && f.id !in l.ids
    requires f.cid == w.broker[id].order.cid && f.id == FillId(id, QtyIn(Insert(l, f), f.cid))
    requires Booked(Insert(l, f), w.broker[id])
    requires 0 <= QtyIn(l, f.cid) < QtyIn(Insert(l, f), f.cid) <= SumQ(w.broker[id].execs)
    ensures LedgerOk(Insert(l, f), w)
  {
    var l' := Insert(l, f);
    forall i | i in w.broker
      ensures Booked(l', w.broker[i])
      ensures w.broker[i].order in w.closed ==> Finished(l', w.broker[i])
    {
      if i != id {
        OtherTotals(l, f, w, id, i);
      }
    }
    forall c | !AtBroker(w, c)
      ensures NoFills(l', c)
    {
      assert c != f.cid;
    }
    forall g | g in l'.ids
      ensures Named(l', g, w)
    {
      assert g in l.ids ==> Named(l, g, w);
    }
  }

  /** Another order's totals, under an honest Upstox. */
  lemma OtherTotals(l: Ledger, f: Fill, w: World, id: BrokerId, i: BrokerId)
    requires Honest(w) && LedgerOk(l, w) && id in w.broker && i in w.broker && i != id
    requires f.cid == w.broker[id].order.cid
    ensures w.broker[i].order.cid != f.cid
    ensures QtyIn(Insert(l, f), w.broker[i].order.cid) == QtyIn(l, w.broker[i].order.cid)
    ensures Booked(Insert(l, f), w.broker[i])
  {
    var o, q := w.broker[i].order, w.broker[id].order;
    assert o in w.orders && q in w.orders;
    var m: nat :| IsPrefix(w.broker[i].execs, m, QtyIn(l, o.cid), ValueIn(l, o.cid));
    assert IsPrefix(w.broker[i].execs, m, QtyIn(Insert(l, f), o.cid), ValueIn(Insert(l, f), o.cid));
  }

  lemma TrackedIsCounted(s: State, l: Ledger, w: World, id: BrokerId)
    requires Good(s, l, w) && id in s.pending.vals
    ensures var t := s.pending.vals[id];
      && id in w.broker && w.broker[id].order == t.order && ExecsOk(w.broker[id]) && Booked(l, w.broker[id])
      && Agrees(l, t.order.cid, t.filled, t.average)
      && 0 <= t.filled <= SumQ(w.broker[id].execs)
  {
    var b := w.broker[id];
    var m: nat :| IsPrefix(b.execs, m, QtyIn(l, b.order.cid), ValueIn(l, b.order.cid));
    var q, v := QtyIn(l, b.order.cid), ValueIn(l, b.order.cid);
    PrefixesCompare(b, m, q, v, m, q, v);
  }

  /** The ledger after one turn of a sweep. */
  lemma TurnKeepsLedger(l: Ledger, w: World, id: BrokerId, t: Tracked, p: Polled)
    requires Honest(w) && LedgerOk(l, w) && id in w.broker && t.order == w.broker[id].order
    requires Agrees(l, t.order.cid, t.filled, t.average) && FairPoll(id, t, p, w.broker[id])
    ensures LedgerOk(Post(l, p.fills), w)
    ensures Agrees(Post(l, p.fills), p.entry.order.cid, p.entry.filled, p.entry.average)
    ensures forall i :: i in w.broker && i != id ==>
              QtyIn(Post(l, p.fills), w.broker[i].order.cid) == QtyIn(l, w.broker[i].order.cid)
    ensures forall c :: c != p.entry.order.cid ==>
              QtyIn(Post(l, p.fills), c) == QtyIn(l, c) && ValueIn(Post(l, p.fills), c) == ValueIn(l, c)
  {
    if p.fills != [] {
      assert p.fills == [] + [p.fills[0]];
      PostOne(l, [], p.fills[0]);
      FillKeepsLedger(l, w, id, t, p);
    }
  }

  lemma FillKeepsLedger(l: Ledger, w: World, id: BrokerId, t: Tracked, p: Polled)
    requires Honest(w) && LedgerOk(l, w) && id in w.broker && t.order == w.broker[id].order
    requires Agrees(l, t.order.cid, t.filled, t.average)
    requires FairPoll(id, t, p, w.broker[id]) && p.fills != []
    ensures var l' := Insert(l, p.fills[0]);
      && LedgerOk(l', w)
      && Agrees(l', t.order.cid, p.entry.filled, p.entry.average)
      && (forall i :: i in w.broker && i != id ==> QtyIn(l', w.broker[i].order.cid) == QtyIn(l, w.broker[i].order.cid))
  {
    var m: nat :| IsPrefix(w.broker[id].execs, m, p.entry.filled, Value(p.entry.filled, p.entry.average));
    HonestFillExtends(l, w, id, t, p.entry, p.fills[0], m);
    BookingKeepsLedger(l, p.fills[0], w, id);
    forall i | i in w.broker && i != id
      ensures QtyIn(Insert(l, p.fills[0]), w.broker[i].order.cid) == QtyIn(l, w.broker[i].order.cid)
    {
      OtherTotals(l, p.fills[0], w, id, i);
    }
  }

  /** The entries after one turn: the polled order's own is replaced or gone, the others are as they were. */
  ghost predicate TurnedTo(s: State, s': State, id: BrokerId, p: Polled) {
    && s' == s.(pending := s'.pending)
    && s'.pending.vals == if Leaves(p.verdict) then s.pending.vals - {id} else s.pending.vals[id := p.entry]
  }

  lemma TurnKeepsOnePlace(s: State, w: World, id: BrokerId, p: Polled, s': State)
    requires OnePlace(s) && Mine(s, w)
    requires id in s.pending.vals && p.entry.order == s.pending.vals[id].order && TurnedTo(s, s', id, p)
    ensures OnePlace(s') && Mine(s', w)
  {
    forall i | i in s'.pending.vals
      ensures i in s.pending.vals && s'.pending.vals[i].order == s.pending.vals[i].order
    {
    }
  }

  lemma TurnKeepsAgreement(s: State, l: Ledger, l': Ledger, id: BrokerId, p: Polled, s': State)
    requires OnePlace(s) && LedgerAgrees(s, l)
    requires id in s.pending.vals && p.entry.order == s.pending.vals[id].order && TurnedTo(s, s', id, p)
    requires Agrees(l', p.entry.order.cid, p.entry.filled, p.entry.average)
    requires forall c :: c != p.entry.order.cid ==> QtyIn(l', c) == QtyIn(l, c) && ValueIn(l', c) == ValueIn(l, c)
    ensures LedgerAgrees(s', l')
  {
    forall i | i in s'.pending.vals
      ensures Agrees(l', s'.pending.vals[i].order.cid, s'.pending.vals[i].filled, s'.pending.vals[i].average)
    {
      if i != id {
        assert s'.pending.vals[i] == s.pending.vals[i];
        assert s.pending.vals[i].order.cid != s.pending.vals[id].order.cid;
      }
    }
  }

  lemma TurnKeepsCover(s: State, l: Ledger, l': Ledger, w: World, id: BrokerId, p: Polled, s': State)
    requires Covered(s, l, w) && id in s.pending.vals && id in w.broker && TurnedTo(s, s', id, p)
    requires forall i :: i in w.broker && i != id ==>
               QtyIn(l', w.broker[i].order.cid) == QtyIn(l, w.broker[i].order.cid)
    requires Leaves(p.verdict) ==> Finished(l', w.broker[id])
    ensures Covered(s', l', w)
  {
    forall i | i in w.broker
      ensures Accounted(s', l', w, i)
    {
      assert Accounted(s, l, w, i);
    }
  }

  lemma TurnKeepsGood(s: State, l: Ledger, w: World, id: BrokerId, p: Polled, s': State)
    requires Good(s, l, w) && id in s.pending.vals && FairPoll(id, s.pending.vals[id], p, w.broker[id])
    requires TurnedTo(s, s', id, p)
    ensures Good(s', Post(l, p.fills), w)
  {
    TrackedIsCounted(s, l, w, id);
    TurnKeepsLedger(l, w, id, s.pending.vals[id], p);
    TurnKeepsOnePlace(s, w, id, p, s');
    TurnKeepsAgreement(s, l, Post(l, p.fills), id, p, s');
    TurnKeepsCover(s, l, Post(l, p.fills), w, id, p, s');
  }

  // ---- a whole sweep, and a crash anywhere in it

  lemma VisitExtends(r: Run, id: BrokerId, behind: nat, env: Env)
    requires id in r.pending.vals
    ensures r.fills <= Visit(r, id, behind, env).fills
  {
    PrefixOfSum(r.fills, PolledIn(r.pending, id, env).fills);
  }

  lemma PrefixTrans<T>(a: seq<T>, b: seq<T>, c: seq<T>)
    requires a <= b <= c
    ensures a <= c
  {
  }

  lemma {:induction false} SweepExtends(ids: seq<BrokerId>, r: Run, env: Env)
    requires CanSweep(ids, r)
    ensures r.fills <= Sweep(ids, r, env).fills
    decreases |ids|
  {
    if ids != [] && r.stop.Going? {
      assert ids[0..] == ids && ids[0] in ids;
      SweepTurn(ids, 0, r, env);
      var v := Visit(r, ids[0], |ids| - 1, env);
      VisitExtends(r, ids[0], |ids| - 1, env);
      SweepExtends(ids[1..], v, env);
      PrefixTrans(r.fills, v.fills, Sweep(ids, r, env).fills);
    }
  }

  /** The first turn of a sweep, apart from what the reply was. */
  lemma TurnShape(ids: seq<BrokerId>, r: Run, s: State, env: Env) returns (v: Run, p: Polled)
    requires CanSweep(ids, r) && ids != [] && r.stop.Going? && r.pending == s.pending
    ensures ids[0] in s.pending.vals && p == PolledIn(s.pending, ids[0], env)
    ensures TurnedTo(s, s.(pending := v.pending), ids[0], p)
    ensures v.fills == r.fills + p.fills
    ensures CanSweep(ids[1..], v) && Sweep(ids[1..], v, env) == Sweep(ids, r, env)
  {
    var id := ids[0];
    assert ids[0..] == ids && id in ids;
    SweepTurn(ids, 0, r, env);
    p := PolledIn(r.pending, id, env);
    v := Apply(r, id, |ids| - 1, p);
    OnePoll(id, s.pending.vals[id], env.wire(id), env.estimate);
    ApplyTurns(s, r, id, |ids| - 1, p);
  }

  lemma ApplyTurns(s: State, r: Run, id: BrokerId, behind: nat, p: Polled)
    requires id in r.pending.vals && r.pending == s.pending
    requires Stops(p.verdict) ==> p.entry == r.pending.vals[id]
    ensures TurnedTo(s, s.(pending := Apply(r, id, behind, p).pending), id, p)
    ensures Apply(r, id, behind, p).fills == r.fills + p.fills
  {
    assert Stops(p.verdict) ==> s.pending.vals[id := p.entry] == s.pending.vals;
  }

  /** The first turn of a sweep, with the reply of an honest Upstox. */
  lemma FirstTurn(ids: seq<BrokerId>, r: Run, s: State, l: Ledger, w: World, env: Env) returns (v: Run, p: Polled)
    requires CanSweep(ids, r) && ids != [] && r.stop.Going? && r.pending == s.pending
    requires TruthfulEnv(env, w) && Good(s, l, w)
    ensures ids[0] in s.pending.vals && ids[0] in w.broker
    ensures FairPoll(ids[0], s.pending.vals[ids[0]], p, w.broker[ids[0]])
    ensures TurnedTo(s, s.(pending := v.pending), ids[0], p)
    ensures v.fills == r.fills + p.fills
    ensures CanSweep(ids[1..], v) && Sweep(ids[1..], v, env) == Sweep(ids, r, env)
  {
    v, p := TurnShape(ids, r, s, env);
    TrackedIsCounted(s, l, w, ids[0]);
    PollIsFair(ids[0], s.pending.vals[ids[0]], env.wire(ids[0]), env.estimate, w.broker[ids[0]]);
  }

  lemma PostTurn(l: Ledger, a: seq<Fill>, b: seq<Fill>)
    requires b == [] || |b| == 1
    ensures Post(l, a + b) == Post(Post(l, a), b)
  {
    if b == [] {
      assert a + b == a;
    } else {
      assert b == [] + [b[0]];
      PostOne(l, a, b[0]);
      PostOne(Post(l, a), [], b[0]);
    }
  }

  lemma PrefixOfSum<T>(a: seq<T>, b: seq<T>)
    ensures a <= a + b
  {
  }

  /** The adapter and the ledger agree at this point of a sweep. */
  ghost predicate GoodAt(r: Run, s: State, l: Ledger, w: World) {
    Good(s.(pending := r.pending), Post(l, r.fills), w)
  }

  lemma TurnOfSweep(ids: seq<BrokerId>, r: Run, s: State, l: Ledger, w: World, env: Env) returns (v: Run)
    requires CanSweep(ids, r) && ids != [] && r.stop.Going?
    requires TruthfulEnv(env, w) && GoodAt(r, s, l, w)
    ensures CanSweep(ids[1..], v) && Sweep(ids[1..], v, env) == Sweep(ids, r, env)
    ensures GoodAt(v, s, l, w)
    ensures |v.fills| <= |r.fills| + 1
    ensures forall i :: i in r.pending.vals && i !in v.pending.vals ==> i in w.broker && w.broker[i].ended.Some?
  {
    var p;
    var now := s.(pending := r.pending);
    v, p := FirstTurn(ids, r, now, Post(l, r.fills), w, env);
    TurnKeepsGood(now, Post(l, r.fills), w, ids[0], p, s.(pending := v.pending));
    PostTurn(l, r.fills, p.fills);
  }

  lemma {:induction false} SweepKeepsGood(ids: seq<BrokerId>, r: Run, s: State, l: Ledger, w: World, env: Env)
    requires CanSweep(ids, r) && TruthfulEnv(env, w) && GoodAt(r, s, l, w)
    ensures GoodAt(Sweep(ids, r, env), s, l, w)
    decreases |ids|
  {
    if ids != [] && r.stop.Going? {
      var v := TurnOfSweep(ids, r, s, l, w, env);
      SweepKeepsGood(ids[1..], v, s, l, w, env);
    }
  }

  /** Only orders Upstox has ended leave the poll. */
  lemma {:induction false} SweepLeavesEnded(ids: seq<BrokerId>, r: Run, s: State, l: Ledger, w: World, env: Env,
                                            id: BrokerId)
    requires CanSweep(ids, r) && TruthfulEnv(env, w) && GoodAt(r, s, l, w)
    requires id in r.pending.vals && id !in Sweep(ids, r, env).pending.vals
    ensures id in w.broker && w.broker[id].ended.Some?
    decreases |ids|
  {
    if ids != [] && r.stop.Going? {
      var v := TurnOfSweep(ids, r, s, l, w, env);
      if id in v.pending.vals {
        SweepLeavesEnded(ids[1..], v, s, l, w, env, id);
      }
    }
  }

  /** However far a sweep has gone, what it has emitted is booked soundly. */
  lemma {:induction false} CrashKeepsLedger(ids: seq<BrokerId>, r: Run, s: State, l: Ledger, w: World, env: Env, k: nat)
    requires CanSweep(ids, r) && TruthfulEnv(env, w) && GoodAt(r, s, l, w)
    requires |r.fills| <= k <= |Sweep(ids, r, env).fills|
    ensures LedgerOk(Post(l, Sweep(ids, r, env).fills[..k]), w)
    decreases |ids|
  {
    SweepExtends(ids, r, env);
    if k == |r.fills| {
      assert Sweep(ids, r, env).fills[..k] == r.fills;
    } else if ids != [] && r.stop.Going? {
      var v := TurnOfSweep(ids, r, s, l, w, env);
      CrashKeepsLedger(ids[1..], v, s, l, w, env, k);
    }
  }

  // ---- taking an order into the poll

  /** `s'` polls `t` under `id`, and holds its order nowhere else. */
  ghost predicate Adopted(s: State, s': State, id: BrokerId, t: Tracked) {
    && s'.pending.vals == s.pending.vals[id := t]
    && s'.unconfirmed.vals == s.unconfirmed.vals - {t.order.cid}
    && s'.watch.vals == s.watch.vals - {t.order.cid}
  }

  lemma AdoptionIsNew(s: State, l: Ledger, w: World, id: BrokerId, o: Order)
    requires Good(s, l, w) && id in w.broker && w.broker[id].order == o
    requires forall i :: i in s.pending.vals ==> s.pending.vals[i].order.cid != o.cid
    ensures id !in s.pending.vals
    ensures forall i :: i in w.broker && i != id ==> w.broker[i].order.cid != o.cid
  {
    if id in s.pending.vals {
      assert false;
    }
    forall i | i in w.broker && i != id
      ensures w.broker[i].order.cid != o.cid
    {
      assert w.broker[i].order in w.orders && o in w.orders;
    }
  }

  /** An order that nothing polls, wherever it was waiting, is polled from now on. */
  lemma AdoptionKeepsGood(s: State, l: Ledger, w: World, id: BrokerId, t: Tracked, s': State, w': World)
    requires Good(s, l, w) && id in w.broker && w.broker[id].order == t.order
    requires forall i :: i in s.pending.vals ==> s.pending.vals[i].order.cid != t.order.cid
    requires Agrees(l, t.order.cid, t.filled, t.average)
    requires Adopted(s, s', id, t) && w' == w.(unpolled := w.unpolled - {t.order})
    ensures Good(s', l, w')
  {
    AdoptionIsNew(s, l, w, id, t.order);
    UnpolledIsAside(l, w, w');
    AdoptionKeepsCover(s, l, w, id, t, s', w');
    AdoptionKeepsPlaces(s, w, id, t, s', w');
  }

  lemma AdoptionKeepsCover(s: State, l: Ledger, w: World, id: BrokerId, t: Tracked, s': State, w': World)
    requires Covered(s, l, w) && id in w.broker
    requires forall i :: i in w.broker && i != id ==> w.broker[i].order.cid != t.order.cid
    requires Adopted(s, s', id, t) && w' == w.(unpolled := w.unpolled - {t.order})
    ensures Covered(s', l, w')
  {
    forall i | i in w'.broker
      ensures Accounted(s', l, w', i)
    {
      assert Accounted(s, l, w, i);
    }
  }

  lemma AdoptionKeepsPlaces(s: State, w: World, id: BrokerId, t: Tracked, s': State, w': World)
    requires OnePlace(s) && Mine(s, w) && id in w.broker && w.broker[id].order == t.order && id !in s.pending.vals
    requires forall i :: i in s.pending.vals ==> s.pending.vals[i].order.cid != t.order.cid
    requires Adopted(s, s', id, t) && w' == w.(unpolled := w.unpolled - {t.order})
    ensures OnePlace(s') && Mine(s', w')
  {
  }

  lemma UnpolledIsAside(l: Ledger, w: World, w': World)
    requires Honest(w) && LedgerOk(l, w)
    requires w' == w.(unpolled := w'.unpolled) && w'.unpolled <= w.orders
    ensures Honest(w') && LedgerOk(l, w')
  {
    forall c | !AtBroker(w', c)
      ensures NoFills(l, c)
    {
      assert !AtBroker(w, c);
    }
    forall f | f in l.ids
      ensures Named(l, f, w')
    {
      assert Named(l, f, w);
    }
  }

  lemma UntrackedKeys<V>(m: map<Cid, V>, c: Cid)
    requires c !in m
    ensures m - {c} == m
  {
  }

  lemma ResolveOneKeepsGood(item: (Cid, Order), book: seq<Entry>, r: Resolved, l: Ledger, w: World)
    requires Good(r.state, l, w) && TruthfulBook(book, w)
    requires item.0 in r.state.unconfirmed.vals && r.state.unconfirmed.vals[item.0] == item.1
    ensures var v := ResolveOne(item, book, r).state;
      && Good(v, l, w)
      && v.watch == r.state.watch
      && forall c :: c != item.0 && c in r.state.unconfirmed.vals ==>
           c in v.unconfirmed.vals && v.unconfirmed.vals[c] == r.state.unconfirmed.vals[c]
  {
    var s, v, o := r.state, ResolveOne(item, book, r).state, item.1;
    MatchesAreMine(book, o, w);
    if |Matches(book, o)| == 1 {
      UntrackedKeys(s.watch.vals, o.cid);
      assert w.unpolled - {o} == w.unpolled;
      AdoptionKeepsGood(s, l, w, Matches(book, o)[0], Tracked(o, 0, 0.0, 0.0), v, w);
    }
  }

  lemma WatchOneKeepsGood(item: (Cid, Held), book: seq<Entry>, s: State, estimate: Estimate, l: Ledger, w: World)
    requires Good(s, l, w) && TruthfulBook(book, w)
    requires item.0 in s.watch.vals && s.watch.vals[item.0] == item.1
    ensures var v := WatchOne(item, book, s, estimate);
      && Good(v, l, w)
      && forall c :: c != item.0 && c in s.watch.vals ==> c in v.watch.vals && v.watch.vals[c] == s.watch.vals[c]
  {
    var v, o := WatchOne(item, book, s, estimate), item.1.order;
    MatchesAreMine(book, o, w);
    if |Matches(book, o)| == 1 {
      UntrackedKeys(s.unconfirmed.vals, o.cid);
      assert w.unpolled - {o} == w.unpolled;
      AdoptionKeepsGood(s, l, w, Matches(book, o)[0], Adopt(item.1, estimate), v, w);
    }
  }

  /** The items still to come of a snapshot are still in the dictionary. */
  ghost predicate StillThere<V>(todo: seq<(Cid, V)>, m: map<Cid, V>) {
    && (forall i :: 0 <= i < |todo| ==> todo[i].0 in m && m[todo[i].0] == todo[i].1)
    && (forall i, j :: 0 <= i < j < |todo| ==> todo[i].0 != todo[j].0)
  }

  lemma ItemsAreThere<V>(d: Dict<Cid, V>)
    ensures StillThere(Items(d), d.vals)
  {
    forall i | 0 <= i < |d.keys|
      ensures d.keys[i] in d.vals
    {
      KeysAndValues(d, d.keys[i]);
    }
    forall i, j | 0 <= i < j < |d.keys|
      ensures d.keys[i] != d.keys[j]
    {
      NoDupIndices(d.keys, i, j);
    }
  }

  lemma RestStillThere<V>(todo: seq<(Cid, V)>, m: map<Cid, V>, m': map<Cid, V>)
    requires todo != [] && StillThere(todo, m)
    requires forall c :: c != todo[0].0 && c in m ==> c in m' && m'[c] == m[c]
    ensures StillThere(todo[1..], m')
  {
    forall i | 0 <= i < |todo[1..]|
      ensures todo[1..][i].0 in m' && m'[todo[1..][i].0] == todo[1..][i].1
    {
      assert todo[1..][i] == todo[i + 1] && todo[0].0 != todo[i + 1].0;
    }
  }

  lemma {:induction false} UnconfirmedKeepsGood(todo: seq<(Cid, Order)>, book: seq<Entry>, r: Resolved, l: Ledger,
                                                 w: World)
    requires Good(r.state, l, w) && TruthfulBook(book, w) && StillThere(todo, r.state.unconfirmed.vals)
    ensures Good(ResolveUnconfirmed(todo, book, r).state, l, w)
    ensures ResolveUnconfirmed(todo, book, r).state.watch == r.state.watch
    decreases |todo|
  {
    if todo != [] {
      var v := ResolveOne(todo[0], book, r);
      ResolveOneKeepsGood(todo[0], book, r, l, w);
      RestStillThere(todo, r.state.unconfirmed.vals, v.state.unconfirmed.vals);
      UnconfirmedKeepsGood(todo[1..], book, v, l, w);
    }
  }

  lemma {:induction false} WatchKeepsGood(todo: seq<(Cid, Held)>, book: seq<Entry>, s: State, estimate: Estimate,
                                           l: Ledger, w: World)
    requires Good(s, l, w) && TruthfulBook(book, w) && StillThere(todo, s.watch.vals)
    ensures Good(ResolveWatch(todo, book, s, estimate), l, w)
    decreases |todo|
  {
    if todo != [] {
      var v := WatchOne(todo[0], book, s, estimate);
      WatchOneKeepsGood(todo[0], book, s, estimate, l, w);
      RestStillThere(todo, s.watch.vals, v.watch.vals);
      WatchKeepsGood(todo[1..], book, v, estimate, l, w);
    }
  }

  lemma ClockIsIrrelevant(s: State, at: Option<real>, l: Ledger, w: World)
    requires Good(s, l, w)
    ensures Good(s.(watchCheckedAt := at), l, w)
  {
    var s' := s.(watchCheckedAt := at);
    assert OnePlace(s') && LedgerAgrees(s', l) && Mine(s', w);
    forall i | i in w.broker
      ensures Accounted(s', l, w, i)
    {
      assert Accounted(s, l, w, i);
    }
  }

  lemma BookKeepsGood(s: State, t: State, book: seq<Entry>, estimate: Estimate, l: Ledger, w: World)
    requires Good(t, l, w) && TruthfulBook(book, w) && t.unconfirmed == s.unconfirmed && t.watch == s.watch
    ensures var r := ResolveUnconfirmed(Items(s.unconfirmed), book, Resolved(t, [])).state;
      Good(r, l, w) && Good(ResolveWatch(Items(s.watch), book, r, estimate), l, w)
  {
    ItemsAreThere(s.unconfirmed);
    UnconfirmedKeepsGood(Items(s.unconfirmed), book, Resolved(t, []), l, w);
    ItemsAreThere(s.watch);
    WatchKeepsGood(Items(s.watch), book, ResolveUnconfirmed(Items(s.unconfirmed), book, Resolved(t, [])).state,
                   estimate, l, w);
  }

  /** Looking orders up leaves the state alone but for the clock, or resolves what was unconfirmed, and then
      perhaps what was watched. */
  lemma LookUpIs(s: State, env: Env) returns (t: State)
    ensures t == s || t == s.(watchCheckedAt := Some(env.now))
    ensures LookUp(s, env).state == t
            || (env.book.Book?
                && var r := ResolveUnconfirmed(Items(s.unconfirmed), env.book.entries, Resolved(t, [])).state;
                  LookUp(s, env).state == r
                  || LookUp(s, env).state == ResolveWatch(Items(s.watch), env.book.entries, r, env.estimate))
  {
    var checkWatch := s.watch.keys != [] && WatchDue(s.watchCheckedAt, env.now);
    t := if checkWatch then s.(watchCheckedAt := Some(env.now)) else s;
  }

  lemma LookUpKeepsGood(s: State, l: Ledger, w: World, env: Env)
    requires Good(s, l, w) && TruthfulEnv(env, w)
    ensures Good(LookUp(s, env).state, l, w)
  {
    var t := LookUpIs(s, env);
    ClockIsIrrelevant(s, Some(env.now), l, w);
    if env.book.Book? {
      BookKeepsGood(s, t, env.book.entries, env.estimate, l, w);
    }
  }

  /** A poll by an honest Upstox keeps everything in agreement, and so does dying after any number of
      its fills. */
  lemma PollKeepsGood(s: State, l: Ledger, w: World, env: Env, k: nat)
    requires Good(s, l, w) && TruthfulEnv(env, w)
    requires k <= |PollFills(s, env).fills|
    ensures Good(PollFills(s, env).state, Post(l, PollFills(s, env).fills), w)
    ensures LedgerOk(Post(l, PollFills(s, env).fills[..k]), w)
  {
    LookUpKeepsGood(s, l, w, env);
    var p := LookUp(s, env);
    if !p.denied {
      PendingCanSweep(p.state.pending, StartRun(p));
      assert p.state.(pending := p.state.pending) == p.state;
      SweepKeepsGood(p.state.pending.keys, StartRun(p), p.state, l, w, env);
      CrashKeepsLedger(p.state.pending.keys, StartRun(p), p.state, l, w, env, k);
    }
  }
}
