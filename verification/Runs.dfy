/** Whole runs: placements, executions, polls, crashes anywhere in a poll, and restarts. */
module Runs {
  import opened InsertionDict
  import opened Orders
  import opened Requests
  import opened FillPoll
  import opened SweepLaws
  import opened PollLaws
  import opened World
  import opened WorldSteps
  import opened Restart

  datatype System = System(state: State, ledger: Ledger, world: World)

  datatype Event =
    // The handler registers an order and places it; Upstox may have accepted it. `recorded` says whether
    // a placement known to have failed was closed in the ledger.
    | Place(order: Order, http: Http<PlaceBody>, accepted: Option<BrokerId>, recorded: bool)
    | Execute(id: BrokerId, exec: Exec)
    | End(id: BrokerId, status: Status)
    // `closes` is the set of orders whose close the ledger records, if the poll reports them ended.
    | PollOnce(env: Env, closes: set<Cid>)
    // The process dies after the `survived` first fills of a poll, and a new one resumes.
    | CrashAndRestart(env: Env, survived: nat, open: seq<Held>, book: BookReply, estimate: Estimate)

  /** What an honest day allows next. */
  ghost predicate Enabled(y: System, e: Event) {
    var w := y.world;
    match e
    case Place(o, http, accepted, _) =>
      && o.quantity > 0
      && (forall p :: p in w.orders ==> p.cid != o.cid && !SameTriple(p, o))
      && HonestPlacement(http, accepted)
      && (accepted.Some? ==> accepted.value !in w.broker)
    case Execute(id, x) =>
      && id in w.broker && w.broker[id].ended.None? && x.quantity > 0 && x.price > 0.0
      && SumQ(w.broker[id].execs) + x.quantity <= w.broker[id].order.quantity
    case End(id, status) =>
      && id in w.broker && w.broker[id].ended.None? && Terminal(status)
      && (status.Filled? ==> SumQ(w.broker[id].execs) == w.broker[id].order.quantity)
    case PollOnce(env, _) => TruthfulEnv(env, w)
    case CrashAndRestart(env, k, open, book, _) =>
      && TruthfulEnv(env, w) && k <= |PollFills(y.state, env).fills|
      && LedgerShows(Post(y.ledger, PollFills(y.state, env).fills[..k]), w, open)
      && (book.Book? ==> TruthfulBook(book.entries, w))
  }

  function Sent(w: World, o: Order, accepted: Option<BrokerId>): World {
    w.(orders := w.orders + {o},
       broker := if accepted.Some? then w.broker[accepted.value := BrokerOrder(o, [], None)] else w.broker)
  }

  /** The orders a poll reported ended whose close reached the ledger. */
  ghost function Closing(w: World, ended: seq<EndedOrder>, recorded: set<Cid>): set<Order> {
    set o | o in w.orders && o.cid in recorded && exists i :: 0 <= i < |ended| && ended[i].cid == o.cid
  }

  ghost function Next(y: System, e: Event): System
    requires Enabled(y, e)
  {
    var w := y.world;
    match e
    case Place(o, http, accepted, recorded) =>
      var result := SendResult(Classified(http, true));
      var closes := recorded && !result.Placed? && !result.PlacementAmbiguous?;
      System(Do(y.state, Placing(o, http)), y.ledger,
             Sent(w, o, accepted).(closed := if closes then w.closed + {o} else w.closed))
    case Execute(id, x) =>
      y.(world := w.(broker := w.broker[id := w.broker[id].(execs := w.broker[id].execs + [x])]))
    case End(id, status) => y.(world := w.(broker := w.broker[id := w.broker[id].(ended := Some(status))]))
    case PollOnce(env, closes) =>
      var p := PollFills(y.state, env);
      System(p.state, Post(y.ledger, p.fills), w.(closed := w.closed + Closing(w, Carried(p.raised), closes)))
    case CrashAndRestart(env, k, open, book, estimate) =>
      var l := Post(y.ledger, PollFills(y.state, env).fills[..k]);
      if book.Book? then
        System(Resume(open, book.entries, Resumed(Fresh(), NO_RESULT), estimate).state, l,
               w.(unpolled := LeftOut(open, book.entries)))
      else System(Fresh(), l, w.(unpolled := OrdersOf(open)))
  }

  ghost predicate Sane(y: System) {
    Good(y.state, y.ledger, y.world)
  }

  const DAY_START := System(Fresh(), EMPTY_LEDGER, World({}, map[], {}, {}))

  // ---- each event keeps the system sane

  /** Registering and sending an order nobody has seen. */
  lemma SendingKeepsTruth(l: Ledger, w: World, o: Order, accepted: Option<BrokerId>, w': World)
    requires Honest(w) && LedgerOk(l, w) && o.quantity > 0
    requires forall p :: p in w.orders ==> p.cid != o.cid && !SameTriple(p, o)
    requires accepted.Some? ==> accepted.value !in w.broker
    requires w' == Sent(w, o, accepted).(closed := w'.closed)
    requires w'.closed == w.closed || (accepted.None? && w'.closed == w.closed + {o})
    ensures Honest(w') && LedgerOk(l, w') && NoFills(l, o.cid)
    ensures forall id :: id in w.broker ==>
              id in w'.broker && w'.broker[id] == w.broker[id] && w.broker[id].order.cid != o.cid
  {
    SendingIsNew(l, w, o, accepted, w');
    SendingIsHonest(w, o, accepted, w');
    forall c | AtBroker(w, c)
      ensures AtBroker(w', c)
    {
      var id :| id in w.broker && w.broker[id].order.cid == c;
      assert id in w'.broker && w'.broker[id].order.cid == c;
    }
    forall id | id in w'.broker
      ensures Booked(l, w'.broker[id])
    {
      if id !in w.broker {
        assert IsPrefix([], 0, QtyIn(l, o.cid), ValueIn(l, o.cid));
      }
    }
    forall f | f in l.ids
      ensures Named(l, f, w')
    {
      assert Named(l, f, w);
    }
  }

  lemma SendingIsNew(l: Ledger, w: World, o: Order, accepted: Option<BrokerId>, w': World)
    requires Honest(w) && LedgerOk(l, w)
    requires forall p :: p in w.orders ==> p.cid != o.cid
    requires accepted.Some? ==> accepted.value !in w.broker
    requires w' == Sent(w, o, accepted).(closed := w'.closed)
    ensures NoFills(l, o.cid)
    ensures forall id :: id in w.broker ==>
              id in w'.broker && w'.broker[id] == w.broker[id] && w.broker[id].order.cid != o.cid
  {
    assert !AtBroker(w, o.cid);
  }

  lemma SendingIsHonest(w: World, o: Order, accepted: Option<BrokerId>, w': World)
    requires Honest(w) && o.quantity > 0
    requires forall p :: p in w.orders ==> p.cid != o.cid && !SameTriple(p, o)
    requires accepted.Some? ==> accepted.value !in w.broker
    requires w' == Sent(w, o, accepted).(closed := w'.closed)
    requires w'.closed == w.closed || (accepted.None? && w'.closed == w.closed + {o})
    ensures Honest(w')
  {
    forall p, q | p in w'.orders && q in w'.orders && (p.cid == q.cid || SameTriple(p, q))
      ensures p == q
    {
      assert p == o || p in w.orders;
      assert q == o || q in w.orders;
    }
    forall id | id in w'.broker
      ensures w'.broker[id].order in w'.orders && ExecsOk(w'.broker[id])
    {
    }
    forall i, j | i in w'.broker && j in w'.broker && w'.broker[i].order == w'.broker[j].order
      ensures i == j
    {
      assert o !in w.orders;
    }
  }

  lemma PlacingKeepsGood(y: System, o: Order, http: Http<PlaceBody>, accepted: Option<BrokerId>, recorded: bool)
    requires Sane(y) && Enabled(y, Place(o, http, accepted, recorded))
    ensures Sane(Next(y, Place(o, http, accepted, recorded)))
  {
    var s, l, w := y.state, y.ledger, y.world;
    var z := Next(y, Place(o, http, accepted, recorded));
    PlacementIsSound(http, accepted);
    SendingKeepsTruth(l, w, o, accepted, z.world);
    FreshIsUntracked(s, w, o);
    PlacedIsTracked(s, l, w, o, http, accepted, z.world);
    forall id | id in z.world.broker
      ensures Accounted(z.state, l, z.world, id)
    {
      if id in w.broker {
        assert Accounted(s, l, w, id);
      }
    }
  }

  lemma FreshIsUntracked(s: State, w: World, o: Order)
    requires Honest(w) && OnePlace(s) && Mine(s, w)
    requires forall p :: p in w.orders ==> p.cid != o.cid
    ensures Untracked(s, o.cid)
  {
    forall i | i in s.pending.vals
      ensures s.pending.vals[i].order.cid != o.cid
    {
      assert w.broker[i].order in w.orders;
    }
  }

  lemma PlacedIsTracked(s: State, l: Ledger, w: World, o: Order, http: Http<PlaceBody>, accepted: Option<BrokerId>,
                        w': World)
    requires OnePlace(s) && LedgerAgrees(s, l) && Mine(s, w) && Honest(w) && NoFills(l, o.cid)
    requires Untracked(s, o.cid) && o !in w.orders && HonestPlacement(http, accepted)
    requires accepted.Some? ==> accepted.value !in w.broker
    requires w' == Sent(w, o, accepted).(closed := w'.closed)
    ensures var s' := Do(s, Placing(o, http));
      && OnePlace(s') && LedgerAgrees(s', l) && Mine(s', w')
      && s'.watch == s.watch
      && (forall i :: i in s.pending.vals ==> i in s'.pending.vals)
      && (forall c :: c in s.unconfirmed.vals ==> c in s'.unconfirmed.vals)
      && (accepted.Some? ==> accepted.value in s'.pending.vals || o.cid in s'.unconfirmed.vals)
  {
    PlacementIsSound(http, accepted);
    SentIsMine(s, w, w', o, accepted);
    var s' := Do(s, Placing(o, http));
    match SendResult(Classified(http, true))
    case Placed(id) => NewPending(s, l, w', id, o, s');
    case PlacementAmbiguous => NewUnconfirmed(s, l, w', o, s');
    case _ =>
  }

  lemma SentIsMine(s: State, w: World, w': World, o: Order, accepted: Option<BrokerId>)
    requires Mine(s, w) && (accepted.Some? ==> accepted.value !in w.broker)
    requires w' == Sent(w, o, accepted).(closed := w'.closed)
    ensures Mine(s, w')
  {
  }

  lemma NewPending(s: State, l: Ledger, w: World, id: BrokerId, o: Order, s': State)
    requires OnePlace(s) && LedgerAgrees(s, l) && Mine(s, w) && NoFills(l, o.cid) && Untracked(s, o.cid)
    requires id in w.broker && w.broker[id].order == o && o !in w.unpolled
    requires s'.pending.vals == s.pending.vals[id := Tracked(o, 0, 0.0, 0.0)]
    requires s'.unconfirmed == s.unconfirmed && s'.watch == s.watch
    ensures OnePlace(s') && LedgerAgrees(s', l) && Mine(s', w)
  {
  }

  lemma NewUnconfirmed(s: State, l: Ledger, w: World, o: Order, s': State)
    requires OnePlace(s) && LedgerAgrees(s, l) && Mine(s, w) && NoFills(l, o.cid) && Untracked(s, o.cid)
    requires o in w.orders - w.unpolled
    requires s'.unconfirmed.vals == s.unconfirmed.vals[o.cid := o]
    requires s'.pending == s.pending && s'.watch == s.watch
    ensures OnePlace(s') && LedgerAgrees(s', l) && Mine(s', w)
  {
  }

  // ---- Upstox's own steps

  /** What one broker order may turn into. */
  ghost predicate Progress(b: BrokerOrder, c: BrokerOrder) {
    && c.order == b.order && ExecsOk(c)
    && (forall m: nat, q: int, v: real :: IsPrefix(b.execs, m, q, v) ==> IsPrefix(c.execs, m, q, v))
    && (b.ended.Some? || SumQ(b.execs) == b.order.quantity ==> SumQ(c.execs) == SumQ(b.execs))
    && (b.ended.Some? ==> c.ended.Some?)
  }

  lemma ExecutingIsProgress(b: BrokerOrder, x: Exec)
    requires ExecsOk(b) && b.ended.None? && x.quantity > 0 && x.price > 0.0
    requires SumQ(b.execs) + x.quantity <= b.order.quantity
    ensures Progress(b, b.(execs := b.execs + [x]))
  {
    var c := b.(execs := b.execs + [x]);
    assert c.execs[..|b.execs|] == b.execs;
    forall m: nat, q: int, v: real | IsPrefix(b.execs, m, q, v)
      ensures IsPrefix(c.execs, m, q, v)
    {
      assert c.execs[..m] == b.execs[..m];
    }
  }

  lemma ProgressKeepsGood(s: State, l: Ledger, w: World, id: BrokerId, c: BrokerOrder)
    requires Good(s, l, w) && id in w.broker && Progress(w.broker[id], c)
    ensures Good(s, l, w.(broker := w.broker[id := c]))
  {
    var w' := w.(broker := w.broker[id := c]);
    forall i | i in w'.broker
      ensures Booked(l, w'.broker[i])
      ensures Finished(l, w.broker[i]) ==> Finished(l, w'.broker[i])
      ensures w'.broker[i].order == w.broker[i].order
    {
      assert Booked(l, w.broker[i]);
      var b := w.broker[i];
      var m: nat :| IsPrefix(b.execs, m, QtyIn(l, b.order.cid), ValueIn(l, b.order.cid));
      assert IsPrefix(w'.broker[i].execs, m, QtyIn(l, b.order.cid), ValueIn(l, b.order.cid));
    }
    ProgressKeepsLedger(l, w, w');
    assert OnePlace(s) && LedgerAgrees(s, l) && Mine(s, w');
    forall i | i in w'.broker
      ensures Accounted(s, l, w', i)
    {
      assert Accounted(s, l, w, i);
    }
  }

  lemma ProgressIsHonest(w: World, w': World)
    requires Honest(w) && w' == w.(broker := w'.broker) && w'.broker.Keys == w.broker.Keys
    requires forall i :: i in w.broker ==> w'.broker[i].order == w.broker[i].order && ExecsOk(w'.broker[i])
    ensures Honest(w')
  {
    forall i, j | i in w'.broker && j in w'.broker && w'.broker[i].order == w'.broker[j].order
      ensures i == j
    {
      assert w.broker[i].order == w.broker[j].order;
    }
  }

  lemma ProgressKeepsLedger(l: Ledger, w: World, w': World)
    requires Honest(w) && LedgerOk(l, w) && w' == w.(broker := w'.broker) && w'.broker.Keys == w.broker.Keys
    requires forall i :: i in w.broker ==>
               && w'.broker[i].order == w.broker[i].order && ExecsOk(w'.broker[i])
               && Booked(l, w'.broker[i]) && (Finished(l, w.broker[i]) ==> Finished(l, w'.broker[i]))
    ensures Honest(w') && LedgerOk(l, w')
  {
    ProgressIsHonest(w, w');
    forall k | AtBroker(w, k)
      ensures AtBroker(w', k)
    {
      var i :| i in w.broker && w.broker[i].order.cid == k;
      assert i in w'.broker && w'.broker[i].order.cid == k;
    }
    forall f | f in l.ids
      ensures Named(l, f, w')
    {
      assert Named(l, f, w);
    }
  }

  // ---- orders that leave the poll

  lemma {:induction false} KeysAmongIds(ids: seq<BrokerId>, p: Pending, env: Env)
    requires forall id :: id in ids ==> id in p.vals
    ensures forall k :: k in Expected(ids, p, env).keys ==> k in ids
  {
    if ids != [] && !Stops(PolledIn(p, ids[0], env).verdict) {
      KeysAmongIds(ids[1..], p, env);
    }
  }

  /** An order reported ended is no longer pending. */
  lemma {:induction false} EndedLeave(ids: seq<BrokerId>, p: Pending, env: Env, k: nat)
    requires (forall id :: id in ids ==> id in p.vals) && NoDup(ids)
    requires k < |Expected(ids, p, env).ended|
    ensures var e := Expected(ids, p, env).ended[k];
      e.broker in ids && e.broker !in Expected(ids, p, env).keys && p.vals[e.broker].order.cid == e.cid
  {
    var polled := PolledIn(p, ids[0], env);
    KeysAmongIds(ids[1..], p, env);
    if polled.verdict.EndedUnfilled? {
      EndedNamesItself(ids[0], p.vals[ids[0]], env.wire(ids[0]), env.estimate);
    }
    if k > 0 || !polled.verdict.EndedUnfilled? {
      EndedLeave(ids[1..], p, env, if polled.verdict.EndedUnfilled? then k - 1 else k);
    }
  }

  lemma EndedNamesItself(id: BrokerId, t: Tracked, reply: Reply, estimate: Estimate)
    requires PollOrder(id, t, reply, estimate).verdict.EndedUnfilled?
    ensures var e := PollOrder(id, t, reply, estimate).verdict.ended;
      e.broker == id && e.cid == t.order.cid
  {
  }

  /** When an order leaves the poll, Upstox has ended it and everything it ever executed is in the ledger. */
  lemma LeavingMeansFinished(s: State, l: Ledger, w: World, env: Env, id: BrokerId)
    requires Good(s, l, w) && TruthfulEnv(env, w)
    requires id in Start(s, env).vals && id !in PollFills(s, env).state.pending.vals
    ensures id in w.broker && w.broker[id].ended.Some?
    ensures Finished(Post(l, PollFills(s, env).fills), w.broker[id])
  {
    LookUpKeepsGood(s, l, w, env);
    PollKeepsGood(s, l, w, env, 0);
    LeavingMeansEnded(s, l, w, env, id);
    var p, final := LookUp(s, env).state, PollFills(s, env).state;
    assert final == p.(pending := final.pending);
    assert Accounted(final, Post(l, PollFills(s, env).fills), w, id);
  }

  lemma LeavingMeansEnded(s: State, l: Ledger, w: World, env: Env, id: BrokerId)
    requires Good(LookUp(s, env).state, l, w) && TruthfulEnv(env, w)
    requires id in Start(s, env).vals && id !in PollFills(s, env).state.pending.vals
    ensures id in w.broker && w.broker[id].ended.Some?
  {
    var p := LookUp(s, env);
    PendingCanSweep(p.state.pending, StartRun(p));
    assert p.state.(pending := p.state.pending) == p.state;
    SweepLeavesEnded(p.state.pending.keys, StartRun(p), p.state, l, w, env, id);
  }

  lemma CarriedHaveLeft(s: State, env: Env, k: nat) returns (e: EndedOrder)
    requires k < |Carried(PollFills(s, env).raised)|
    ensures e == Carried(PollFills(s, env).raised)[k]
    ensures e.broker in Start(s, env).vals && Start(s, env).vals[e.broker].order.cid == e.cid
    ensures e.broker !in PollFills(s, env).state.pending.vals
  {
    var p := Start(s, env);
    PollIsReading(s, env);
    KeysHaveValues(p);
    e := Reading(s, env).ended[k];
    EndedLeave(p.keys, p, env, k);
    KeysAndValues(PollFills(s, env).state.pending, e.broker);
  }

  /** Every order a poll reports ended is one Upstox holds, and the ledger has all of it. */
  lemma CarriedAreFinished(s: State, l: Ledger, w: World, env: Env, k: nat)
    requires Good(s, l, w) && TruthfulEnv(env, w)
    requires k < |Carried(PollFills(s, env).raised)|
    ensures var e := Carried(PollFills(s, env).raised)[k];
      && e.broker in w.broker && w.broker[e.broker].order.cid == e.cid && w.broker[e.broker].ended.Some?
      && Finished(Post(l, PollFills(s, env).fills), w.broker[e.broker])
  {
    var e := CarriedHaveLeft(s, env, k);
    LeavingMeansFinished(s, l, w, env, e.broker);
    StartIsMine(s, l, w, env, e.broker);
  }

  lemma StartIsMine(s: State, l: Ledger, w: World, env: Env, id: BrokerId)
    requires Good(s, l, w) && TruthfulEnv(env, w) && id in Start(s, env).vals
    ensures id in w.broker && w.broker[id].order == Start(s, env).vals[id].order
  {
    LookUpKeepsGood(s, l, w, env);
  }

  lemma ClosingKeepsGood(s: State, l: Ledger, w: World, w': World)
    requires Good(s, l, w) && w' == w.(closed := w'.closed) && w.closed <= w'.closed <= w.orders
    requires forall id :: id in w.broker && w.broker[id].order in w'.closed ==> Finished(l, w.broker[id])
    ensures Good(s, l, w')
  {
    forall c | !AtBroker(w', c)
      ensures NoFills(l, c)
    {
      assert !AtBroker(w, c);
    }
    forall f | f in l.ids
      ensures Named(l, f, w')
    {
      assert Named(l, f, w);
    }
    forall i | i in w'.broker
      ensures Accounted(s, l, w', i)
    {
      assert Accounted(s, l, w, i);
    }
  }

  lemma PollingKeepsGood(y: System, env: Env, closes: set<Cid>)
    requires Sane(y) && Enabled(y, PollOnce(env, closes))
    ensures Sane(Next(y, PollOnce(env, closes)))
  {
    var s, l, w := y.state, y.ledger, y.world;
    var p := PollFills(s, env);
    var l' := Post(l, p.fills);
    PollKeepsGood(s, l, w, env, 0);
    var w' := w.(closed := w.closed + Closing(w, Carried(p.raised), closes));
    forall id | id in w.broker && w.broker[id].order in w'.closed
      ensures Finished(l', w.broker[id])
    {
      if w.broker[id].order in Closing(w, Carried(p.raised), closes) {
        var i :| 0 <= i < |Carried(p.raised)| && Carried(p.raised)[i].cid == w.broker[id].order.cid;
        CarriedAreFinished(s, l, w, env, i);
        SameCidSameId(w, id, Carried(p.raised)[i].broker);
      }
    }
    ClosingKeepsGood(p.state, l', w, w');
  }

  lemma SameCidSameId(w: World, i: BrokerId, j: BrokerId)
    requires Honest(w) && i in w.broker && j in w.broker && w.broker[i].order.cid == w.broker[j].order.cid
    ensures i == j
  {
    assert w.broker[i].order in w.orders && w.broker[j].order in w.orders;
  }

  lemma RestartKeepsGood(y: System, e: Event)
    requires Sane(y) && Enabled(y, e) && e.CrashAndRestart?
    ensures Sane(Next(y, e))
  {
    PollKeepsGood(y.state, y.ledger, y.world, e.env, e.survived);
    var l := Post(y.ledger, PollFills(y.state, e.env).fills[..e.survived]);
    FreshIsGood(l, y.world, e.open);
    if e.book.Book? {
      ResumingKeepsGood(l, y.world, e.open, e.book.entries, e.estimate);
    }
  }

  lemma ResumingKeepsGood(l: Ledger, w: World, open: seq<Held>, book: seq<Entry>, estimate: Estimate)
    requires Honest(w) && LedgerOk(l, w) && LedgerShows(l, w, open) && TruthfulBook(book, w)
    ensures Good(Resume(open, book, Resumed(Fresh(), NO_RESULT), estimate).state, l,
                 w.(unpolled := LeftOut(open, book)))
  {
    var w1 := w.(unpolled := OrdersOf(open));
    FreshIsGood(l, w, open);
    TruthfulBookStays(book, w, w1);
    OpenIsHanded(open, l, w, w1);
    ResumeKeepsGood(open, book, Resumed(Fresh(), NO_RESULT), estimate, l, w1);
    NothingElseLeft(open, book);
  }

  lemma NothingElseLeft(open: seq<Held>, book: seq<Entry>)
    ensures Aside(open, book, OrdersOf(open)) == LeftOut(open, book)
  {
  }

  lemma OpenIsHanded(open: seq<Held>, l: Ledger, w: World, w1: World)
    requires LedgerShows(l, w, open) && w1 == w.(unpolled := OrdersOf(open))
    ensures Handed(open, l, w1)
  {
  }

  lemma EventKeepsSane(y: System, e: Event)
    requires Sane(y) && Enabled(y, e)
    ensures Sane(Next(y, e))
  {
    var s, l, w := y.state, y.ledger, y.world;
    match e
    case Place(o, http, accepted, recorded) => PlacingKeepsGood(y, o, http, accepted, recorded);
    case Execute(id, x) =>
      ExecutingIsProgress(w.broker[id], x);
      ProgressKeepsGood(s, l, w, id, w.broker[id].(execs := w.broker[id].execs + [x]));
    case End(id, status) => ProgressKeepsGood(s, l, w, id, w.broker[id].(ended := Some(status)));
    case PollOnce(env, closes) => PollingKeepsGood(y, env, closes);
    case CrashAndRestart(_, _, _, _, _) => RestartKeepsGood(y, e);
  }

  // ---- runs

  ghost predicate Possible(y: System, run: seq<Event>)
    decreases |run|
  {
    run == [] || (Enabled(y, run[0]) && Possible(Next(y, run[0]), run[1..]))
  }

  ghost function After(y: System, run: seq<Event>): System
    requires Possible(y, run)
    decreases |run|
  {
    if run == [] then y else After(Next(y, run[0]), run[1..])
  }

  lemma {:induction false} RunsStaySane(y: System, run: seq<Event>)
    requires Sane(y) && Possible(y, run)
    ensures Sane(After(y, run))
    decreases |run|
  {
    if run != [] {
      EventKeepsSane(y, run[0]);
      RunsStaySane(Next(y, run[0]), run[1..]);
    }
  }

  lemma DayStartIsSane()
    ensures Sane(DAY_START)
  {
  }

  /** Exactly-once fills: after any number of placements, polls, crashes and restarts the ledger holds,
      for each order Upstox accepted, precisely its first so many executions, by quantity and by
      notional; and nothing for any order Upstox never accepted. */
  lemma ExactlyOnce(run: seq<Event>, id: BrokerId, c: Cid)
    requires Possible(DAY_START, run)
    ensures var y := After(DAY_START, run);
      && (id in y.world.broker ==>
            exists m: nat :: IsPrefix(y.world.broker[id].execs, m, QtyIn(y.ledger, y.world.broker[id].order.cid),
                                      ValueIn(y.ledger, y.world.broker[id].order.cid)))
      && (!AtBroker(y.world, c) ==> NoFills(y.ledger, c))
  {
    DayStartIsSane();
    RunsStaySane(DAY_START, run);
    var y := After(DAY_START, run);
    assert id in y.world.broker ==> Booked(y.ledger, y.world.broker[id]);
  }

  /** What the adapter has reported for an order it polls is what the ledger holds, in any run. */
  lemma AdapterIsLedger(run: seq<Event>, id: BrokerId)
    requires Possible(DAY_START, run)
    requires id in After(DAY_START, run).state.pending.vals
    ensures var y := After(DAY_START, run);
      var t := y.state.pending.vals[id];
      QtyIn(y.ledger, t.order.cid) == t.filled && ValueIn(y.ledger, t.order.cid) == Value(t.filled, t.average)
  {
    DayStartIsSane();
    RunsStaySane(DAY_START, run);
  }

  /** No live order is forgotten: one Upstox accepted is polled, unconfirmed, watched, named in the alert
      of the last restart, or in the ledger down to its last execution; and it is never in two of the
      adapter's collections. */
  lemma NeverForgotten(run: seq<Event>, id: BrokerId)
    requires Possible(DAY_START, run) && id in After(DAY_START, run).world.broker
    ensures var y := After(DAY_START, run);
      Accounted(y.state, y.ledger, y.world, id) && OnePlace(y.state)
  {
    DayStartIsSane();
    RunsStaySane(DAY_START, run);
  }

  ghost predicate NoRestart(run: seq<Event>) {
    forall i :: 0 <= i < |run| ==> !run[i].CrashAndRestart?
  }

  lemma PollKeepsWatchEmpty(s: State, env: Env)
    requires s.watch.vals == map[]
    ensures PollFills(s, env).state.watch.vals == map[]
  {
    assert Elems(s.watch.keys) == {};
    assert Items(s.watch) == [];
    var t := LookUpIs(s, env);
    if env.book.Book? {
      UnconfirmedKeepsWatch(Items(s.unconfirmed), env.book.entries, Resolved(t, []));
    }
  }

  lemma EventLeavesNoGap(y: System, e: Event)
    requires Enabled(y, e) && !e.CrashAndRestart? && y.world.unpolled == {} && y.state.watch.vals == map[]
    ensures Next(y, e).world.unpolled == {} && Next(y, e).state.watch.vals == map[]
  {
    if e.PollOnce? {
      PollKeepsWatchEmpty(y.state, e.env);
    }
  }

  lemma {:induction false} NoRestartNoGaps(y: System, run: seq<Event>)
    requires Possible(y, run) && NoRestart(run)
    requires y.world.unpolled == {} && y.state.watch.vals == map[]
    ensures After(y, run).world.unpolled == {} && After(y, run).state.watch.vals == map[]
    decreases |run|
  {
    if run != [] {
      EventLeavesNoGap(y, run[0]);
      assert forall i :: 0 <= i < |run[1..]| ==> run[1..][i] == run[i + 1];
      NoRestartNoGaps(Next(y, run[0]), run[1..]);
    }
  }

  /** In any run, an order that leaves the poll is ended, with all it ever executed in the ledger. */
  lemma LeavesOnlyWhenBooked(run: seq<Event>, env: Env, id: BrokerId)
    requires Possible(DAY_START, run)
    requires var y := After(DAY_START, run);
      && TruthfulEnv(env, y.world)
      && id in Start(y.state, env).vals && id !in PollFills(y.state, env).state.pending.vals
    ensures var y := After(DAY_START, run);
      && id in y.world.broker && y.world.broker[id].ended.Some?
      && Finished(Post(y.ledger, PollFills(y.state, env).fills), y.world.broker[id])
  {
    DayStartIsSane();
    RunsStaySane(DAY_START, run);
    var y := After(DAY_START, run);
    LeavingMeansFinished(y.state, y.ledger, y.world, env, id);
  }
}
