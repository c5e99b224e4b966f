/** What one adapter lifetime guarantees of every order Upstox accepted in it. */
module Lifetime {
  import opened InsertionDict
  import opened Orders
  import opened Requests
  import opened FillPoll
  import opened PollLaws
  import opened World
  import opened WorldSteps
  import opened Restart
  import opened Runs
  import opened BookLaws
  import opened LookUpLaws
  import opened Adoptions

  /** The order is polled, or its placement unconfirmed. */
  predicate Kept(s: State, id: BrokerId, c: Cid) {
    id in s.pending.vals || c in s.unconfirmed.vals
  }

  ghost predicate AllHeldOrEnded(s: State, w: World) {
    forall id :: id in w.broker ==> Kept(s, id, w.broker[id].order.cid) || w.broker[id].ended.Some?
  }

  /** Looking orders up drops none of them. */
  lemma LookUpKeepsHeld(s: State, l: Ledger, w: World, env: Env, id: BrokerId)
    requires Good(s, l, w) && TruthfulEnv(env, w) && id in w.broker && Kept(s, id, w.broker[id].order.cid)
    ensures Kept(LookUp(s, env).state, id, w.broker[id].order.cid)
  {
    var c := w.broker[id].order.cid;
    if id in s.pending.vals {
      LookUpPuts(s, env);
      PutAllKeepsIds(s.pending, Adopting(s, env), id);
    } else if c !in LookUp(s, env).state.unconfirmed.vals {
      UnreadKeepsUnconfirmed(s, env);
      ConfirmedIff(s, env, c);
      var j :| ShownOnce(env.book.entries, s.unconfirmed.vals[c], j);
      OneOrNot(env.book.entries, s.unconfirmed.vals[c]);
      ConfirmedIsAdopted(s, env, c, j);
      ConfirmedIsMine(s, l, w, env.book.entries, id, c);
    }
  }

  lemma UnreadKeepsUnconfirmed(s: State, env: Env)
    ensures !env.book.Book? ==> LookUp(s, env).state.unconfirmed == s.unconfirmed
  {
  }

  lemma ConfirmedIsMine(s: State, l: Ledger, w: World, book: seq<Entry>, id: BrokerId, c: Cid)
    requires Good(s, l, w) && TruthfulBook(book, w) && id in w.broker && w.broker[id].order.cid == c
    requires c in s.unconfirmed.vals && |Matches(book, s.unconfirmed.vals[c])| == 1
    ensures Matches(book, s.unconfirmed.vals[c])[0] == id
  {
    MatchesAreMine(book, s.unconfirmed.vals[c], w);
    SameCidSameId(w, id, Matches(book, s.unconfirmed.vals[c])[0]);
  }

  // ---- an honest book never makes a look-up overwrite anything

  ghost predicate AllMine(a: seq<Adoption>, w: World) {
    forall i :: 0 <= i < |a| ==> a[i].0 in w.broker && w.broker[a[i].0].order == a[i].1.order
  }

  lemma MinePrepends(x: Adoption, a: seq<Adoption>, w: World)
    requires AllMine(a, w) && x.0 in w.broker && w.broker[x.0].order == x.1.order
    ensures AllMine([x] + a, w)
  {
    assert forall i :: 0 < i < |[x] + a| ==> ([x] + a)[i] == a[i - 1];
  }

  lemma {:induction false} ConfirmedAreMine(todo: seq<(Cid, Order)>, book: seq<Entry>, w: World)
    requires Honest(w) && TruthfulBook(book, w) && forall i :: 0 <= i < |todo| ==> todo[i].1 in w.orders
    ensures AllMine(Confirmed(todo, book), w)
  {
    if todo != [] {
      ConfirmedAreMine(todo[1..], book, w);
      MatchesAreMine(book, todo[0].1, w);
      var found := Matches(book, todo[0].1);
      if |found| == 1 {
        MinePrepends((found[0], Tracked(todo[0].1, 0, 0.0, 0.0)), Confirmed(todo[1..], book), w);
      }
    }
  }

  lemma {:induction false} AppearedAreMine(todo: seq<(Cid, Held)>, book: seq<Entry>, estimate: Estimate, w: World)
    requires Honest(w) && TruthfulBook(book, w) && forall i :: 0 <= i < |todo| ==> todo[i].1.order in w.orders
    ensures AllMine(Appeared(todo, book, estimate), w)
  {
    if todo != [] {
      AppearedAreMine(todo[1..], book, estimate, w);
      MatchesAreMine(book, todo[0].1.order, w);
      var found := Matches(book, todo[0].1.order);
      if |found| == 1 {
        MinePrepends((found[0], Adopt(todo[0].1, estimate)), Appeared(todo[1..], book, estimate), w);
      }
    }
  }

  lemma AdoptingIsMine(s: State, l: Ledger, w: World, env: Env)
    requires Good(s, l, w) && TruthfulEnv(env, w)
    ensures AllMine(Adopting(s, env), w)
  {
    if env.book.Book? {
      ItemsAreThere(s.unconfirmed);
      ItemsAreThere(s.watch);
      ConfirmedAreMine(Items(s.unconfirmed), env.book.entries, w);
      AppearedAreMine(Items(s.watch), env.book.entries, env.estimate, w);
    }
  }

  lemma {:induction false} MineAreFresh(p: Pending, a: seq<Adoption>, w: World)
    requires AllMine(a, w) && Differ(p, a)
    requires forall id :: id in p.vals ==> id in w.broker && w.broker[id].order == p.vals[id].order
    ensures FreshIds(p, a)
    decreases |a|
  {
    if a != [] {
      var v := Put(p, a[0].0, a[0].1);
      assert a[0].0 !in p.vals;
      DifferSplits(p, a);
      assert forall i :: 0 <= i < |a[1..]| ==> a[1..][i] == a[i + 1];
      MineAreFresh(v, a[1..], w);
      FreshIdsSplits(p, a);
    }
  }

  /** With an honest Upstox the ids a look-up finds are always new, so everything stays polled as itself. */
  lemma HonestIsPolled(s: State, l: Ledger, w: World, env: Env)
    requires Good(s, l, w) && TruthfulEnv(env, w)
    ensures FreshIds(s.pending, Adopting(s, env)) && HoldsAll(s.pending, Adopting(s, env), Start(s, env))
  {
    AdoptingDiffers(s, env);
    AdoptingIsMine(s, l, w, env);
    MineAreFresh(s.pending, Adopting(s, env), w);
    AdoptedArePolled(s, env);
  }

  // ---- no order is dropped

  lemma PollKeepsHeld(s: State, l: Ledger, w: World, env: Env)
    requires Good(s, l, w) && TruthfulEnv(env, w) && AllHeldOrEnded(s, w)
    ensures AllHeldOrEnded(PollFills(s, env).state, w)
  {
    LookUpKeepsGood(s, l, w, env);
    forall id | id in w.broker
      ensures Kept(PollFills(s, env).state, id, w.broker[id].order.cid) || w.broker[id].ended.Some?
    {
      if Kept(s, id, w.broker[id].order.cid) {
        LookUpKeepsHeld(s, l, w, env, id);
        if id in Start(s, env).vals && id !in PollFills(s, env).state.pending.vals {
          LeavingMeansEnded(s, l, w, env, id);
        }
      }
    }
  }

  lemma PlacingKeepsHeld(y: System, o: Order, http: Http<PlaceBody>, accepted: Option<BrokerId>, recorded: bool)
    requires Sane(y) && Enabled(y, Place(o, http, accepted, recorded)) && AllHeldOrEnded(y.state, y.world)
    ensures var z := Next(y, Place(o, http, accepted, recorded)); AllHeldOrEnded(z.state, z.world)
  {
    var s, l, w := y.state, y.ledger, y.world;
    var z := Next(y, Place(o, http, accepted, recorded));
    PlacementIsSound(http, accepted);
    SendingKeepsTruth(l, w, o, accepted, z.world);
    FreshIsUntracked(s, w, o);
    PlacedIsTracked(s, l, w, o, http, accepted, z.world);
    forall id | id in z.world.broker
      ensures Kept(z.state, id, z.world.broker[id].order.cid) || z.world.broker[id].ended.Some?
    {
      if id in w.broker {
        assert z.world.broker[id] == w.broker[id];
      }
    }
  }

  lemma EventKeepsHeld(y: System, e: Event)
    requires Sane(y) && Enabled(y, e) && !e.CrashAndRestart? && AllHeldOrEnded(y.state, y.world)
    ensures AllHeldOrEnded(Next(y, e).state, Next(y, e).world)
  {
    match e
    case Place(o, http, accepted, recorded) => PlacingKeepsHeld(y, o, http, accepted, recorded);
    case PollOnce(env, _) => PollKeepsHeld(y.state, y.ledger, y.world, env);
    case _ =>
  }

  lemma {:induction false} RunKeepsHeld(y: System, run: seq<Event>)
    requires Sane(y) && Possible(y, run) && NoRestart(run) && AllHeldOrEnded(y.state, y.world)
    ensures AllHeldOrEnded(After(y, run).state, After(y, run).world)
    decreases |run|
  {
    if run != [] {
      EventKeepsHeld(y, run[0]);
      EventKeepsSane(y, run[0]);
      assert forall i :: 0 <= i < |run[1..]| ==> run[1..][i] == run[i + 1];
      RunKeepsHeld(Next(y, run[0]), run[1..]);
    }
  }

  /** Within one lifetime every order Upstox accepted is polled or unconfirmed, until Upstox has ended it and the
      ledger holds everything it ever executed. */
  lemma NeverForgotten(run: seq<Event>, id: BrokerId)
    requires Possible(DAY_START, run) && NoRestart(run) && id in After(DAY_START, run).world.broker
    ensures var y := After(DAY_START, run);
      var b := y.world.broker[id];
      || Kept(y.state, id, b.order.cid)
      || (b.ended.Some? && QtyIn(y.ledger, b.order.cid) == SumQ(b.execs))
  {
    Runs.NeverForgotten(run, id);
    DayStartIsSane();
    NoRestartNoGaps(DAY_START, run);
    RunKeepsHeld(DAY_START, run);
  }
}
