/** Each order that ends rejected or cancelled is reported by one poll. */
module Reported {
  import opened InsertionDict
  import opened Orders
  import opened FillPoll
  import opened SweepLaws
  import opened PollLaws
  import opened World
  import opened WorldSteps
  import opened Runs

  /** The adapter holds the order in one of its collections. */
  ghost predicate Tracks(s: State, c: Cid) {
    || (exists i :: i in s.pending.vals && s.pending.vals[i].order.cid == c)
    || (exists k :: k in s.unconfirmed.vals && s.unconfirmed.vals[k].cid == c)
    || (exists k :: k in s.watch.vals && s.watch.vals[k].order.cid == c)
  }

  lemma {:induction false} UnconfirmedTracksNoMore(todo: seq<(Cid, Order)>, book: seq<Entry>, r: Resolved, c: Cid)
    requires StillThere(todo, r.state.unconfirmed.vals)
    ensures Tracks(ResolveUnconfirmed(todo, book, r).state, c) ==> Tracks(r.state, c)
    decreases |todo|
  {
    if todo != [] {
      var v := ResolveOne(todo[0], book, r);
      assert todo[0].0 in r.state.unconfirmed.vals && r.state.unconfirmed.vals[todo[0].0] == todo[0].1;
      RestStillThere(todo, r.state.unconfirmed.vals, v.state.unconfirmed.vals);
      UnconfirmedTracksNoMore(todo[1..], book, v, c);
    }
  }

  lemma {:induction false} WatchTracksNoMore(todo: seq<(Cid, Held)>, book: seq<Entry>, s: State, estimate: Estimate,
                                              c: Cid)
    requires StillThere(todo, s.watch.vals)
    ensures Tracks(ResolveWatch(todo, book, s, estimate), c) ==> Tracks(s, c)
    decreases |todo|
  {
    if todo != [] {
      var v := WatchOne(todo[0], book, s, estimate);
      assert todo[0].0 in s.watch.vals && s.watch.vals[todo[0].0] == todo[0].1;
      RestStillThere(todo, s.watch.vals, v.watch.vals);
      WatchTracksNoMore(todo[1..], book, v, estimate, c);
    }
  }

  lemma StampTracksSame(s: State, t: State, c: Cid)
    requires t == s || t == s.(watchCheckedAt := t.watchCheckedAt)
    ensures Tracks(t, c) ==> Tracks(s, c)
  {
  }

  lemma BookTracksNoMore(s: State, t: State, book: seq<Entry>, estimate: Estimate, c: Cid)
    requires t == s || t == s.(watchCheckedAt := t.watchCheckedAt)
    ensures var r := ResolveUnconfirmed(Items(s.unconfirmed), book, Resolved(t, [])).state;
      && (Tracks(r, c) ==> Tracks(t, c))
      && (Tracks(ResolveWatch(Items(s.watch), book, r, estimate), c) ==> Tracks(t, c))
  {
    var r := Resolved(t, []);
    ItemsAreThere(s.unconfirmed);
    UnconfirmedTracksNoMore(Items(s.unconfirmed), book, r, c);
    UnconfirmedKeepsWatch(Items(s.unconfirmed), book, r);
    ItemsAreThere(s.watch);
    WatchTracksNoMore(Items(s.watch), book, ResolveUnconfirmed(Items(s.unconfirmed), book, r).state, estimate, c);
  }

  lemma LookUpTracksNoMore(s: State, env: Env, c: Cid)
    ensures Tracks(LookUp(s, env).state, c) ==> Tracks(s, c)
  {
    var t := LookUpIs(s, env);
    StampTracksSame(s, t, c);
    if env.book.Book? {
      BookTracksNoMore(s, t, env.book.entries, env.estimate, c);
    }
  }

  /** Every entry a sweep leaves is of an order it started with, under the same id. */
  ghost predicate NoNewcomers(p: Pending, q: Pending) {
    forall id :: id in q.vals ==> id in p.vals && q.vals[id].order == p.vals[id].order
  }

  lemma {:induction false} SweepAddsNone(ids: seq<BrokerId>, r: Run, env: Env)
    requires CanSweep(ids, r)
    ensures NoNewcomers(r.pending, Sweep(ids, r, env).pending)
    decreases |ids|
  {
    if ids != [] && r.stop.Going? {
      var v := VisitAddsNone(ids, r, env);
      SweepAddsNone(ids[1..], v, env);
      AddsNoneTwice(r.pending, v.pending, Sweep(ids, r, env).pending);
    }
  }

  lemma VisitAddsNone(ids: seq<BrokerId>, r: Run, env: Env) returns (v: Run)
    requires CanSweep(ids, r) && ids != [] && r.stop.Going?
    ensures NoNewcomers(r.pending, v.pending)
    ensures CanSweep(ids[1..], v) && Sweep(ids, r, env) == Sweep(ids[1..], v, env)
  {
    var s := State(r.pending, Empty(), Empty(), None);
    var p;
    v, p := TurnShape(ids, r, s, env);
    PollKeepsOrder(s.pending, ids[0], env);
  }

  lemma PollKeepsOrder(p: Pending, id: BrokerId, env: Env)
    requires id in p.vals
    ensures PolledIn(p, id, env).entry.order == p.vals[id].order
  {
    OnePoll(id, p.vals[id], env.wire(id), env.estimate);
  }

  lemma AddsNoneTwice(p: Pending, q: Pending, t: Pending)
    requires NoNewcomers(p, q) && NoNewcomers(q, t)
    ensures NoNewcomers(p, t)
  {
  }

  lemma PollAddsNone(s: State, env: Env)
    ensures var look, after := LookUp(s, env).state, PollFills(s, env).state;
      NoNewcomers(look.pending, after.pending) && after == look.(pending := after.pending)
  {
    var p := LookUp(s, env);
    if !p.denied {
      PendingCanSweep(p.state.pending, StartRun(p));
      SweepAddsNone(p.state.pending.keys, StartRun(p), env);
    } else {
      assert p.state.(pending := p.state.pending) == p.state;
    }
  }

  /** Whatever Upstox replies, a poll never takes in an order the adapter did not already hold. */
  lemma PollTracksNoMore(s: State, env: Env, c: Cid)
    ensures Tracks(PollFills(s, env).state, c) ==> Tracks(LookUp(s, env).state, c)
    ensures Tracks(LookUp(s, env).state, c) ==> Tracks(s, c)
  {
    PollAddsNone(s, env);
    LookUpTracksNoMore(s, env, c);
  }

  // ---- reported once

  ghost predicate Registered(w: World, c: Cid) {
    exists o :: o in w.orders && o.cid == c
  }

  /** An order the adapter has let go of stays let go until a restart. */
  lemma GoneStaysGone(y: System, e: Event, c: Cid)
    requires Enabled(y, e) && !e.CrashAndRestart? && Registered(y.world, c) && !Tracks(y.state, c)
    ensures Registered(Next(y, e).world, c) && !Tracks(Next(y, e).state, c)
  {
    var o :| o in y.world.orders && o.cid == c;
    assert o in Next(y, e).world.orders;
    if e.PollOnce? {
      PollTracksNoMore(y.state, e.env, c);
    }
  }

  ghost predicate ReportsNow(y: System, e: Event, c: Cid) {
    e.PollOnce? && exists k :: 0 <= k < |Carried(PollFills(y.state, e.env).raised)|
                               && Carried(PollFills(y.state, e.env).raised)[k].cid == c
  }

  ghost predicate Reports(y: System, run: seq<Event>, c: Cid)
    requires Possible(y, run)
    decreases |run|
  {
    run != [] && (ReportsNow(y, run[0], c) || Reports(Next(y, run[0]), run[1..], c))
  }

  lemma ReportedAreTracked(y: System, e: Event, c: Cid)
    requires ReportsNow(y, e, c)
    ensures Tracks(y.state, c)
  {
    var carried := Carried(PollFills(y.state, e.env).raised);
    var k :| 0 <= k < |carried| && carried[k].cid == c;
    var ended := CarriedHaveLeft(y.state, e.env, k);
    assert Tracks(LookUp(y.state, e.env).state, c);
    PollTracksNoMore(y.state, e.env, c);
  }

  lemma {:induction false} GoneIsNotReported(y: System, run: seq<Event>, c: Cid)
    requires Possible(y, run) && NoRestart(run) && Registered(y.world, c) && !Tracks(y.state, c)
    ensures !Reports(y, run, c)
    decreases |run|
  {
    if run != [] {
      if ReportsNow(y, run[0], c) {
        ReportedAreTracked(y, run[0], c);
      }
      GoneStaysGone(y, run[0], c);
      assert forall i :: 0 <= i < |run[1..]| ==> run[1..][i] == run[i + 1];
      GoneIsNotReported(Next(y, run[0]), run[1..], c);
    }
  }

  /** After the poll that reports it ended, an order is in none of the adapter's collections. */
  lemma ReportedAreGone(s: State, l: Ledger, w: World, env: Env, k: nat)
    requires Good(s, l, w) && TruthfulEnv(env, w) && k < |Carried(PollFills(s, env).raised)|
    ensures var c := Carried(PollFills(s, env).raised)[k].cid;
      Registered(w, c) && !Tracks(PollFills(s, env).state, c)
  {
    var e := CarriedHaveLeft(s, env, k);
    LookUpKeepsGood(s, l, w, env);
    PollAddsNone(s, env);
    StartIsMine(s, l, w, env, e.broker);
    assert w.broker[e.broker].order in w.orders;
    LeftIsUntracked(LookUp(s, env).state, PollFills(s, env).state, e.broker);
  }

  lemma LeftIsUntracked(look: State, after: State, id: BrokerId)
    requires OnePlace(look) && after == look.(pending := after.pending) && NoNewcomers(look.pending, after.pending)
    requires id in look.pending.vals && id !in after.pending.vals
    ensures !Tracks(after, look.pending.vals[id].order.cid)
  {
    forall i | i in after.pending.vals
      ensures after.pending.vals[i].order.cid != look.pending.vals[id].order.cid
    {
      assert i != id;
    }
  }

  lemma {:induction false} EndedDiffer(ids: seq<BrokerId>, p: Pending, env: Env, j: nat, k: nat)
    requires (forall id :: id in ids ==> id in p.vals) && NoDup(ids)
    requires j < k < |Expected(ids, p, env).ended|
    ensures Expected(ids, p, env).ended[j].broker != Expected(ids, p, env).ended[k].broker
  {
    var polled, rest := PolledIn(p, ids[0], env), Expected(ids[1..], p, env).ended;
    if polled.verdict.EndedUnfilled? {
      EndedNamesItself(ids[0], p.vals[ids[0]], env.wire(ids[0]), env.estimate);
      EndedLeave(ids[1..], p, env, k - 1);
      if j > 0 {
        EndedDiffer(ids[1..], p, env, j - 1, k - 1);
      }
    } else {
      EndedDiffer(ids[1..], p, env, j, k);
    }
  }

  /** Each order that ended rejected or cancelled is reported once: at one place in one poll's report, and
      by no later poll before a restart. */
  lemma ReportedOnce(y: System, run: seq<Event>, j: nat, k: nat)
    requires Sane(y) && Possible(y, run) && NoRestart(run) && run != [] && run[0].PollOnce?
    requires k < |Carried(PollFills(y.state, run[0].env).raised)|
    ensures var ended := Carried(PollFills(y.state, run[0].env).raised);
      && (j < k ==> ended[j].cid != ended[k].cid)
      && !Reports(Next(y, run[0]), run[1..], ended[k].cid)
  {
    var s, env := y.state, run[0].env;
    var ended := Carried(PollFills(s, env).raised);
    ReportedAreGone(s, y.ledger, y.world, env, k);
    assert forall i :: 0 <= i < |run[1..]| ==> run[1..][i] == run[i + 1];
    GoneIsNotReported(Next(y, run[0]), run[1..], ended[k].cid);
    if j < k {
      PlacesDiffer(s, y.ledger, y.world, env, j, k);
    }
  }

  lemma PlacesDiffer(s: State, l: Ledger, w: World, env: Env, j: nat, k: nat)
    requires Good(s, l, w) && TruthfulEnv(env, w) && j < k < |Carried(PollFills(s, env).raised)|
    ensures Carried(PollFills(s, env).raised)[j].cid != Carried(PollFills(s, env).raised)[k].cid
  {
    var a := CarriedHaveLeft(s, env, j);
    var b := CarriedHaveLeft(s, env, k);
    BrokersDiffer(s, env, j, k);
    LookUpKeepsGood(s, l, w, env);
    CidsDiffer(LookUp(s, env).state, a.broker, b.broker);
  }

  lemma BrokersDiffer(s: State, env: Env, j: nat, k: nat)
    requires j < k < |Carried(PollFills(s, env).raised)|
    ensures Carried(PollFills(s, env).raised)[j].broker != Carried(PollFills(s, env).raised)[k].broker
  {
    PollIsReading(s, env);
    KeysHaveValues(Start(s, env));
    EndedDiffer(Start(s, env).keys, Start(s, env), env, j, k);
  }

  lemma CidsDiffer(s: State, i: BrokerId, j: BrokerId)
    requires OnePlace(s) && i in s.pending.vals && j in s.pending.vals && i != j
    ensures s.pending.vals[i].order.cid != s.pending.vals[j].order.cid
  {
  }
}
