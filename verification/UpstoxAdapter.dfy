/** The live adapter as the source has it: an object whose methods update three collections in
    place. Each method is proved to compute its function of FillPoll.dfy. */
module UpstoxAdapter {
  import opened InsertionDict
  import opened Orders
  import opened Requests
  import opened FillPoll
  import opened BookLaws

  class Adapter {
    var pending: Pending
    var unconfirmed: Unconfirmed
    var watch: Watch
    var watchCheckedAt: Option<real>
    // What the subscribed callback has received.
    var received: seq<Fill>

    ghost function Model(): State
      reads this
    {
      State(pending, unconfirmed, watch, watchCheckedAt)
    }

    constructor ()
      ensures Model() == Fresh() && received == []
    {
      pending, unconfirmed, watch := Empty(), Empty(), Empty();
      watchCheckedAt := None;
      received := [];
    }

    /** `place_order`: `prepared` says whether the payload could be built, and `wire` what a POST
        would come back with. */
    method PlaceOrder(order: Order, prepared: bool, wire: nat -> Http<PlaceBody>)
      returns (result: Placement, posts: nat)
      modifies this`pending, this`unconfirmed
      ensures posts == if prepared then 1 else 0
      ensures result == if prepared then SendResult(Classified(wire(0), true)) else PlacementRefused
      ensures Model() == match result
                         case Placed(id) => RecordPlaced(old(Model()), order, id)
                         case PlacementAmbiguous => RecordAmbiguous(old(Model()), order)
                         case _ => old(Model())
      ensures result.Placed? ==>
        && pending.vals == old(pending).vals[result.id := Tracked(order, 0, 0.0, 0.0)]
        && pending.keys == if result.id in old(pending).vals then old(pending).keys else old(pending).keys + [result.id]
      ensures result.PlacementAmbiguous? ==> unconfirmed.vals == old(unconfirmed).vals[order.cid := order]
      ensures !result.Placed? ==> pending == old(pending)
      ensures !result.PlacementAmbiguous? ==> unconfirmed == old(unconfirmed)
    {
      if !prepared {
        return PlacementRefused, 0;
      }
      var outcome, calls, _ := MakeRequest(wire, 1, true);
      posts := calls;
      result := SendResult(outcome);
      match result {
        case Placed(id) => pending := Put(pending, id, Tracked(order, 0, 0.0, 0.0));
        case PlacementAmbiguous => unconfirmed := Put(unconfirmed, order.cid, order);
        case _ =>
      }
    }

    /** `_poll_order`. The caller handles the three verdicts that stop a sweep. */
    method PollOne(id: BrokerId, reply: FillPoll.Reply, estimate: Estimate) returns (verdict: Verdict)
      requires id in pending.vals
      modifies this`pending, this`received
      ensures var p := PollOrder(id, old(pending).vals[id], reply, estimate);
        && verdict == p.verdict
        && received == old(received) + p.fills
        && pending == match p.verdict
                      case Complete => Drop(old(pending), id)
                      case EndedUnfilled(_) => Drop(old(pending), id)
                      case Live => Put(old(pending), id, p.entry)
                      case Contract => Put(old(pending), id, p.entry)
                      case _ => old(pending)
    {
      var t := pending.vals[id];
      PutSame(pending, id);
      if reply.AuthDenied? {
        return AuthFailed;
      }
      if reply.Unreachable? {
        return Deferred;
      }
      if reply.Unusable? {
        return Contract;
      }
      var quantity := FilledQuantity(reply.filled);
      if quantity.None? {
        return Contract;
      }
      var filled := quantity.value;
      if !(t.filled <= filled <= t.order.quantity) {
        return Contract;
      }
      var reported := t.filled;
      if filled > reported {
        var average := AveragePrice(reply.average);
        if average.PriceOverflow? {
          return Uncaught;
        }
        if average.BadPrice? {
          return Contract;
        }
        var price := FillPrice(t, filled, average.value);
        if !(price > 0.0) {
          return Contract;
        }
        var estimated := Fee(t.order, filled, average.value, estimate);
        var fee := if estimated.Some? then estimated.value else t.fee;
        received := received + [Fill(FillId(id, filled), t.order.cid, t.order.symbol, filled - reported, price,
                                     t.order.side, fee - t.fee)];
        pending := Put(pending, id, Tracked(t.order, filled, average.value, fee));
        reported := filled;
      }
      if reply.status.None? {
        return Contract;
      }
      var status := reply.status.value;
      if !Terminal(status) {
        return Live;
      }
      if status.Filled? {
        if reported != t.order.quantity {
          return Contract;
        }
        pending := Drop(pending, id);
        return Complete;
      }
      pending := Drop(pending, id);
      return EndedUnfilled(EndedOrder(t.order.cid, status, id, reported));
    }

    method BookMatches(book: seq<Entry>, order: Order) returns (matches: seq<BrokerId>, mismatched: seq<BrokerId>)
      ensures matches == Matches(book, order)
      ensures mismatched == Mismatches(book, order)
    {
      matches, mismatched := [], [];
      var i := 0;
      while i < |book|
        invariant 0 <= i <= |book|
        invariant matches + Matches(book[i..], order) == Matches(book, order)
        invariant mismatched + Mismatches(book[i..], order) == Mismatches(book, order)
      {
        var e := book[i];
        if Carries(e, order) {
          if Same(e, order) {
            matches := matches + [e.id.value];
          } else {
            mismatched := mismatched + [e.id.value];
          }
        }
        i := i + 1;
      }
    }

    method Due(now: real) returns (due: bool)
      modifies this`watchCheckedAt
      ensures due == WatchDue(old(watchCheckedAt), now)
      ensures watchCheckedAt == if due then Some(now) else old(watchCheckedAt)
    {
      if watchCheckedAt.Some? && now - watchCheckedAt.value < WATCH_INTERVAL_S {
        return false;
      }
      watchCheckedAt := Some(now);
      return true;
    }

    method LookUpUnconfirmed(book: seq<Entry>) returns (problems: seq<Problem>)
      modifies this`pending, this`unconfirmed
      ensures var r := ResolveUnconfirmed(Items(old(unconfirmed)), book, Resolved(old(Model()), []));
        Model() == r.state && problems == r.problems
    {
      problems := [];
      var todo := Items(unconfirmed);
      var i := 0;
      while i < |todo|
        invariant 0 <= i <= |todo|
        invariant watch == old(watch)
        invariant ResolveUnconfirmed(todo[i..], book, Resolved(Model(), problems))
               == ResolveUnconfirmed(todo, book, Resolved(old(Model()), []))
      {
        assert todo[i..][0] == todo[i] && todo[i..][1..] == todo[i + 1..];
        ghost var next := ResolveOne(todo[i], book, Resolved(Model(), problems));
        var (key, order) := todo[i];
        var matches, _ := BookMatches(book, order);
        if |matches| > 1 {
          problems := problems + [DuplicateTag(order.cid)];
        } else if |matches| == 1 {
          unconfirmed := Drop(unconfirmed, key);
          pending := Put(pending, matches[0], Tracked(order, 0, 0.0, 0.0));
        }
        assert Resolved(Model(), problems) == next;
        i := i + 1;
      }
    }

    method LookUpWatched(book: seq<Entry>, estimate: Estimate)
      modifies this`pending, this`watch
      ensures Model() == ResolveWatch(Items(old(watch)), book, old(Model()), estimate)
    {
      var todo := Items(watch);
      var i := 0;
      while i < |todo|
        invariant 0 <= i <= |todo|
        invariant ResolveWatch(todo[i..], book, Model(), estimate)
               == ResolveWatch(todo, book, old(Model()), estimate)
      {
        var (key, h) := todo[i];
        var matches, _ := BookMatches(book, h.order);
        if |matches| == 1 {
          watch := Drop(watch, key);
          pending := Put(pending, matches[0], Adopt(h, estimate));
        }
        i := i + 1;
      }
    }

    /** The order-book part of `poll_fills`. */
    method LookUpOrders(env: Env) returns (denied: bool, unavailable: seq<Problem>, contract: seq<Problem>)
      modifies this`pending, this`unconfirmed, this`watch, this`watchCheckedAt
      ensures LookUp(old(Model()), env) == Prelude(Model(), unavailable, contract, denied)
    {
      denied, unavailable, contract := false, [], [];
      var checkWatch := false;
      if watch.keys != [] {
        checkWatch := Due(env.now);
      }
      if unconfirmed.keys != [] || checkWatch {
        match env.book {
          case BookDenied => denied := true;
          case BookUnreachable =>
            if unconfirmed.keys != [] {
              unavailable := [BookUnreadable];
            }
          case BookUnusable =>
            if unconfirmed.keys != [] {
              contract := [BookUnreadable];
            }
          case Book(entries) =>
            UnconfirmedKeepsWatch(Items(unconfirmed), entries, Resolved(Model(), []));
            if unconfirmed.keys != [] {
              contract := LookUpUnconfirmed(entries);
            }
            if checkWatch {
              LookUpWatched(entries, env.estimate);
            }
        }
      }
    }

    /** One turn of the loop of `poll_fills`; `run` and `run'` are the sweep before and after it. */
    method VisitOne(id: BrokerId, behind: nat, env: Env, unavailable: seq<Problem>, contract: seq<Problem>,
                    notFilled: seq<EndedOrder>, calls: seq<BrokerId>, ghost run: Run, ghost before: seq<Fill>)
      returns (unavailable': seq<Problem>, contract': seq<Problem>, notFilled': seq<EndedOrder>,
               calls': seq<BrokerId>, stop: Stop, ghost run': Run)
      requires id in pending.vals
      requires run == Run(pending, run.fills, unavailable, contract, notFilled, calls, Going)
      requires received == before + run.fills
      modifies this`pending, this`received
      ensures run' == Visit(run, id, behind, env)
      ensures run' == Run(pending, run'.fills, unavailable', contract', notFilled', calls', stop)
      ensures received == before + run'.fills
    {
      ghost var p := PollOrder(id, pending.vals[id], env.wire(id), env.estimate);
      run' := Apply(run, id, behind, p);
      unavailable', contract', notFilled', calls', stop := unavailable, contract, notFilled, calls + [id], Going;
      var verdict := PollOne(id, env.wire(id), env.estimate);
      match verdict {
        case Live =>
        case Complete =>
        case EndedUnfilled(e) => notFilled' := notFilled + [e];
        case Contract => contract' := contract + [Troubled(id)];
        case Deferred =>
          unavailable' := unavailable + [Troubled(id)] + if behind > 0 then [Skipped(behind)] else [];
          pending := ToBack(pending, id);
          stop := ByOutage;
        case AuthFailed => stop := ByAuth;
        case Uncaught => stop := ByUncaught;
      }
      assert received == before + run'.fills by {
        assert before + run.fills + p.fills == before + (run.fills + p.fills);
      }
    }

    /** The loop of `poll_fills`. */
    method SweepPending(env: Env, unavailable0: seq<Problem>, contract0: seq<Problem>)
      returns (unavailable: seq<Problem>, contract: seq<Problem>, notFilled: seq<EndedOrder>,
               calls: seq<BrokerId>, stop: Stop, ghost run: Run)
      requires CanSweep(pending.keys, Run(pending, [], unavailable0, contract0, [], [], Going))
      modifies this`pending, this`received
      ensures run == Sweep(old(pending).keys, Run(old(pending), [], unavailable0, contract0, [], [], Going), env)
      ensures run == Run(pending, run.fills, unavailable, contract, notFilled, calls, stop)
      ensures received == old(received) + run.fills
    {
      unavailable, contract, notFilled, calls, stop := unavailable0, contract0, [], [], Going;
      run := Run(pending, [], unavailable, contract, [], [], Going);
      ghost var final := Sweep(pending.keys, run, env);
      var ids := pending.keys;
      var i := 0;
      while i < |ids| && stop.Going?
        invariant 0 <= i <= |ids|
        invariant run == Run(pending, run.fills, unavailable, contract, notFilled, calls, stop)
        invariant received == old(received) + run.fills
        invariant CanSweep(ids[i..], run)
        invariant Sweep(ids[i..], run, env) == final
      {
        SweepTurn(ids, i, run, env);
        unavailable, contract, notFilled, calls, stop, run :=
          VisitOne(ids[i], |ids| - i - 1, env, unavailable, contract, notFilled, calls, run, old(received));
        i := i + 1;
      }
    }

    /** `poll_fills`. */
    method Poll(env: Env) returns (raised: Raised, calls: seq<BrokerId>)
      modifies this
      ensures var p := PollFills(old(Model()), env);
        && Model() == p.state
        && received == old(received) + p.fills
        && calls == p.calls
        && raised == p.raised
    {
      ghost var poll := PollFills(Model(), env);
      ghost var start := LookUp(Model(), env);
      var denied, unavailable, contract := LookUpOrders(env);
      calls := [];
      if denied {
        return AuthError, calls;
      }
      PendingCanSweep(pending, StartRun(start));
      var notFilled, stop;
      ghost var run;
      unavailable, contract, notFilled, calls, stop, run := SweepPending(env, unavailable, contract);
      assert run == SweepOf(start, env) && poll == FinishPoll(start, run);
      if stop == ByAuth {
        return AuthError, calls;
      }
      if stop == ByUncaught {
        return UncaughtError, calls;
      }
      assert start.state.unconfirmed == unconfirmed;
      raised := RaisePollProblems(unconfirmed.keys != [], unavailable, contract, notFilled);
    }

    /** `resume_orders`, with the outcome of its order-book request. */
    method ResumeOrders(orders: seq<Held>, book: BookReply, estimate: Estimate)
      returns (raised: Raised, result: ResumeResult)
      modifies this`pending, this`watch
      ensures orders == [] || !book.Book? ==> Model() == old(Model()) && result == NO_RESULT
      ensures orders == [] ==> raised == Nothing
      ensures orders != [] ==> raised == match book
                                         case Book(_) => Nothing
                                         case BookDenied => AuthError
                                         case BookUnreachable => UnavailableError([])
                                         case BookUnusable => ContractError([])
      ensures orders != [] && book.Book? ==>
        var r := Resume(orders, book.entries, Resumed(old(Model()), NO_RESULT), estimate);
        Model() == r.state && result == r.result
      ensures orders != [] && book.Book? ==>
        && result.notFound == Those(orders, book.entries, Absent)
        && result.duplicated == Those(orders, book.entries, Repeated)
        && result.mismatched == Those(orders, book.entries, Changed)
    {
      result := NO_RESULT;
      raised := Nothing;
      if orders == [] {
        return;
      }
      match book {
        case BookDenied => return AuthError, result;
        case BookUnreachable => return UnavailableError([]), result;
        case BookUnusable => return ContractError([]), result;
        case Book(entries) =>
          ghost var whole := Resume(orders, entries, Resumed(Model(), result), estimate);
          ResumeShows(orders, entries, Resumed(Model(), result), estimate);
          assert orders[0..] == orders;
          var i := 0;
          while i < |orders|
            invariant 0 <= i <= |orders|
            invariant Resume(orders[i..], entries, Resumed(Model(), result), estimate) == whole
          {
            ResumeTurn(orders, i, entries, Resumed(Model(), result), estimate);
            result := TakeOne(orders[i], entries, result, estimate);
            i := i + 1;
          }
      }
    }

    /** One turn of its loop. */
    method TakeOne(h: Held, book: seq<Entry>, soFar: ResumeResult, estimate: Estimate) returns (result: ResumeResult)
      modifies this`pending, this`watch
      ensures Resumed(Model(), result) == Take(h, book, Resumed(old(Model()), soFar), estimate)
    {
      result := soFar;
      var matches, other := BookMatches(book, h.order);
      if |matches| == 1 {
        pending := Put(pending, matches[0], Adopt(h, estimate));
      } else if matches != [] {
        result := result.(duplicated := result.duplicated + [h.order]);
      } else if other != [] {
        result := result.(mismatched := result.mismatched + [h.order]);
      } else {
        result := result.(notFound := result.notFound + [h.order]);
        watch := Put(watch, h.order.cid, h);
      }
    }
  }

  lemma ResumeTurn(orders: seq<Held>, i: nat, book: seq<Entry>, r: Resumed, estimate: Estimate)
    requires i < |orders|
    ensures Resume(orders[i..], book, r, estimate)
            == Resume(orders[i + 1..], book, Take(orders[i], book, r, estimate), estimate)
  {
    assert orders[i..][0] == orders[i] && orders[i..][1..] == orders[i + 1..];
  }
}
