/** The adapter's three collections and what each operation does to them, as functions.

    Replies are arbitrary here, well-formed or not. The class in UpstoxAdapter.dfy computes these
    functions in place; the other modules prove what they keep. */
module FillPoll {
  import opened InsertionDict
  import opened Orders

  /** An entry of `_pending`: what has already been reported as fills. */
  datatype Tracked = Tracked(order: Order, filled: int, average: real, fee: real)

  /** An entry of `_watch`, and what the ledger hands back at a restart. */
  datatype Held = Held(order: Order, filled: int, average: real)

  type Pending = Dict<BrokerId, Tracked>
  type Unconfirmed = Dict<Cid, Order>
  type Watch = Dict<Cid, Held>

  datatype State = State(pending: Pending, unconfirmed: Unconfirmed, watch: Watch, watchCheckedAt: Option<real>)

  function Fresh(): State {
    State(Empty(), Empty(), Empty(), None)
  }

  /** GET /order/details for one order. `Unusable` is a reply without a usable `data` object; the
      status is None when it is missing or unknown. */
  datatype Reply = AuthDenied | Unreachable | Unusable | Details(filled: Json, average: Json, status: Option<Status>)

  /** One entry of the order book: None stands for a missing tag or id, a transaction type that is
      neither BUY nor SELL, and a quantity that is not whole. */
  datatype Entry = Entry(tag: Option<Tag>, id: Option<BrokerId>, side: Option<Side>, quantity: Option<int>)

  /** GET /order/retrieve-all. */
  datatype BookReply = BookDenied | BookUnreachable | BookUnusable | Book(entries: seq<Entry>)

  /** What the fee model gives for an order of its quantity at a price; None when it raises. */
  type Estimate = (Order, real) -> Option<real>

  /** Everything one poll reads from outside: the clock, the order book, one details reply per order
      (no poll asks for the same order twice) and the fee model. */
  datatype Env = Env(now: real, book: BookReply, wire: BrokerId -> Reply, estimate: Estimate)

  // ---- fees

  /** `_fee`: the model prices the quantity filled so far, and is not asked about nothing. */
  function Fee(o: Order, filled: int, average: real, estimate: Estimate): Option<real> {
    if filled <= 0 then Some(0.0) else estimate(o.(quantity := filled), average)
  }

  /** `_safe_fee`. */
  function SafeFee(o: Order, filled: int, average: real, estimate: Estimate): real {
    match Fee(o, filled, average, estimate)
    case Some(f) => f
    case None => 0.0
  }

  // ---- polling one order

  datatype Verdict =
    | Live                        // not terminal
    | Complete                    // filled in full
    | EndedUnfilled(ended: EndedOrder)
    | Deferred                    // BrokerUnavailableError
    | Contract                    // BrokerContractError
    | AuthFailed                  // BrokerAuthError
    | Uncaught                    // OverflowError out of _average_price

  /** What polling an order leaves in its entry, the fill it emitted if any, and how it ended. */
  datatype Polled = Polled(entry: Tracked, fills: seq<Fill>, verdict: Verdict)

  function FillPrice(t: Tracked, filled: int, average: real): real
    requires filled > t.filled
  {
    (Value(filled, average) - Value(t.filled, t.average)) / (filled - t.filled) as real
  }

  function PollOrder(id: BrokerId, t: Tracked, reply: Reply, estimate: Estimate): Polled {
    match reply
    case AuthDenied => Polled(t, [], AuthFailed)
    case Unreachable => Polled(t, [], Deferred)
    case Unusable => Polled(t, [], Contract)
    case Details(quantity, average, status) =>
      match FilledQuantity(quantity)
      case None => Polled(t, [], Contract)
      case Some(filled) =>
        if !(t.filled <= filled <= t.order.quantity) then Polled(t, [], Contract)
        else if filled == t.filled then Settle(id, t, [], status)
        else
          match AveragePrice(average)
          case PriceOverflow => Polled(t, [], Uncaught)
          case BadPrice => Polled(t, [], Contract)
          case Price(avg) =>
            var price := FillPrice(t, filled, avg);
            if !(price > 0.0) then Polled(t, [], Contract)
            else
              var estimated := Fee(t.order, filled, avg, estimate);
              var fee := if estimated.Some? then estimated.value else t.fee;
              var fill := Fill(FillId(id, filled), t.order.cid, t.order.symbol, filled - t.filled, price,
                               t.order.side, fee - t.fee);
              Settle(id, Tracked(t.order, filled, avg, fee), [fill], status)
  }

  /** Reads the status once the newly filled quantity has been reported. */
  function Settle(id: BrokerId, t: Tracked, fills: seq<Fill>, status: Option<Status>): Polled {
    match status
    case None => Polled(t, fills, Contract)
    case Some(s) =>
      if !Terminal(s) then Polled(t, fills, Live)
      else if s.Filled? then Polled(t, fills, if t.filled == t.order.quantity then Complete else Contract)
      else Polled(t, fills, EndedUnfilled(EndedOrder(t.order.cid, s, id, t.filled)))
  }

  // ---- one sweep over the pending orders

  datatype Problem =
    | BookUnreadable              // "order book: ..."
    | DuplicateTag(cid: Cid)      // an unconfirmed placement found more than once
    | Troubled(id: BrokerId)      // one order's own error
    | Skipped(count: int)         // "n more order(s) not polled this sweep"

  datatype Stop = Going | ByOutage | ByAuth | ByUncaught

  /** A sweep under way: `calls` lists the orders asked about so far, and `stop` says why no more
      are. */
  datatype Run = Run(pending: Pending, fills: seq<Fill>, unavailable: seq<Problem>, contract: seq<Problem>,
                     notFilled: seq<EndedOrder>, calls: seq<BrokerId>, stop: Stop)

  /** What the sweep makes of one order's poll, with `behind` orders still to come. */
  function Apply(r: Run, id: BrokerId, behind: nat, p: Polled): Run
    requires id in r.pending.vals
  {
    var asked := r.(calls := r.calls + [id], fills := r.fills + p.fills);
    match p.verdict
    case Live => asked.(pending := Put(r.pending, id, p.entry))
    case Complete => asked.(pending := Drop(r.pending, id))
    case EndedUnfilled(e) => asked.(pending := Drop(r.pending, id), notFilled := r.notFilled + [e])
    case Contract => asked.(pending := Put(r.pending, id, p.entry), contract := r.contract + [Troubled(id)])
    case Deferred =>
      asked.(pending := ToBack(r.pending, id), stop := ByOutage,
             unavailable := r.unavailable + [Troubled(id)] + if behind > 0 then [Skipped(behind)] else [])
    case AuthFailed => asked.(stop := ByAuth)
    case Uncaught => asked.(stop := ByUncaught)
  }

  /** One turn of the sweep's loop. */
  function Visit(r: Run, id: BrokerId, behind: nat, env: Env): (v: Run)
    requires id in r.pending.vals
    ensures v.pending.vals == r.pending.vals - {id} || v.pending.vals.Keys == r.pending.vals.Keys
    ensures forall k :: k != id && k in r.pending.vals ==> k in v.pending.vals && v.pending.vals[k] == r.pending.vals[k]
  {
    Apply(r, id, behind, PollOrder(id, r.pending.vals[id], env.wire(id), env.estimate))
  }

  ghost predicate CanSweep(ids: seq<BrokerId>, r: Run) {
    NoDup(ids) && forall id :: id in ids ==> id in r.pending.vals
  }

  ghost function Sweep(ids: seq<BrokerId>, r: Run, env: Env): Run
    requires CanSweep(ids, r)
  {
    if ids == [] || r.stop != Going then r
    else
      var v := Visit(r, ids[0], |ids| - 1, env);
      StillCanSweep(ids, r, env);
      Sweep(ids[1..], v, env)
  }

  lemma StillCanSweep(ids: seq<BrokerId>, r: Run, env: Env)
    requires CanSweep(ids, r) && ids != []
    ensures CanSweep(ids[1..], Visit(r, ids[0], |ids| - 1, env))
  {
    var v := Visit(r, ids[0], |ids| - 1, env);
    forall id | id in ids[1..]
      ensures id in v.pending.vals
    {
      assert id in ids && id != ids[0];
    }
  }

  lemma SweepTurn(ids: seq<BrokerId>, i: nat, r: Run, env: Env)
    requires i < |ids| && CanSweep(ids[i..], r) && r.stop.Going?
    ensures ids[i] in r.pending.vals
    ensures var v := Visit(r, ids[i], |ids| - i - 1, env);
      CanSweep(ids[i + 1..], v) && Sweep(ids[i..], r, env) == Sweep(ids[i + 1..], v, env)
  {
    assert ids[i..][0] == ids[i] && ids[i..][1..] == ids[i + 1..];
    StillCanSweep(ids[i..], r, env);
  }

  // ---- looking orders up in the book

  predicate Carries(e: Entry, o: Order) {
    e.tag == Some(o.tag) && e.id.Some?
  }

  predicate Same(e: Entry, o: Order) {
    e.side == Some(o.side) && e.quantity == Some(o.quantity)
  }

  /** Ids of the entries that carry the order's tag, side and quantity. */
  function Matches(book: seq<Entry>, o: Order): seq<BrokerId> {
    if book == [] then []
    else if Carries(book[0], o) && Same(book[0], o) then [book[0].id.value] + Matches(book[1..], o)
    else Matches(book[1..], o)
  }

  /** Ids of the entries that carry its tag on another side or quantity. */
  function Mismatches(book: seq<Entry>, o: Order): seq<BrokerId> {
    if book == [] then []
    else if Carries(book[0], o) && !Same(book[0], o) then [book[0].id.value] + Mismatches(book[1..], o)
    else Mismatches(book[1..], o)
  }

  function Items<K(==), V>(d: Dict<K, V>): seq<(K, V)> {
    seq(|d.keys|, i requires 0 <= i < |d.keys| => KeyAt(d, i))
  }

  function KeyAt<K(==), V>(d: Dict<K, V>, i: nat): (K, V)
    requires i < |d.keys|
  {
    KeysAndValues(d, d.keys[i]);
    (d.keys[i], d.vals[d.keys[i]])
  }

  datatype Resolved = Resolved(state: State, problems: seq<Problem>)

  /** `_resolve_unconfirmed` for one unconfirmed placement, and over a snapshot of all of them. */
  function ResolveOne(item: (Cid, Order), book: seq<Entry>, r: Resolved): Resolved {
    var (key, o) := item;
    var found := Matches(book, o);
    if |found| == 0 then r
    else if |found| > 1 then r.(problems := r.problems + [DuplicateTag(o.cid)])
    else
      r.(state := r.state.(unconfirmed := Drop(r.state.unconfirmed, key),
                           pending := Put(r.state.pending, found[0], Tracked(o, 0, 0.0, 0.0))))
  }

  function ResolveUnconfirmed(todo: seq<(Cid, Order)>, book: seq<Entry>, r: Resolved): Resolved {
    if todo == [] then r else ResolveUnconfirmed(todo[1..], book, ResolveOne(todo[0], book, r))
  }

  /** `_resolve_watch` for one watched order, and over a snapshot of all of them. */
  function WatchOne(item: (Cid, Held), book: seq<Entry>, s: State, estimate: Estimate): State {
    var (key, h) := item;
    var found := Matches(book, h.order);
    if |found| != 1 then s
    else s.(watch := Drop(s.watch, key), pending := Put(s.pending, found[0], Adopt(h, estimate)))
  }

  function ResolveWatch(todo: seq<(Cid, Held)>, book: seq<Entry>, s: State, estimate: Estimate): State {
    if todo == [] then s else ResolveWatch(todo[1..], book, WatchOne(todo[0], book, s, estimate), estimate)
  }

  /** The entry of an order taken back from the ledger. */
  function Adopt(h: Held, estimate: Estimate): Tracked {
    Tracked(h.order, h.filled, h.average, SafeFee(h.order, h.filled, h.average, estimate))
  }

  // ---- poll_fills

  const WATCH_INTERVAL_S := 30.0

  /** `_watch_due`. */
  predicate WatchDue(checkedAt: Option<real>, now: real) {
    checkedAt.None? || now - checkedAt.value >= WATCH_INTERVAL_S
  }

  datatype Raised =
    | Nothing
    | ContractError(notFilled: seq<EndedOrder>)
    | AmbiguousError(notFilled: seq<EndedOrder>)
    | UnavailableError(notFilled: seq<EndedOrder>)
    | NotFilledError(notFilled: seq<EndedOrder>)
    | AuthError
    | UncaughtError

  /** `_raise_poll_problems`. */
  function RaisePollProblems(unconfirmed: bool, unavailable: seq<Problem>, contract: seq<Problem>,
                             notFilled: seq<EndedOrder>): Raised {
    if contract == [] && !unconfirmed && unavailable == [] && notFilled == [] then Nothing
    else if contract != [] then ContractError(notFilled)
    else if unconfirmed then AmbiguousError(notFilled)
    else if unavailable != [] then UnavailableError(notFilled)
    else NotFilledError(notFilled)
  }

  /** The part of a poll before its sweep: whether it goes on, and the problems so far. */
  datatype Prelude = Prelude(state: State, unavailable: seq<Problem>, contract: seq<Problem>, denied: bool)

  function LookUp(s: State, env: Env): Prelude {
    var checkWatch := s.watch.keys != [] && WatchDue(s.watchCheckedAt, env.now);
    var stamped := if checkWatch then s.(watchCheckedAt := Some(env.now)) else s;
    if s.unconfirmed.keys == [] && !checkWatch then Prelude(stamped, [], [], false)
    else
      var reported := if s.unconfirmed.keys != [] then [BookUnreadable] else [];
      match env.book
      case BookDenied => Prelude(stamped, [], [], true)
      case BookUnreachable => Prelude(stamped, reported, [], false)
      case BookUnusable => Prelude(stamped, [], reported, false)
      case Book(entries) =>
        var r := ResolveUnconfirmed(Items(s.unconfirmed), entries, Resolved(stamped, []));
        var resolved := if checkWatch then ResolveWatch(Items(s.watch), entries, r.state, env.estimate) else r.state;
        Prelude(resolved, [], r.problems, false)
  }

  /** One poll: the new state, the fills in the order the callback received them, the orders asked
      about and what the poll raised. */
  datatype Poll = Poll(state: State, fills: seq<Fill>, calls: seq<BrokerId>, raised: Raised)

  function StartRun(p: Prelude): Run {
    Run(p.state.pending, [], p.unavailable, p.contract, [], [], Going)
  }

  function FinishPoll(p: Prelude, run: Run): Poll {
    var raised :=
      if run.stop == ByAuth then AuthError
      else if run.stop == ByUncaught then UncaughtError
      else RaisePollProblems(p.state.unconfirmed.keys != [], run.unavailable, run.contract, run.notFilled);
    Poll(p.state.(pending := run.pending), run.fills, run.calls, raised)
  }

  ghost function SweepOf(p: Prelude, env: Env): Run {
    PendingCanSweep(p.state.pending, StartRun(p));
    Sweep(p.state.pending.keys, StartRun(p), env)
  }

  ghost function PollFills(s: State, env: Env): Poll {
    var p := LookUp(s, env);
    if p.denied then Poll(p.state, [], [], AuthError) else FinishPoll(p, SweepOf(p, env))
  }

  lemma PendingCanSweep(p: Pending, r: Run)
    requires r.pending == p
    ensures CanSweep(p.keys, r)
  {
    forall id | id in p.keys
      ensures id in p.vals
    {
      KeysAndValues(p, id);
    }
  }

  lemma {:induction false} UnconfirmedKeepsWatch(todo: seq<(Cid, Order)>, book: seq<Entry>, r: Resolved)
    ensures ResolveUnconfirmed(todo, book, r).state.watch == r.state.watch
    ensures ResolveUnconfirmed(todo, book, r).state.watchCheckedAt == r.state.watchCheckedAt
    decreases |todo|
  {
    if todo != [] {
      UnconfirmedKeepsWatch(todo[1..], book, ResolveOne(todo[0], book, r));
    }
  }

  // ---- resume_orders

  datatype Finding = Found(id: BrokerId) | Twice | Elsewhere | Missing

  function Find(book: seq<Entry>, o: Order): Finding {
    var found := Matches(book, o);
    if |found| == 1 then Found(found[0])
    else if |found| > 1 then Twice
    else if Mismatches(book, o) != [] then Elsewhere
    else Missing
  }

  datatype ResumeResult = ResumeResult(notFound: seq<Order>, duplicated: seq<Order>, mismatched: seq<Order>)

  datatype Resumed = Resumed(state: State, result: ResumeResult)

  function Take(h: Held, book: seq<Entry>, r: Resumed, estimate: Estimate): Resumed {
    match Find(book, h.order)
    case Found(id) => r.(state := r.state.(pending := Put(r.state.pending, id, Adopt(h, estimate))))
    case Twice => r.(result := r.result.(duplicated := r.result.duplicated + [h.order]))
    case Elsewhere => r.(result := r.result.(mismatched := r.result.mismatched + [h.order]))
    case Missing =>
      r.(result := r.result.(notFound := r.result.notFound + [h.order]),
         state := r.state.(watch := Put(r.state.watch, h.order.cid, h)))
  }

  function Resume(orders: seq<Held>, book: seq<Entry>, r: Resumed, estimate: Estimate): Resumed {
    if orders == [] then r else Resume(orders[1..], book, Take(orders[0], book, r, estimate), estimate)
  }

  const NO_RESULT := ResumeResult([], [], [])

  // ---- place_order

  /** What a placement records: an order that is, or may be, live at Upstox. */
  function RecordPlaced(s: State, o: Order, id: BrokerId): State {
    s.(pending := Put(s.pending, id, Tracked(o, 0, 0.0, 0.0)))
  }

  function RecordAmbiguous(s: State, o: Order): State {
    s.(unconfirmed := Put(s.unconfirmed, o.cid, o))
  }
}
