/** Upstox's truth and the ledger beside the adapter's state, and what ties the three together. */
module World {
  import opened InsertionDict
  import opened Orders
  import opened FillPoll
  import opened SweepLaws

  /** One execution at the exchange. */
  datatype Exec = Exec(quantity: int, price: real)

  /** An order as Upstox holds it: everything it has executed, and how it ended if it has. */
  datatype BrokerOrder = BrokerOrder(order: Order, execs: seq<Exec>, ended: Option<Status>)

  /** `orders` is every order the ledger registered today, `closed` those it recorded as ended or never
      placed, and `unpolled` those a restart named in an alert instead of polling. */
  datatype World = World(orders: set<Order>, broker: map<BrokerId, BrokerOrder>, closed: set<Order>,
                         unpolled: set<Order>)

  /** The fills table, as totals per order and the ids it holds. */
  datatype Ledger = Ledger(quantity: map<Cid, int>, value: map<Cid, real>, ids: map<FillId, Cid>)

  const EMPTY_LEDGER := Ledger(map[], map[], map[])

  function QtyIn(l: Ledger, c: Cid): int {
    if c in l.quantity then l.quantity[c] else 0
  }

  function ValueIn(l: Ledger, c: Cid): real {
    if c in l.value then l.value[c] else 0.0
  }

  /** INSERT OR IGNORE: a fill whose id the table already holds is dropped. */
  function Insert(l: Ledger, f: Fill): Ledger {
    if f.id in l.ids then l
    else
      Ledger(l.quantity[f.cid := QtyIn(l, f.cid) + f.quantity],
             l.value[f.cid := ValueIn(l, f.cid) + Value(f.quantity, f.price)],
             l.ids[f.id := f.cid])
  }

  /** The table after a list of fills, first to last. */
  function Post(l: Ledger, fills: seq<Fill>): Ledger {
    if fills == [] then l else Insert(Post(l, fills[..|fills| - 1]), fills[|fills| - 1])
  }

  lemma PostOne(l: Ledger, fills: seq<Fill>, f: Fill)
    ensures Post(l, fills + [f]) == Insert(Post(l, fills), f)
  {
    assert (fills + [f])[..|fills|] == fills;
  }

  function SumQ(e: seq<Exec>): int {
    if e == [] then 0 else SumQ(e[..|e| - 1]) + e[|e| - 1].quantity
  }

  function SumV(e: seq<Exec>): real {
    if e == [] then 0.0 else SumV(e[..|e| - 1]) + Value(e[|e| - 1].quantity, e[|e| - 1].price)
  }

  predicate ExecsOk(b: BrokerOrder) {
    && (forall i :: 0 <= i < |b.execs| ==> b.execs[i].quantity > 0 && b.execs[i].price > 0.0)
    && SumQ(b.execs) <= b.order.quantity
    && (b.ended == Some(Status.Filled) ==> SumQ(b.execs) == b.order.quantity)
  }

  lemma {:induction false} LongerPrefixIsMore(e: seq<Exec>, m: nat, n: nat)
    requires forall i :: 0 <= i < |e| ==> e[i].quantity > 0 && e[i].price > 0.0
    requires m <= n <= |e|
    ensures SumQ(e[..m]) + (n - m) <= SumQ(e[..n])
    ensures m < n ==> SumV(e[..m]) < SumV(e[..n])
    ensures 0 <= SumQ(e[..m])
    decreases n
  {
    if n > 0 {
      assert e[..n][..n - 1] == e[..n - 1] && e[..n][n - 1] == e[n - 1];
      ValuePositive(e[n - 1].quantity, e[n - 1].price);
      if m < n {
        LongerPrefixIsMore(e, m, n - 1);
      } else {
        LongerPrefixIsMore(e, m - 1, n - 1);
      }
    }
  }

  lemma ValuePositive(q: int, p: real)
    requires q > 0 && p > 0.0
    ensures Value(q, p) > 0.0
  {
  }

  /** `q` units worth `v` are what the first `m` executions amount to. */
  predicate IsPrefix(e: seq<Exec>, m: nat, q: int, v: real) {
    m <= |e| && SumQ(e[..m]) == q && SumV(e[..m]) == v
  }

  /** Two prefixes of the same quantity are the same, and a larger one is worth more. */
  lemma PrefixesCompare(b: BrokerOrder, m: nat, q: int, v: real, m': nat, q': int, v': real)
    requires ExecsOk(b) && IsPrefix(b.execs, m, q, v) && IsPrefix(b.execs, m', q', v')
    ensures q == q' ==> m == m' && v == v'
    ensures q < q' ==> m < m' && v < v'
    ensures 0 <= q <= SumQ(b.execs) && (q == SumQ(b.execs) ==> m == |b.execs|)
  {
    var e := b.execs;
    assert e[..|e|] == e;
    LongerPrefixIsMore(e, m, |e|);
    if m <= m' {
      LongerPrefixIsMore(e, m, m');
    } else {
      LongerPrefixIsMore(e, m', m);
    }
  }

  // ---- an honest Upstox

  predicate SameTriple(o: Order, p: Order) {
    o.tag == p.tag && o.side == p.side && o.quantity == p.quantity
  }

  /** Executions are positive and within the order, each order was sent once, and no two orders of the
      day share an id or a (tag, side, quantity). */
  ghost predicate Honest(w: World) {
    && (forall o :: o in w.orders ==> o.quantity > 0)
    && w.unpolled <= w.orders && w.closed <= w.orders
    && (forall o, p :: o in w.orders && p in w.orders && (o.cid == p.cid || SameTriple(o, p)) ==> o == p)
    && (forall id :: id in w.broker ==> w.broker[id].order in w.orders && ExecsOk(w.broker[id]))
    && (forall i, j :: i in w.broker && j in w.broker && w.broker[i].order == w.broker[j].order ==> i == j)
  }

  /** A details reply, where it can be read, tells some past state of the order; a terminal status
      tells its last one. Anything may be unreadable, and a reply may be stale. */
  ghost predicate Truthful(r: Reply, b: BrokerOrder) {
    r.Details? && FilledQuantity(r.filled).Some? ==>
      exists m: nat, v: real ::
        && IsPrefix(b.execs, m, FilledQuantity(r.filled).value, v)
        && (AveragePrice(r.average).Price? && FilledQuantity(r.filled).value > 0 ==>
              Value(FilledQuantity(r.filled).value, AveragePrice(r.average).value) == v)
        && (r.status.Some? && Terminal(r.status.value) ==> m == |b.execs| && b.ended == r.status)
  }

  /** A book entry is one of the day's orders as it was placed, or matches none of them. */
  ghost predicate TruthfulEntry(e: Entry, w: World) {
    e.id.Some? ==>
      || (e.id.value in w.broker && Carries(e, w.broker[e.id.value].order) && Same(e, w.broker[e.id.value].order))
      || (forall o :: o in w.orders ==> !(Carries(e, o) && Same(e, o)))
  }

  ghost predicate TruthfulBook(book: seq<Entry>, w: World) {
    forall i :: 0 <= i < |book| ==> TruthfulEntry(book[i], w)
  }

  ghost predicate TruthfulEnv(env: Env, w: World) {
    && (forall id :: id in w.broker ==> Truthful(env.wire(id), w.broker[id]))
    && (env.book.Book? ==> TruthfulBook(env.book.entries, w))
  }

  /** With distinct orders, whatever the book shows for one of them is that order. */
  lemma {:induction false} MatchesAreMine(book: seq<Entry>, o: Order, w: World)
    requires Honest(w) && TruthfulBook(book, w) && o in w.orders
    ensures forall k :: 0 <= k < |Matches(book, o)| ==>
              Matches(book, o)[k] in w.broker && w.broker[Matches(book, o)[k]].order == o
  {
    if book != [] {
      assert TruthfulEntry(book[0], w);
      assert TruthfulBook(book[1..], w) by {
        forall i | 0 <= i < |book[1..]|
          ensures TruthfulEntry(book[1..][i], w)
        {
          assert book[1..][i] == book[i + 1];
        }
      }
      MatchesAreMine(book[1..], o, w);
    }
  }

  // ---- the invariants

  /** The ledger's total for one broker order is what some prefix of its executions amounts to. */
  ghost predicate Booked(l: Ledger, b: BrokerOrder) {
    exists m: nat :: IsPrefix(b.execs, m, QtyIn(l, b.order.cid), ValueIn(l, b.order.cid))
  }

  /** Everything the order can ever fill is in the ledger. */
  predicate Finished(l: Ledger, b: BrokerOrder) {
    QtyIn(l, b.order.cid) == SumQ(b.execs) && (b.ended.Some? || SumQ(b.execs) == b.order.quantity)
  }

  predicate NoFills(l: Ledger, c: Cid) {
    QtyIn(l, c) == 0 && ValueIn(l, c) == 0.0
  }

  ghost predicate AtBroker(w: World, c: Cid) {
    exists id :: id in w.broker && w.broker[id].order.cid == c
  }

  /** A fill's id names the broker order it came from, at a quantity no larger than the ledger's. */
  predicate Named(l: Ledger, f: FillId, w: World)
    requires f in l.ids
  {
    && f.broker in w.broker && w.broker[f.broker].order.cid == l.ids[f]
    && 0 < f.filled <= QtyIn(l, l.ids[f])
  }

  ghost predicate LedgerOk(l: Ledger, w: World) {
    && (forall id :: id in w.broker ==> Booked(l, w.broker[id]))
    && (forall c :: !AtBroker(w, c) ==> NoFills(l, c))
    && (forall id :: id in w.broker && w.broker[id].order in w.closed ==> Finished(l, w.broker[id]))
    && (forall f :: f in l.ids ==> Named(l, f, w))
  }

  ghost predicate Agrees(l: Ledger, c: Cid, filled: int, average: real) {
    QtyIn(l, c) == filled && ValueIn(l, c) == Value(filled, average)
  }

  /** No order is in two of the adapter's collections, or under two broker ids. */
  ghost predicate OnePlace(s: State) {
    && (forall c :: c in s.unconfirmed.vals ==> s.unconfirmed.vals[c].cid == c && c !in s.watch.vals)
    && (forall c :: c in s.watch.vals ==> s.watch.vals[c].order.cid == c)
    && (forall i :: i in s.pending.vals ==>
          s.pending.vals[i].order.cid !in s.unconfirmed.vals && s.pending.vals[i].order.cid !in s.watch.vals)
    && (forall i, j :: i in s.pending.vals && j in s.pending.vals && i != j ==>
          s.pending.vals[i].order.cid != s.pending.vals[j].order.cid)
  }

  /** Whatever the adapter has reported for an order is what the ledger holds for it. */
  ghost predicate LedgerAgrees(s: State, l: Ledger) {
    && (forall i :: i in s.pending.vals ==>
          Agrees(l, s.pending.vals[i].order.cid, s.pending.vals[i].filled, s.pending.vals[i].average))
    && (forall c :: c in s.unconfirmed.vals ==> NoFills(l, c))
    && (forall c :: c in s.watch.vals ==> Agrees(l, c, s.watch.vals[c].filled, s.watch.vals[c].average))
  }

  /** Every pending id is the broker's id for that order, and every tracked order is registered and is
      not one of those named in an alert. */
  ghost predicate Mine(s: State, w: World) {
    && (forall i :: i in s.pending.vals ==>
          i in w.broker && w.broker[i].order == s.pending.vals[i].order && s.pending.vals[i].order !in w.unpolled)
    && (forall c :: c in s.unconfirmed.vals ==> s.unconfirmed.vals[c] in w.orders - w.unpolled)
    && (forall c :: c in s.watch.vals ==> s.watch.vals[c].order in w.orders - w.unpolled)
  }

  /** An order Upstox holds is polled, looked for, named in an alert, or finished. */
  predicate Accounted(s: State, l: Ledger, w: World, id: BrokerId)
    requires id in w.broker
  {
    var o := w.broker[id].order;
    || id in s.pending.vals || o.cid in s.unconfirmed.vals || o.cid in s.watch.vals || o in w.unpolled
    || Finished(l, w.broker[id])
  }

  ghost predicate Covered(s: State, l: Ledger, w: World) {
    forall id :: id in w.broker ==> Accounted(s, l, w, id)
  }

  ghost predicate Good(s: State, l: Ledger, w: World) {
    Honest(w) && LedgerOk(l, w) && OnePlace(s) && LedgerAgrees(s, l) && Mine(s, w) && Covered(s, l, w)
  }

  // ---- booking one more fill

  /** What an honest poll's fill brings the entry to is a prefix of the order's executions. */
  lemma EntryIsPrefix(id: BrokerId, t: Tracked, reply: Reply, estimate: Estimate, b: BrokerOrder) returns (m: nat)
    requires Truthful(reply, b) && t.filled >= 0
    requires PollOrder(id, t, reply, estimate).fills != []
    ensures var e := PollOrder(id, t, reply, estimate).entry;
      IsPrefix(b.execs, m, e.filled, Value(e.filled, e.average))
  {
    var filled := FilledQuantity(reply.filled).value;
    var average := AveragePrice(reply.average).value;
    var v: real;
    m, v :| IsPrefix(b.execs, m, filled, v) && Value(filled, average) == v;
  }

  /** The fill of one honest poll has an id the ledger does not hold, so it is booked, and takes the
      ledger from one prefix of the order's executions to a longer one. */
  lemma HonestFillExtends(l: Ledger, w: World, id: BrokerId, t: Tracked, entry: Tracked, f: Fill, m: nat)
    requires LedgerOk(l, w) && id in w.broker && t.order == w.broker[id].order && ExecsOk(w.broker[id])
    requires Agrees(l, t.order.cid, t.filled, t.average)
    requires f.cid == t.order.cid && f.id == FillId(id, entry.filled)
    requires f.quantity == entry.filled - t.filled > 0
    requires Value(f.quantity, f.price) == Value(entry.filled, entry.average) - Value(t.filled, t.average)
    requires IsPrefix(w.broker[id].execs, m, entry.filled, Value(entry.filled, entry.average))
    ensures f.id !in l.ids
    ensures Agrees(Insert(l, f), t.order.cid, entry.filled, entry.average)
    ensures Booked(Insert(l, f), w.broker[id])
    ensures 0 <= QtyIn(l, f.cid) < QtyIn(Insert(l, f), f.cid) <= SumQ(w.broker[id].execs)
  {
    var b, c := w.broker[id], t.order.cid;
    assert f.id in l.ids ==> Named(l, f.id, w);
    var m0: nat :| IsPrefix(b.execs, m0, QtyIn(l, c), ValueIn(l, c));
    PrefixesCompare(b, m0, QtyIn(l, c), ValueIn(l, c), m, entry.filled, Value(entry.filled, entry.average));
    PrefixesCompare(b, m, entry.filled, Value(entry.filled, entry.average), m0, QtyIn(l, c), ValueIn(l, c));
    assert IsPrefix(b.execs, m, QtyIn(Insert(l, f), c), ValueIn(Insert(l, f), c));
  }
}
