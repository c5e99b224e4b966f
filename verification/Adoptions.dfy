/** The orders a look-up takes into the poll, and whether they are polled as themselves, for any book. */
module Adoptions {
  import opened InsertionDict
  import opened Orders
  import opened FillPoll
  import opened PollLaws
  import opened World
  import opened WorldSteps
  import opened BookLaws
  import opened LookUpLaws

  type Adoption = (BrokerId, Tracked)

  // ---- storing a list of entries

  function PutAll(p: Pending, a: seq<Adoption>): Pending
    decreases |a|
  {
    if a == [] then p else PutAll(Put(p, a[0].0, a[0].1), a[1..])
  }

  function Ids(a: seq<Adoption>): seq<BrokerId> {
    if a == [] then [] else [a[0].0] + Ids(a[1..])
  }

  /** `q` holds every entry of `p` and every one of `a`. */
  ghost predicate HoldsAll(p: Pending, a: seq<Adoption>, q: Pending) {
    && (forall id :: id in p.vals ==> id in q.vals && q.vals[id] == p.vals[id])
    && forall i :: 0 <= i < |a| ==> a[i].0 in q.vals && q.vals[a[i].0] == a[i].1
  }

  ghost predicate FreshIds(p: Pending, a: seq<Adoption>) {
    NoDup(Ids(a)) && forall id :: id in Ids(a) ==> id !in p.vals
  }

  /** The entries are of different orders, and of none that `p` holds. */
  ghost predicate Differ(p: Pending, a: seq<Adoption>) {
    && (forall i, j :: 0 <= i < j < |a| ==> a[i].1.order.cid != a[j].1.order.cid)
    && forall id, i :: id in p.vals && 0 <= i < |a| ==> p.vals[id].order.cid != a[i].1.order.cid
  }

  lemma {:induction false} PutAllConcat(p: Pending, a: seq<Adoption>, b: seq<Adoption>)
    ensures PutAll(p, a + b) == PutAll(PutAll(p, a), b)
    decreases |a|
  {
    if a == [] {
      assert a + b == b;
    } else {
      assert (a + b)[0] == a[0] && (a + b)[1..] == a[1..] + b;
      PutAllConcat(Put(p, a[0].0, a[0].1), a[1..], b);
    }
  }

  /** Nothing stored leaves. */
  lemma {:induction false} PutAllKeepsIds(p: Pending, a: seq<Adoption>, id: BrokerId)
    ensures id in PutAll(p, a).vals <==> id in p.vals || id in Ids(a)
    decreases |a|
  {
    if a != [] {
      PutAllKeepsIds(Put(p, a[0].0, a[0].1), a[1..], id);
    }
  }

  lemma HoldsAllSplits(p: Pending, a: seq<Adoption>, q: Pending)
    requires a != [] && a[0].0 !in p.vals
    ensures HoldsAll(p, a, q) <==> HoldsAll(Put(p, a[0].0, a[0].1), a[1..], q)
  {
    var v := Put(p, a[0].0, a[0].1);
    if HoldsAll(p, a, q) {
      forall i | 0 <= i < |a[1..]|
        ensures a[1..][i].0 in q.vals && q.vals[a[1..][i].0] == a[1..][i].1
      {
        assert a[1..][i] == a[i + 1];
      }
    }
    if HoldsAll(v, a[1..], q) {
      assert a[0].0 in v.vals;
      forall i | 0 <= i < |a|
        ensures a[i].0 in q.vals && q.vals[a[i].0] == a[i].1
      {
        assert i > 0 ==> a[i] == a[1..][i - 1];
      }
      forall id | id in p.vals
        ensures id in q.vals && q.vals[id] == p.vals[id]
      {
        assert id in v.vals && v.vals[id] == p.vals[id];
      }
    }
  }

  lemma FreshIdsSplits(p: Pending, a: seq<Adoption>)
    requires a != [] && a[0].0 !in p.vals
    ensures FreshIds(p, a) <==> FreshIds(Put(p, a[0].0, a[0].1), a[1..])
  {
    var rest := Ids(a[1..]);
    assert Ids(a)[1..] == rest;
    assert forall id :: id in Ids(a) <==> id == a[0].0 || id in rest;
    assert a[0].0 in Put(p, a[0].0, a[0].1).vals;
  }

  lemma DifferSplits(p: Pending, a: seq<Adoption>)
    requires a != [] && Differ(p, a)
    ensures Differ(Put(p, a[0].0, a[0].1), a[1..])
  {
    var rest, v := a[1..], Put(p, a[0].0, a[0].1);
    forall id, i | id in v.vals && 0 <= i < |rest|
      ensures v.vals[id].order.cid != rest[i].1.order.cid
    {
      assert rest[i] == a[i + 1];
    }
    assert forall i :: 0 <= i < |rest| ==> rest[i] == a[i + 1];
  }

  /** Fresh ids are enough; and for different orders they are needed. */
  lemma {:induction false} PutAllHolds(p: Pending, a: seq<Adoption>)
    ensures FreshIds(p, a) ==> HoldsAll(p, a, PutAll(p, a))
    ensures Differ(p, a) && HoldsAll(p, a, PutAll(p, a)) ==> FreshIds(p, a)
    decreases |a|
  {
    if a != [] {
      if a[0].0 in p.vals {
        assert a[0].0 in Ids(a);
        assert Differ(p, a) ==> p.vals[a[0].0] != a[0].1;
      } else {
        PutAllHolds(Put(p, a[0].0, a[0].1), a[1..]);
        HoldsAllSplits(p, a, PutAll(p, a));
        FreshIdsSplits(p, a);
        if Differ(p, a) {
          DifferSplits(p, a);
        }
      }
    }
  }

  // ---- what a look-up adopts

  /** The unconfirmed placements the book shows once. */
  function Confirmed(todo: seq<(Cid, Order)>, book: seq<Entry>): seq<Adoption> {
    if todo == [] then []
    else
      var found, rest := Matches(book, todo[0].1), Confirmed(todo[1..], book);
      if |found| == 1 then [(found[0], Tracked(todo[0].1, 0, 0.0, 0.0))] + rest else rest
  }

  /** The watched orders it shows once. */
  function Appeared(todo: seq<(Cid, Held)>, book: seq<Entry>, estimate: Estimate): seq<Adoption> {
    if todo == [] then []
    else
      var found, rest := Matches(book, todo[0].1.order), Appeared(todo[1..], book, estimate);
      if |found| == 1 then [(found[0], Adopt(todo[0].1, estimate))] + rest else rest
  }

  function Adopting(s: State, env: Env): seq<Adoption> {
    if !env.book.Book? then []
    else
      Confirmed(Items(s.unconfirmed), env.book.entries)
      + if s.watch.keys != [] && WatchDue(s.watchCheckedAt, env.now)
        then Appeared(Items(s.watch), env.book.entries, env.estimate) else []
  }

  lemma {:induction false} ResolvingPuts(todo: seq<(Cid, Order)>, book: seq<Entry>, r: Resolved)
    ensures ResolveUnconfirmed(todo, book, r).state.pending == PutAll(r.state.pending, Confirmed(todo, book))
    decreases |todo|
  {
    if todo != [] {
      ResolvingPuts(todo[1..], book, ResolveOne(todo[0], book, r));
      var found := Matches(book, todo[0].1);
      if |found| == 1 {
        assert Confirmed(todo, book)[1..] == Confirmed(todo[1..], book);
      }
    }
  }

  lemma {:induction false} WatchingPuts(todo: seq<(Cid, Held)>, book: seq<Entry>, s: State, estimate: Estimate)
    ensures ResolveWatch(todo, book, s, estimate).pending == PutAll(s.pending, Appeared(todo, book, estimate))
    decreases |todo|
  {
    if todo != [] {
      WatchingPuts(todo[1..], book, WatchOne(todo[0], book, s, estimate), estimate);
      var found := Matches(book, todo[0].1.order);
      if |found| == 1 {
        assert Appeared(todo, book, estimate)[1..] == Appeared(todo[1..], book, estimate);
      }
    }
  }

  lemma BookPuts(s: State, t: State, book: seq<Entry>, estimate: Estimate)
    requires t.pending == s.pending
    ensures var r := ResolveUnconfirmed(Items(s.unconfirmed), book, Resolved(t, [])).state;
      var confirmed := Confirmed(Items(s.unconfirmed), book);
      && r.pending == PutAll(s.pending, confirmed + [])
      && ResolveWatch(Items(s.watch), book, r, estimate).pending
         == PutAll(s.pending, confirmed + Appeared(Items(s.watch), book, estimate))
  {
    var confirmed := Confirmed(Items(s.unconfirmed), book);
    ResolvingPuts(Items(s.unconfirmed), book, Resolved(t, []));
    WatchingPuts(Items(s.watch), book, ResolveUnconfirmed(Items(s.unconfirmed), book, Resolved(t, [])).state, estimate);
    PutAllConcat(s.pending, confirmed, Appeared(Items(s.watch), book, estimate));
    assert confirmed + [] == confirmed;
  }

  /** The orders pending when the sweep starts are those pending before, with the adopted ones stored in turn. */
  lemma LookUpPuts(s: State, env: Env)
    ensures Start(s, env) == PutAll(s.pending, Adopting(s, env))
  {
    if env.book.Book? {
      var checkWatch := s.watch.keys != [] && WatchDue(s.watchCheckedAt, env.now);
      var stamped := if checkWatch then s.(watchCheckedAt := Some(env.now)) else s;
      BookPuts(s, stamped, env.book.entries, env.estimate);
    }
  }

  // ---- they are of different orders

  ghost predicate Lists<V>(todo: seq<(Cid, V)>, c: Cid) {
    exists k :: 0 <= k < |todo| && todo[k].0 == c
  }

  /** Each entry is of one of the orders `todo` lists, none listed twice. */
  ghost predicate FromKeys<V>(a: seq<Adoption>, todo: seq<(Cid, V)>) {
    && (forall i :: 0 <= i < |a| ==> Lists(todo, a[i].1.order.cid))
    && forall i, j :: 0 <= i < j < |a| ==> a[i].1.order.cid != a[j].1.order.cid
  }

  ghost predicate KeysDiffer<V>(todo: seq<(Cid, V)>) {
    forall i, j :: 0 <= i < j < |todo| ==> todo[i].0 != todo[j].0
  }

  lemma ListsLater<V>(todo: seq<(Cid, V)>, c: Cid)
    requires todo != []
    ensures Lists(todo[1..], c) ==> Lists(todo, c)
    ensures KeysDiffer(todo) && Lists(todo[1..], c) ==> c != todo[0].0
  {
    if k :| 0 <= k < |todo[1..]| && todo[1..][k].0 == c {
      assert todo[1..][k] == todo[k + 1];
    }
  }

  lemma LaterKeys<V>(a: seq<Adoption>, todo: seq<(Cid, V)>)
    requires todo != [] && FromKeys(a, todo[1..])
    ensures FromKeys(a, todo)
  {
    forall i | 0 <= i < |a|
      ensures Lists(todo, a[i].1.order.cid)
    {
      ListsLater(todo, a[i].1.order.cid);
    }
  }

  lemma FirstKey<V>(x: Adoption, a: seq<Adoption>, todo: seq<(Cid, V)>)
    requires todo != [] && KeysDiffer(todo) && FromKeys(a, todo[1..]) && x.1.order.cid == todo[0].0
    ensures FromKeys([x] + a, todo)
  {
    var all := [x] + a;
    LaterKeys(a, todo);
    assert Lists(todo, x.1.order.cid);
    forall i | 0 < i < |all|
      ensures all[i] == a[i - 1] && all[i].1.order.cid != x.1.order.cid
    {
      ListsLater(todo, a[i - 1].1.order.cid);
    }
  }

  lemma {:induction false} ConfirmedFromKeys(todo: seq<(Cid, Order)>, book: seq<Entry>)
    requires KeysDiffer(todo) && forall i :: 0 <= i < |todo| ==> todo[i].1.cid == todo[i].0
    ensures FromKeys(Confirmed(todo, book), todo)
  {
    if todo != [] {
      var rest, found := todo[1..], Matches(book, todo[0].1);
      assert forall i :: 0 <= i < |rest| ==> rest[i] == todo[i + 1];
      ConfirmedFromKeys(rest, book);
      LaterKeys(Confirmed(rest, book), todo);
      if |found| == 1 {
        FirstKey((found[0], Tracked(todo[0].1, 0, 0.0, 0.0)), Confirmed(rest, book), todo);
      }
    }
  }

  lemma {:induction false} AppearedFromKeys(todo: seq<(Cid, Held)>, book: seq<Entry>, estimate: Estimate)
    requires KeysDiffer(todo) && forall i :: 0 <= i < |todo| ==> todo[i].1.order.cid == todo[i].0
    ensures FromKeys(Appeared(todo, book, estimate), todo)
  {
    if todo != [] {
      var rest, found := todo[1..], Matches(book, todo[0].1.order);
      assert forall i :: 0 <= i < |rest| ==> rest[i] == todo[i + 1];
      AppearedFromKeys(rest, book, estimate);
      LaterKeys(Appeared(rest, book, estimate), todo);
      if |found| == 1 {
        FirstKey((found[0], Adopt(todo[0].1, estimate)), Appeared(rest, book, estimate), todo);
      }
    }
  }

  lemma AdoptingDiffers(s: State, env: Env)
    requires OnePlace(s)
    ensures Differ(s.pending, Adopting(s, env))
  {
    if env.book.Book? {
      var u, w := Items(s.unconfirmed), Items(s.watch);
      ItemsAreThere(s.unconfirmed);
      ItemsAreThere(s.watch);
      ConfirmedFromKeys(u, env.book.entries);
      AppearedFromKeys(w, env.book.entries, env.estimate);
      var a := Confirmed(u, env.book.entries);
      var b := Adopting(s, env)[|a|..];
      assert Adopting(s, env) == a + b && (b == [] || b == Appeared(w, env.book.entries, env.estimate));
      assert FromKeys(b, w);
      TwoListsDiffer(s, a, b, u, w);
    }
  }

  lemma TwoListsDiffer(s: State, a: seq<Adoption>, b: seq<Adoption>, u: seq<(Cid, Order)>, w: seq<(Cid, Held)>)
    requires OnePlace(s) && FromKeys(a, u) && FromKeys(b, w)
    requires StillThere(u, s.unconfirmed.vals) && StillThere(w, s.watch.vals)
    ensures Differ(s.pending, a + b)
  {
    forall i | 0 <= i < |a|
      ensures a[i].1.order.cid in s.unconfirmed.vals
    {
      assert Lists(u, a[i].1.order.cid);
    }
    forall i | 0 <= i < |b|
      ensures b[i].1.order.cid in s.watch.vals
    {
      assert Lists(w, b[i].1.order.cid);
    }
    forall i | 0 <= i < |a + b|
      ensures i < |a| ==> (a + b)[i] == a[i]
      ensures i >= |a| ==> (a + b)[i] == b[i - |a|]
    {
    }
  }

  // ---- the law

  /** When the sweep starts, every order that was pending is polled as it was, and every adopted one under the id
      found for it, as itself, exactly when the ids found are all different and none was pending already. */
  lemma AdoptedArePolled(s: State, env: Env)
    ensures FreshIds(s.pending, Adopting(s, env)) ==> HoldsAll(s.pending, Adopting(s, env), Start(s, env))
    ensures OnePlace(s) ==>
              (HoldsAll(s.pending, Adopting(s, env), Start(s, env)) <==> FreshIds(s.pending, Adopting(s, env)))
  {
    LookUpPuts(s, env);
    PutAllHolds(s.pending, Adopting(s, env));
    if OnePlace(s) {
      AdoptingDiffers(s, env);
    }
  }

  /** Otherwise an entry is overwritten: a placement the book shows under an id already polled takes that order's
      place, and nothing tracks the other order any more. */
  lemma ConfirmationOverwrites(o: Order, t: Tracked, id: BrokerId, env: Env)
    requires t.order != o && env.book == Book([Entry(Some(o.tag), Some(id), Some(o.side), Some(o.quantity))])
    ensures var s := State(Put(Empty(), id, t), Put(Empty(), o.cid, o), Empty(), None);
      LookUp(s, env).state == State(Put(Empty(), id, Tracked(o, 0, 0.0, 0.0)), Empty(), Empty(), None)
  {
    var s := State(Put(Empty(), id, t), Put(Empty(), o.cid, o), Empty(), None);
    var book := env.book.entries;
    assert book[1..] == [] && Matches(book, o) == [id] + Matches([], o);
    var todo := Items(s.unconfirmed);
    assert todo == [(o.cid, o)] && todo[1..] == [];
    assert ResolveUnconfirmed(todo, book, Resolved(s, [])) == ResolveOne(todo[0], book, Resolved(s, []));
    assert Without([o.cid], o.cid) == [];
  }

  lemma {:induction false} ListedIsConfirmed(todo: seq<(Cid, Order)>, book: seq<Entry>, k: nat)
    requires k < |todo| && |Matches(book, todo[k].1)| == 1
    ensures (Matches(book, todo[k].1)[0], Tracked(todo[k].1, 0, 0.0, 0.0)) in Confirmed(todo, book)
  {
    if k > 0 {
      ListedIsConfirmed(todo[1..], book, k - 1);
      assert todo[1..][k - 1] == todo[k];
    }
  }

  /** A placement a poll confirms is adopted under the id the book shows it under, with nothing filled, and its id
      is pending when the sweep starts. */
  lemma ConfirmedIsAdopted(s: State, env: Env, c: Cid, id: BrokerId)
    requires env.book.Book? && c in s.unconfirmed.vals && c !in LookUp(s, env).state.unconfirmed.vals
    requires ShownOnce(env.book.entries, s.unconfirmed.vals[c], id)
    ensures (id, Tracked(s.unconfirmed.vals[c], 0, 0.0, 0.0)) in Adopting(s, env)
    ensures id in Start(s, env).vals
    ensures FreshIds(s.pending, Adopting(s, env)) ==>
              Start(s, env).vals[id] == Tracked(s.unconfirmed.vals[c], 0, 0.0, 0.0)
  {
    OneOrNot(env.book.entries, s.unconfirmed.vals[c]);
    KeysAndValues(s.unconfirmed, c);
    var k :| 0 <= k < |s.unconfirmed.keys| && s.unconfirmed.keys[k] == c;
    var todo := Items(s.unconfirmed);
    assert todo[k] == (c, s.unconfirmed.vals[c]);
    ListedIsConfirmed(todo, env.book.entries, k);
    AdoptedIsPending(s, env, (id, Tracked(s.unconfirmed.vals[c], 0, 0.0, 0.0)));
    if FreshIds(s.pending, Adopting(s, env)) {
      AdoptedArePolled(s, env);
    }
  }

  lemma {:induction false} ListedHasAppeared(todo: seq<(Cid, Held)>, book: seq<Entry>, estimate: Estimate, k: nat)
    requires k < |todo| && |Matches(book, todo[k].1.order)| == 1
    ensures (Matches(book, todo[k].1.order)[0], Adopt(todo[k].1, estimate)) in Appeared(todo, book, estimate)
  {
    if k > 0 {
      ListedHasAppeared(todo[1..], book, estimate, k - 1);
      assert todo[1..][k - 1] == todo[k];
    }
  }

  /** A watched order a poll takes out is adopted under the id the book shows it under, with what the ledger held;
      its id is pending when the sweep starts, with exactly that unless another order took its place, and the watch
      clock reads the poll's time. */
  lemma WatchedIsAdopted(s: State, env: Env, c: Cid, id: BrokerId) returns (fee: real)
    requires env.book.Book? && c in s.watch.vals && c !in LookUp(s, env).state.watch.vals
    requires ShownOnce(env.book.entries, s.watch.vals[c].order, id)
    ensures var h := s.watch.vals[c];
      && SeedFee(h, env.estimate, fee)
      && (id, Tracked(h.order, h.filled, h.average, fee)) in Adopting(s, env)
      && id in Start(s, env).vals
      && (FreshIds(s.pending, Adopting(s, env)) ==>
            Start(s, env).vals[id] == Tracked(h.order, h.filled, h.average, fee))
    ensures LookUp(s, env).state.watchCheckedAt == Some(env.now)
  {
    var h, book := s.watch.vals[c], env.book.entries;
    WatchedIff(s, env, c);
    ClockIs(s, env);
    OneOrNot(book, h.order);
    KeysAndValues(s.watch, c);
    var k :| 0 <= k < |s.watch.keys| && s.watch.keys[k] == c;
    var todo := Items(s.watch);
    assert todo[k] == (c, h);
    ListedHasAppeared(todo, book, env.estimate, k);
    fee := AdoptMeans(h, env.estimate);
    AppearedIsAdopting(s, env, (id, Tracked(h.order, h.filled, h.average, fee)));
    AdoptedIsPending(s, env, (id, Tracked(h.order, h.filled, h.average, fee)));
    if FreshIds(s.pending, Adopting(s, env)) {
      AdoptedArePolled(s, env);
    }
  }

  lemma AppearedIsAdopting(s: State, env: Env, x: Adoption)
    requires env.book.Book? && s.watch.keys != [] && CheckDue(s, env)
    requires x in Appeared(Items(s.watch), env.book.entries, env.estimate)
    ensures x in Adopting(s, env)
  {
  }

  lemma {:induction false} IdsHold(a: seq<Adoption>, x: Adoption)
    requires x in a
    ensures x.0 in Ids(a)
  {
    if a[0] != x {
      IdsHold(a[1..], x);
    }
  }

  lemma AdoptedIsPending(s: State, env: Env, x: Adoption)
    requires x in Adopting(s, env)
    ensures x.0 in Start(s, env).vals
  {
    IdsHold(Adopting(s, env), x);
    LookUpPuts(s, env);
    PutAllKeepsIds(s.pending, Adopting(s, env), x.0);
  }
}
