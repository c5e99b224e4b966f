/** What looking orders up in the book finds, for any book. */
module LookUpLaws {
  import opened InsertionDict
  import opened Orders
  import opened FillPoll
  import opened WorldSteps
  import opened Restart
  import opened BookLaws

  /** An id matches exactly when some entry carries it with the order's tag, side and quantity. */
  lemma {:induction false} MatchIff(book: seq<Entry>, o: Order, id: BrokerId)
    ensures id in Matches(book, o) <==>
            exists i :: 0 <= i < |book| && book[i].id == Some(id) && Shows(book[i], o)
  {
    if book != [] {
      var rest := book[1..];
      MatchIff(rest, o, id);
      assert forall i :: 0 <= i < |rest| ==> rest[i] == book[i + 1];
      if id in Matches(rest, o) {
        var i :| 0 <= i < |rest| && rest[i].id == Some(id) && Shows(rest[i], o);
        assert book[i + 1] == rest[i];
      }
      assert forall i :: 0 < i < |book| ==> book[i] == rest[i - 1];
    }
  }

  // ---- unconfirmed placements

  ghost predicate FoundOnce(todo: seq<(Cid, Order)>, book: seq<Entry>, c: Cid) {
    exists i :: 0 <= i < |todo| && todo[i].0 == c && |Matches(book, todo[i].1)| == 1
  }

  lemma FoundOnceSplits(todo: seq<(Cid, Order)>, book: seq<Entry>, c: Cid)
    requires todo != []
    ensures FoundOnce(todo, book, c) <==>
            (todo[0].0 == c && |Matches(book, todo[0].1)| == 1) || FoundOnce(todo[1..], book, c)
  {
    assert forall i :: 0 <= i < |todo[1..]| ==> todo[1..][i] == todo[i + 1];
    if FoundOnce(todo[1..], book, c) {
      var i :| 0 <= i < |todo[1..]| && todo[1..][i].0 == c && |Matches(book, todo[1..][i].1)| == 1;
      assert todo[i + 1].0 == c;
    }
    assert forall i :: 0 < i < |todo| ==> todo[i] == todo[1..][i - 1];
  }

  lemma {:induction false} UnconfirmedLeaveIff(todo: seq<(Cid, Order)>, book: seq<Entry>, r: Resolved, c: Cid)
    ensures c in ResolveUnconfirmed(todo, book, r).state.unconfirmed.vals <==>
            c in r.state.unconfirmed.vals && !FoundOnce(todo, book, c)
    decreases |todo|
  {
    if todo != [] {
      FoundOnceSplits(todo, book, c);
      UnconfirmedLeaveIff(todo[1..], book, ResolveOne(todo[0], book, r), c);
    }
  }

  lemma LookUpAddsNone(s: State, env: Env, c: Cid)
    ensures c in LookUp(s, env).state.unconfirmed.vals ==> c in s.unconfirmed.vals
  {
    if env.book.Book? {
      var t := LookUpIs(s, env);
      var book := env.book.entries;
      UnconfirmedLeaveIff(Items(s.unconfirmed), book, Resolved(t, []), c);
      WatchKeepsUnconfirmed(Items(s.watch), book, ResolveUnconfirmed(Items(s.unconfirmed), book, Resolved(t, [])).state,
                            env.estimate);
    }
  }

  /** A poll that reads the book confirms exactly the placements it shows once: one shown not at all, or
      more than once, stays unconfirmed. */
  lemma ConfirmedIff(s: State, env: Env, c: Cid)
    requires env.book.Book? && c in s.unconfirmed.vals
    ensures c !in LookUp(s, env).state.unconfirmed.vals <==>
            exists id :: ShownOnce(env.book.entries, s.unconfirmed.vals[c], id)
  {
    OneOrNot(env.book.entries, s.unconfirmed.vals[c]);
    var r := LookUpResolves(s, env);
    ItemsFoundOnce(s.unconfirmed, env.book.entries, c);
    UnconfirmedLeaveIff(Items(s.unconfirmed), env.book.entries, r, c);
  }

  lemma OneOrNot(book: seq<Entry>, o: Order)
    ensures |Matches(book, o)| == 1 <==> exists id :: ShownOnce(book, o, id)
    ensures |Matches(book, o)| == 1 ==> ShownOnce(book, o, Matches(book, o)[0])
    ensures forall id :: ShownOnce(book, o, id) ==> Matches(book, o) == [id]
  {
    MatchesMean(book, o);
    if |Matches(book, o)| == 1 {
      assert Matches(book, o) == [Matches(book, o)[0]];
    }
  }

  lemma LookUpResolves(s: State, env: Env) returns (r: Resolved)
    requires env.book.Book? && s.unconfirmed.vals != map[]
    ensures r.state.unconfirmed == s.unconfirmed
    ensures LookUp(s, env).state.unconfirmed
            == ResolveUnconfirmed(Items(s.unconfirmed), env.book.entries, r).state.unconfirmed
  {
    var checkWatch := s.watch.keys != [] && WatchDue(s.watchCheckedAt, env.now);
    var book := env.book.entries;
    r := Resolved(if checkWatch then s.(watchCheckedAt := Some(env.now)) else s, []);
    WatchKeepsUnconfirmed(Items(s.watch), book, ResolveUnconfirmed(Items(s.unconfirmed), book, r).state, env.estimate);
  }

  lemma ItemsFoundOnce(d: Unconfirmed, book: seq<Entry>, c: Cid)
    requires c in d.vals
    ensures FoundOnce(Items(d), book, c) <==> |Matches(book, d.vals[c])| == 1
  {
    ItemsAreThere(d);
    KeysAndValues(d, c);
    var i :| 0 <= i < |d.keys| && d.keys[i] == c;
    assert Items(d)[i] == (c, d.vals[c]);
  }

  lemma {:induction false} WatchKeepsUnconfirmed(todo: seq<(Cid, Held)>, book: seq<Entry>, s: State, estimate: Estimate)
    ensures ResolveWatch(todo, book, s, estimate).unconfirmed == s.unconfirmed
    decreases |todo|
  {
    if todo != [] {
      WatchKeepsUnconfirmed(todo[1..], book, WatchOne(todo[0], book, s, estimate), estimate);
    }
  }

  /** Without a readable book a poll confirms nothing. */
  lemma UnreadBookConfirmsNothing(s: State, env: Env)
    requires !env.book.Book?
    ensures PollFills(s, env).state.unconfirmed == s.unconfirmed && PollFills(s, env).state.watch == s.watch
  {
  }

  // ---- what looking up reports

  lemma {:induction false} DuplicatesAreProblems(todo: seq<(Cid, Order)>, book: seq<Entry>, r: Resolved)
    ensures ResolveUnconfirmed(todo, book, r).problems != [] <==>
            r.problems != [] || exists i :: 0 <= i < |todo| && ShownTwice(book, todo[i].1)
    decreases |todo|
  {
    if todo != [] {
      var rest := todo[1..];
      MatchesMean(book, todo[0].1);
      DuplicatesAreProblems(rest, book, ResolveOne(todo[0], book, r));
      assert forall i :: 0 <= i < |rest| ==> rest[i] == todo[i + 1];
      if i :| 0 <= i < |rest| && ShownTwice(book, rest[i].1) {
        assert ShownTwice(book, todo[i + 1].1);
      }
      assert forall i :: 0 < i < |todo| ==> todo[i] == rest[i - 1];
    }
  }

  /** Some unconfirmed placement is in the book twice or more. */
  ghost predicate SomeTwice(s: State, book: seq<Entry>) {
    exists c :: c in s.unconfirmed.vals && ShownTwice(book, s.unconfirmed.vals[c])
  }

  lemma ItemsShownTwice(s: State, book: seq<Entry>)
    ensures SomeTwice(s, book) <==>
            exists i :: 0 <= i < |Items(s.unconfirmed)| && ShownTwice(book, Items(s.unconfirmed)[i].1)
  {
    var todo := Items(s.unconfirmed);
    ItemsAreThere(s.unconfirmed);
    if i :| 0 <= i < |todo| && ShownTwice(book, todo[i].1) {
      assert todo[i].0 in s.unconfirmed.vals;
    }
    if c :| c in s.unconfirmed.vals && ShownTwice(book, s.unconfirmed.vals[c]) {
      KeysAndValues(s.unconfirmed, c);
      var i :| 0 <= i < |s.unconfirmed.keys| && s.unconfirmed.keys[i] == c;
      assert todo[i].1 == s.unconfirmed.vals[c];
    }
  }

  /** What looking up goes on to report: an outage when the book is out of reach, and a reply that cannot be trusted
      when it is unusable or shows a placement twice -- each only with something unconfirmed. */
  lemma LookUpReports(s: State, env: Env)
    ensures LookUp(s, env).unavailable != [] <==> s.unconfirmed.keys != [] && env.book.BookUnreachable?
    ensures LookUp(s, env).contract != [] <==>
            s.unconfirmed.keys != []
            && (env.book.BookUnusable? || (env.book.Book? && SomeTwice(s, env.book.entries)))
  {
    if env.book.Book? {
      var t := LookUpIs(s, env);
      var r := Resolved(t, []);
      DuplicatesAreProblems(Items(s.unconfirmed), env.book.entries, r);
      ItemsShownTwice(s, env.book.entries);
      var checkWatch := s.watch.keys != [] && WatchDue(s.watchCheckedAt, env.now);
      DuplicatesAreProblems(Items(s.unconfirmed), env.book.entries,
                            Resolved(if checkWatch then s.(watchCheckedAt := Some(env.now)) else s, []));
    }
  }

  // ---- watched orders

  /** The watched orders are due for a check: never checked, or half a minute ago or more. */
  predicate CheckDue(s: State, env: Env) {
    s.watchCheckedAt.None? || env.now - s.watchCheckedAt.value >= 30.0
  }

  ghost predicate WatchedOnce(todo: seq<(Cid, Held)>, book: seq<Entry>, c: Cid) {
    exists i :: 0 <= i < |todo| && todo[i].0 == c && |Matches(book, todo[i].1.order)| == 1
  }

  lemma WatchedOnceSplits(todo: seq<(Cid, Held)>, book: seq<Entry>, c: Cid)
    requires todo != []
    ensures WatchedOnce(todo, book, c) <==>
            (todo[0].0 == c && |Matches(book, todo[0].1.order)| == 1) || WatchedOnce(todo[1..], book, c)
  {
    assert forall i :: 0 <= i < |todo[1..]| ==> todo[1..][i] == todo[i + 1];
    if WatchedOnce(todo[1..], book, c) {
      var i :| 0 <= i < |todo[1..]| && todo[1..][i].0 == c && |Matches(book, todo[1..][i].1.order)| == 1;
      assert todo[i + 1].0 == c;
    }
    assert forall i :: 0 < i < |todo| ==> todo[i] == todo[1..][i - 1];
  }

  lemma {:induction false} WatchedLeave(todo: seq<(Cid, Held)>, book: seq<Entry>, s: State, estimate: Estimate, c: Cid)
    ensures c in ResolveWatch(todo, book, s, estimate).watch.vals <==>
            c in s.watch.vals && !WatchedOnce(todo, book, c)
    decreases |todo|
  {
    if todo != [] {
      WatchedOnceSplits(todo, book, c);
      WatchedLeave(todo[1..], book, WatchOne(todo[0], book, s, estimate), estimate, c);
    }
  }

  lemma ItemsWatchedOnce(d: Watch, book: seq<Entry>, c: Cid)
    requires c in d.vals
    ensures WatchedOnce(Items(d), book, c) <==> |Matches(book, d.vals[c].order)| == 1
  {
    ItemsAreThere(d);
    KeysAndValues(d, c);
    var i :| 0 <= i < |d.keys| && d.keys[i] == c;
    assert Items(d)[i] == (c, d.vals[c]);
  }

  /** A poll that reads the book takes an order out of the watch exactly when a check is due and the book shows it
      once. */
  lemma WatchedIff(s: State, env: Env, c: Cid)
    requires env.book.Book? && c in s.watch.vals
    ensures c !in LookUp(s, env).state.watch.vals <==>
            CheckDue(s, env) && exists id :: ShownOnce(env.book.entries, s.watch.vals[c].order, id)
  {
    var book := env.book.entries;
    KeysAndValues(s.watch, c);
    OneOrNot(book, s.watch.vals[c].order);
    ItemsWatchedOnce(s.watch, book, c);
    var t := if CheckDue(s, env) then s.(watchCheckedAt := Some(env.now)) else s;
    UnconfirmedKeepsWatch(Items(s.unconfirmed), book, Resolved(t, []));
    WatchedLeave(Items(s.watch), book, ResolveUnconfirmed(Items(s.unconfirmed), book, Resolved(t, [])).state,
                 env.estimate, c);
  }

  /** The watch clock is set by exactly the polls that check, whether or not the book can be read. */
  lemma ClockIs(s: State, env: Env)
    ensures PollFills(s, env).state.watchCheckedAt == LookUp(s, env).state.watchCheckedAt
    ensures LookUp(s, env).state.watchCheckedAt
            == if s.watch.keys != [] && CheckDue(s, env) then Some(env.now) else s.watchCheckedAt
  {
    var checkWatch := s.watch.keys != [] && CheckDue(s, env);
    var t := if checkWatch then s.(watchCheckedAt := Some(env.now)) else s;
    if env.book.Book? {
      var book := env.book.entries;
      UnconfirmedKeepsWatch(Items(s.unconfirmed), book, Resolved(t, []));
      WatchKeepsClock(Items(s.watch), book, ResolveUnconfirmed(Items(s.unconfirmed), book, Resolved(t, [])).state,
                      env.estimate);
    }
  }

  /** Watching costs at most one book call per interval: a poll less than 30 seconds after one that
      checked the watched orders looks none of them up, and with nothing unconfirmed reads no book at all. */
  lemma WatchingIsThrottled(s: State, first: Env, second: Env, other: BookReply)
    requires s.watch.keys != [] && CheckDue(s, first) && second.now - first.now < 30.0
    ensures var t := PollFills(s, first).state;
      && PollFills(t, second).state.watch == t.watch
      && PollFills(t, second).state.watchCheckedAt == t.watchCheckedAt
      && (t.unconfirmed.keys == [] ==>
            LookUp(t, second) == LookUp(t, second.(book := other)) == Prelude(t, [], [], false))
  {
    var t := PollFills(s, first).state;
    ClockIs(s, first);
    NotDueKeepsWatch(t, second, other);
  }

  lemma NotDueKeepsWatch(t: State, env: Env, other: BookReply)
    requires t.watchCheckedAt.Some? && env.now - t.watchCheckedAt.value < 30.0
    ensures PollFills(t, env).state.watch == t.watch
    ensures PollFills(t, env).state.watchCheckedAt == t.watchCheckedAt
    ensures t.unconfirmed.keys == [] ==> LookUp(t, env) == LookUp(t, env.(book := other)) == Prelude(t, [], [], false)
  {
    if env.book.Book? {
      UnconfirmedKeepsWatch(Items(t.unconfirmed), env.book.entries, Resolved(t, []));
    }
  }

  lemma {:induction false} WatchKeepsClock(todo: seq<(Cid, Held)>, book: seq<Entry>, s: State, estimate: Estimate)
    ensures ResolveWatch(todo, book, s, estimate).watchCheckedAt == s.watchCheckedAt
    decreases |todo|
  {
    if todo != [] {
      WatchKeepsClock(todo[1..], book, WatchOne(todo[0], book, s, estimate), estimate);
    }
  }
}
