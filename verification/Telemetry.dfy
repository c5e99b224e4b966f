/** The telemetry bridge: one thread pushes every envelope to a bounded queue per client under a lock,
    while each client takes from its own queue whenever it likes. */
module Telemetry {
  import opened InsertionDict

  const MAX_QUEUE := 10
  const MAX_LOGS := 100

  // ---- the push loop as a state machine

  datatype ClientId = ClientId(n: nat)
  datatype Envelope = Envelope(text: string)

  /** An envelope dropped from a client's queue, by its place in the publication order; the size of the
      queue it was dropped from; and how often the client took from it since it was found full. */
  datatype Loss = Loss(n: nat, size: nat, takes: nat)

  /** A client subscribed when `since` envelopes had been published. Its queue and what it has taken hold
      envelopes by their place in the publication order. */
  datatype Client = Client(since: nat, queue: seq<nat>, got: seq<nat>, lost: seq<Loss>)

  /** Where the push to the first client of `todo` stands: before `q.full()`, before `get_nowait()` (with
      how often the client has taken since the check), or before `put_nowait()`. */
  datatype Stage = Checking | Dropping(takes: nat) | Putting

  /** `current` is the place of the envelope being pushed. */
  datatype Phase = Unlocked | Pushing(todo: seq<ClientId>, stage: Stage, current: nat)

  datatype Bridge = Bridge(published: seq<Envelope>, clients: map<ClientId, Client>, subscribers: seq<ClientId>,
                           phase: Phase)

  datatype Step =
    | Subscribe(id: ClientId)
    | Unsubscribe(id: ClientId)
    | Publish(envelope: Envelope)
    | Push                        // the bridge thread's next atomic action while it holds the lock
    | Take(id: ClientId)          // `queue.get` by a client, needing no bridge lock

  predicate Enabled(b: Bridge, s: Step) {
    match s
    case Subscribe(id) => b.phase.Unlocked? && id !in b.clients
    case Unsubscribe(_) => b.phase.Unlocked?
    case Publish(_) => b.phase.Unlocked?
    case Push => b.phase.Pushing? && forall i :: 0 <= i < |b.phase.todo| ==> b.phase.todo[i] in b.clients
    case Take(id) => id in b.clients && b.clients[id].queue != []
  }

  function Next(b: Bridge, s: Step): Bridge
    requires Enabled(b, s)
  {
    match s
    case Subscribe(id) =>
      b.(clients := b.clients[id := Client(|b.published|, [], [], [])], subscribers := b.subscribers + [id])
    case Unsubscribe(id) => b.(subscribers := Without(b.subscribers, id))
    case Publish(e) => b.(published := b.published + [e], phase := Pushing(b.subscribers, Checking, |b.published|))
    case Take(id) =>
      var c := b.clients[id];
      var taken := b.(clients := b.clients[id := c.(queue := c.queue[1..], got := c.got + [c.queue[0]])]);
      if b.phase.Pushing? && b.phase.todo != [] && b.phase.todo[0] == id && b.phase.stage.Dropping?
      then taken.(phase := b.phase.(stage := Dropping(b.phase.stage.takes + 1)))
      else taken
    case Push =>
      if b.phase.todo == [] then b.(phase := Unlocked)
      else
        var id := b.phase.todo[0];
        var c := b.clients[id];
        match b.phase.stage
        case Checking => b.(phase := b.phase.(stage := if |c.queue| == MAX_QUEUE then Dropping(0) else Putting))
        case Dropping(takes) =>
          var kept := if c.queue == [] then c
                      else c.(queue := c.queue[1..], lost := c.lost + [Loss(c.queue[0], |c.queue|, takes)]);
          b.(clients := b.clients[id := kept], phase := b.phase.(stage := Putting))
        case Putting =>
          var after := Pushing(b.phase.todo[1..], Checking, b.phase.current);
          if |c.queue| < MAX_QUEUE then
            b.(clients := b.clients[id := c.(queue := c.queue + [b.phase.current])], phase := after)
          else b.(subscribers := Without(b.subscribers, id), phase := after)
  }

  const NOBODY := Bridge([], map[], [], Unlocked)

  ghost predicate Possible(b: Bridge, run: seq<Step>)
    decreases |run|
  {
    run == [] || (Enabled(b, run[0]) && Possible(Next(b, run[0]), run[1..]))
  }

  ghost function After(b: Bridge, run: seq<Step>): Bridge
    requires Possible(b, run)
    decreases |run|
  {
    if run == [] then b else After(Next(b, run[0]), run[1..])
  }

  // ---- the invariant

  predicate Rising(s: seq<nat>, from: nat, to: nat) {
    && (forall i :: 0 <= i < |s| ==> from <= s[i] < to)
    && (forall i, j :: 0 <= i < j < |s| ==> s[i] < s[j])
  }

  predicate Waiting(b: Bridge, id: ClientId) {
    b.phase.Pushing? && id in b.phase.todo
  }

  /** How many envelopes have been offered to a subscriber. */
  function Offered(b: Bridge, id: ClientId): nat {
    if Waiting(b, id) then b.phase.current else |b.published|
  }

  predicate IsLost(c: Client, n: nat) {
    exists i :: 0 <= i < |c.lost| && c.lost[i].n == n
  }

  /** Every drop took the front: it came before all that is still queued, the client never got it, and each was
      of a later envelope than the one before. */
  ghost predicate DropsFront(c: Client, offered: nat, subscribed: bool) {
    && (forall i :: 0 <= i < |c.lost| ==> c.lost[i].n !in c.got)
    && (forall i, k :: 0 <= i < |c.lost| && 0 <= k < |c.queue| ==> c.lost[i].n < c.queue[k])
    && (forall i, j :: 0 <= i < j < |c.lost| ==> c.lost[i].n < c.lost[j].n)
    && (subscribed ==> forall i :: 0 <= i < |c.lost| ==> c.lost[i].n < offered)
  }

  /** One client: a bounded queue, envelopes that rise in publication order, losses that were each decided
      on a full queue, and, out of all it was offered, nothing else missing. */
  ghost predicate ClientOk(c: Client, published: nat, offered: nat, subscribed: bool) {
    && c.since <= published
    && |c.queue| <= MAX_QUEUE
    && Rising(c.got + c.queue, c.since, published)
    && DropsFront(c, offered, subscribed)
    && (forall i :: 0 <= i < |c.lost| ==> 0 < c.lost[i].size == MAX_QUEUE - c.lost[i].takes)
    && (subscribed ==>
          && Rising(c.got + c.queue, c.since, offered)
          && forall n: nat :: c.since <= n < offered ==> n in c.got || n in c.queue || IsLost(c, n))
  }

  /** The push stands where its first client's queue says it may. */
  predicate StageOk(b: Bridge) {
    b.phase.Pushing? ==>
      && |b.published| == b.phase.current + 1
      && NoDup(b.phase.todo)
      && (forall i :: 0 <= i < |b.phase.todo| ==> b.phase.todo[i] in b.subscribers)
      && (b.phase.todo != [] && b.phase.todo[0] in b.clients ==>
            var c := b.clients[b.phase.todo[0]];
            && (b.phase.stage.Dropping? ==> |c.queue| == MAX_QUEUE - b.phase.stage.takes)
            && (b.phase.stage.Putting? ==> |c.queue| < MAX_QUEUE))
  }

  ghost predicate Sound(b: Bridge) {
    && NoDup(b.subscribers)
    && (forall i :: 0 <= i < |b.subscribers| ==> b.subscribers[i] in b.clients)
    && StageOk(b)
    && (forall id :: id in b.clients ==> b.clients[id].since <= Offered(b, id))
    && forall id :: id in b.clients ==>
         ClientOk(b.clients[id], |b.published|, Offered(b, id), id in b.subscribers)
  }

  // ---- what each action does to one client

  lemma TakingIsOk(c: Client, published: nat, offered: nat, subscribed: bool)
    requires ClientOk(c, published, offered, subscribed) && c.queue != []
    ensures ClientOk(c.(queue := c.queue[1..], got := c.got + [c.queue[0]]), published, offered, subscribed)
  {
    var d := c.(queue := c.queue[1..], got := c.got + [c.queue[0]]);
    assert d.got + d.queue == c.got + c.queue;
    TakingKeepsDrops(c, offered, subscribed);
    if subscribed {
      forall n: nat | c.since <= n < offered
        ensures n in d.got || n in d.queue || IsLost(d, n)
      {
        assert n in c.got || n in c.queue || IsLost(c, n);
        FrontOrRest(c.queue, n);
        assert IsLost(c, n) ==> IsLost(d, n);
      }
    }
  }

  lemma TakingKeepsDrops(c: Client, offered: nat, subscribed: bool)
    requires DropsFront(c, offered, subscribed) && c.queue != []
    ensures DropsFront(c.(queue := c.queue[1..], got := c.got + [c.queue[0]]), offered, subscribed)
  {
    var d := c.(queue := c.queue[1..], got := c.got + [c.queue[0]]);
    assert forall k :: 0 <= k < |d.queue| ==> d.queue[k] == c.queue[k + 1];
  }

  lemma DroppingDropsFront(c: Client, from: nat, offered: nat, takes: nat)
    requires DropsFront(c, offered, true) && c.queue != [] && Rising(c.got + c.queue, from, offered)
    ensures var lost := c.lost + [Loss(c.queue[0], |c.queue|, takes)];
      DropsFront(c.(queue := c.queue[1..], lost := lost), offered, true)
  {
    var d := c.(queue := c.queue[1..], lost := c.lost + [Loss(c.queue[0], |c.queue|, takes)]);
    var s, g := c.got + c.queue, |c.got|;
    assert forall k :: 0 <= k < |c.queue| ==> s[g + k] == c.queue[k];
    assert forall k :: 0 <= k < g ==> s[k] == c.got[k];
    assert s[g] == c.queue[0];
    forall k | 0 <= k < |d.queue|
      ensures d.queue[k] == c.queue[k + 1] > c.queue[0]
    {
      assert s[g + (k + 1)] == c.queue[k + 1];
    }
    assert c.queue[0] !in c.got;
  }

  lemma PuttingKeepsDrops(c: Client, current: nat)
    requires DropsFront(c, current, true)
    ensures DropsFront(c.(queue := c.queue + [current]), current + 1, true)
  {
  }

  lemma FrontOrRest(s: seq<nat>, n: nat)
    requires s != []
    ensures n in s <==> n == s[0] || n in s[1..]
  {
    assert s == [s[0]] + s[1..];
  }

  lemma DroppingIsOk(c: Client, published: nat, offered: nat, takes: nat)
    requires ClientOk(c, published, offered, true) && c.queue != [] && |c.queue| == MAX_QUEUE - takes
    ensures var lost := c.lost + [Loss(c.queue[0], |c.queue|, takes)];
      ClientOk(c.(queue := c.queue[1..], lost := lost), published, offered, true)
  {
    var d := c.(queue := c.queue[1..], lost := c.lost + [Loss(c.queue[0], |c.queue|, takes)]);
    RisingWithout(c.got, c.queue, c.since, published);
    RisingWithout(c.got, c.queue, c.since, offered);
    DroppingDropsFront(c, c.since, offered, takes);
    forall n: nat | c.since <= n < offered
      ensures n in d.got || n in d.queue || IsLost(d, n)
    {
      assert n in c.got || n in c.queue || IsLost(c, n);
      FrontOrRest(c.queue, n);
      LossesKept(c, d, n);
    }
  }

  lemma LossesKept(c: Client, d: Client, n: nat)
    requires |d.lost| == |c.lost| + 1 && d.lost[..|c.lost|] == c.lost
    ensures IsLost(c, n) ==> IsLost(d, n)
    ensures d.lost[|c.lost|].n == n ==> IsLost(d, n)
  {
    if i :| 0 <= i < |c.lost| && c.lost[i].n == n {
      assert d.lost[i] == d.lost[..|c.lost|][i];
    }
  }

  lemma RisingWithout(a: seq<nat>, q: seq<nat>, from: nat, to: nat)
    requires q != [] && Rising(a + q, from, to)
    ensures Rising(a + q[1..], from, to)
  {
    var s, t := a + q, a + q[1..];
    assert forall i :: 0 <= i < |a| ==> t[i] == s[i];
    assert forall i :: |a| <= i < |t| ==> t[i] == s[i + 1];
    forall i, j | 0 <= i < j < |t|
      ensures t[i] < t[j]
    {
      assert s[if i < |a| then i else i + 1] < s[if j < |a| then j else j + 1];
    }
    forall i | 0 <= i < |t|
      ensures from <= t[i] < to
    {
      assert from <= s[if i < |a| then i else i + 1] < to;
    }
  }

  lemma PuttingIsOk(c: Client, current: nat)
    requires ClientOk(c, current + 1, current, true) && c.since <= current && |c.queue| < MAX_QUEUE
    ensures ClientOk(c.(queue := c.queue + [current]), current + 1, current + 1, true)
  {
    var d := c.(queue := c.queue + [current]);
    assert d.got + d.queue == (c.got + c.queue) + [current];
    PuttingKeepsDrops(c, current);
    forall n: nat | c.since <= n < current + 1
      ensures n in d.got || n in d.queue || IsLost(d, n)
    {
      if n < current {
        assert n in c.got || n in c.queue || IsLost(c, n);
        assert IsLost(c, n) ==> IsLost(d, n);
      } else {
        assert d.queue[|c.queue|] == n;
      }
    }
  }

  // ---- every action keeps every client sound

  /** How one client stands. */
  ghost predicate Stands(b: Bridge, k: ClientId)
    requires k in b.clients
  {
    b.clients[k].since <= Offered(b, k) && ClientOk(b.clients[k], |b.published|, Offered(b, k), k in b.subscribers)
  }

  lemma SameStands(b: Bridge, z: Bridge, k: ClientId)
    requires k in b.clients && k in z.clients && z.clients[k] == b.clients[k] && z.published == b.published
    requires Offered(z, k) == Offered(b, k) && (k in z.subscribers <==> k in b.subscribers)
    requires Stands(b, k)
    ensures Stands(z, k)
  {
  }

  lemma NewClientIsOk(n: nat)
    ensures ClientOk(Client(n, [], [], []), n, n, true)
  {
  }

  lemma SubscribingIsSound(b: Bridge, id: ClientId)
    requires Sound(b) && Enabled(b, Subscribe(id))
    ensures Sound(Next(b, Subscribe(id)))
  {
    var z := Next(b, Subscribe(id));
    assert id !in b.subscribers;
    AppendKeeps(b.subscribers, id);
    forall k | k in z.clients
      ensures Stands(z, k)
    {
      if k == id {
        NewClientIsOk(|b.published|);
        assert z.subscribers[|b.subscribers|] == id;
      } else {
        assert Stands(b, k);
        SameStands(b, z, k);
      }
    }
  }

  lemma UnsubscribingIsSound(b: Bridge, id: ClientId)
    requires Sound(b) && Enabled(b, Unsubscribe(id))
    ensures Sound(Next(b, Unsubscribe(id)))
  {
    var z := Next(b, Unsubscribe(id));
    WithoutKeeps(b.subscribers, id);
    forall k: ClientId
      ensures k in z.subscribers ==> k in b.subscribers
    {
      InElems(b.subscribers, k);
      InElems(z.subscribers, k);
    }
    forall i | 0 <= i < |z.subscribers|
      ensures z.subscribers[i] in b.clients
    {
      assert z.subscribers[i] in b.subscribers;
    }
    forall k | k in z.clients
      ensures ClientOk(z.clients[k], |z.published|, Offered(z, k), k in z.subscribers)
    {
    }
  }

  lemma PublishingIsSound(b: Bridge, e: Envelope)
    requires Sound(b) && Enabled(b, Publish(e))
    ensures Sound(Next(b, Publish(e)))
  {
    var z := Next(b, Publish(e));
    forall k | k in z.clients
      ensures ClientOk(z.clients[k], |z.published|, Offered(z, k), k in z.subscribers)
    {
      assert ClientOk(b.clients[k], |b.published|, |b.published|, k in b.subscribers);
    }
  }

  lemma TakingStands(b: Bridge, id: ClientId)
    requires Sound(b) && Enabled(b, Take(id))
    ensures Stands(Next(b, Take(id)), id)
  {
    assert Stands(b, id);
    TakingIsOk(b.clients[id], |b.published|, Offered(b, id), id in b.subscribers);
  }

  lemma TakingIsSound(b: Bridge, id: ClientId)
    requires Sound(b) && Enabled(b, Take(id))
    ensures Sound(Next(b, Take(id)))
  {
    var z := Next(b, Take(id));
    TakingKeepsStage(b, id);
    forall k | k in z.clients
      ensures Stands(z, k)
    {
      if k == id {
        TakingStands(b, id);
      } else {
        assert Stands(b, k);
        SameStands(b, z, k);
      }
    }
  }

  lemma TakingKeepsStage(b: Bridge, id: ClientId)
    requires StageOk(b) && Enabled(b, Take(id))
    ensures StageOk(Next(b, Take(id)))
  {
  }

  /** One push action on client `id`, which becomes `d`, leaves every other client as it was. */
  lemma OthersStaySound(b: Bridge, z: Bridge, id: ClientId, d: Client)
    requires Sound(b) && id in b.clients && b.phase.Pushing?
    requires z.published == b.published && z.subscribers == b.subscribers && z.clients == b.clients[id := d]
    requires StageOk(z)
    requires forall k :: k != id ==> Offered(z, k) == Offered(b, k)
    requires d.since <= Offered(z, id) && ClientOk(d, |b.published|, Offered(z, id), id in b.subscribers)
    ensures Sound(z)
  {
    forall k | k in z.clients
      ensures Stands(z, k)
    {
      if k != id {
        assert Stands(b, k);
        SameStands(b, z, k);
      }
    }
  }

  lemma PutMovesOn(b: Bridge)
    requires StageOk(b) && Enabled(b, Push) && b.phase.todo != [] && b.phase.stage.Putting?
    ensures var z, id := Next(b, Push), b.phase.todo[0];
      && StageOk(z) && id in b.subscribers && z.subscribers == b.subscribers
      && z.clients == b.clients[id := b.clients[id].(queue := b.clients[id].queue + [b.phase.current])]
      && Offered(b, id) == b.phase.current && Offered(z, id) == b.phase.current + 1
      && forall k :: k != id ==> Offered(z, k) == Offered(b, k)
  {
    var id, rest := b.phase.todo[0], b.phase.todo[1..];
    assert id in b.phase.todo && id in b.subscribers && id !in rest;
    assert forall k :: k in b.phase.todo <==> k == id || k in rest by {
      assert b.phase.todo == [id] + rest;
    }
  }

  lemma PutIsSound(b: Bridge)
    requires Sound(b) && Enabled(b, Push) && b.phase.todo != [] && b.phase.stage.Putting?
    ensures Sound(Next(b, Push)) && Next(b, Push).subscribers == b.subscribers
  {
    var id := b.phase.todo[0];
    var c := b.clients[id];
    PutMovesOn(b);
    assert Stands(b, id);
    PuttingIsOk(c, b.phase.current);
    OthersStaySound(b, Next(b, Push), id, c.(queue := c.queue + [b.phase.current]));
  }

  lemma DropIsSound(b: Bridge)
    requires Sound(b) && Enabled(b, Push) && b.phase.todo != [] && b.phase.stage.Dropping?
    ensures Sound(Next(b, Push)) && Next(b, Push).subscribers == b.subscribers
  {
    var z := Next(b, Push);
    var id := b.phase.todo[0];
    var c := b.clients[id];
    assert id in b.phase.todo && id in b.subscribers;
    assert ClientOk(c, |b.published|, Offered(b, id), true);
    if c.queue != [] {
      DroppingIsOk(c, |b.published|, b.phase.current, b.phase.stage.takes);
    }
    OthersStaySound(b, z, id, z.clients[id]);
  }

  lemma CheckIsSound(b: Bridge)
    requires Sound(b) && Enabled(b, Push) && b.phase.todo != [] && b.phase.stage.Checking?
    ensures Sound(Next(b, Push)) && Next(b, Push).subscribers == b.subscribers
  {
    var z := Next(b, Push);
    var id := b.phase.todo[0];
    assert ClientOk(b.clients[id], |b.published|, Offered(b, id), id in b.subscribers);
    assert b.clients[id := b.clients[id]] == b.clients;
    OthersStaySound(b, z, id, b.clients[id]);
  }

  lemma PushingIsSound(b: Bridge)
    requires Sound(b) && Enabled(b, Push)
    ensures Sound(Next(b, Push)) && Next(b, Push).subscribers == b.subscribers
  {
    if b.phase.todo == [] {
      forall k | k in b.clients
        ensures ClientOk(b.clients[k], |b.published|, |b.published|, k in b.subscribers)
      {
        assert ClientOk(b.clients[k], |b.published|, Offered(b, k), k in b.subscribers);
      }
    } else if b.phase.stage.Checking? {
      CheckIsSound(b);
    } else if b.phase.stage.Dropping? {
      DropIsSound(b);
    } else {
      PutIsSound(b);
    }
  }

  lemma {:induction false} RunsAreSound(b: Bridge, run: seq<Step>)
    requires Sound(b) && Possible(b, run)
    ensures Sound(After(b, run))
    decreases |run|
  {
    if run != [] {
      match run[0] {
        case Subscribe(id) => SubscribingIsSound(b, id);
        case Unsubscribe(id) => UnsubscribingIsSound(b, id);
        case Publish(e) => PublishingIsSound(b, e);
        case Push => PushingIsSound(b);
        case Take(id) => TakingIsSound(b, id);
      }
      RunsAreSound(Next(b, run[0]), run[1..]);
    }
  }

  // ---- what every run guarantees

  /** No subscriber is ever evicted: `put_nowait` never finds the queue full, whatever the clients do in
      between, so the push leaves the subscribers alone. */
  lemma NobodyIsEvicted(run: seq<Step>)
    requires Possible(NOBODY, run) && Enabled(After(NOBODY, run), Push)
    ensures var b := After(NOBODY, run);
      && Next(b, Push).subscribers == b.subscribers
      && (b.phase.todo != [] && b.phase.stage.Putting? ==> |b.clients[b.phase.todo[0]].queue| < MAX_QUEUE)
  {
    RunsAreSound(NOBODY, run);
    PushingIsSound(After(NOBODY, run));
  }

  predicate Subsequence(a: seq<Envelope>, b: seq<Envelope>) {
    a == [] || (b != [] && ((a[0] == b[0] && Subsequence(a[1..], b[1..])) || Subsequence(a, b[1..])))
  }

  function Contents(ns: seq<nat>, published: seq<Envelope>): seq<Envelope>
    requires forall i :: 0 <= i < |ns| ==> ns[i] < |published|
  {
    seq(|ns|, i requires 0 <= i < |ns| => published[ns[i]])
  }

  lemma {:induction false} RisingIsSubsequence(ns: seq<nat>, from: nat, published: seq<Envelope>)
    requires Rising(ns, from, |published|) && from <= |published|
    ensures Subsequence(Contents(ns, published), published[from..])
    decreases |published| - from
  {
    if ns != [] {
      assert from <= ns[0] < |published|;
      var a, b := Contents(ns, published), published[from..];
      assert b[1..] == published[from + 1..];
      if ns[0] == from {
        assert a[1..] == Contents(ns[1..], published);
        RisingIsSubsequence(ns[1..], from + 1, published);
      } else {
        RisingIsSubsequence(ns, from + 1, published);
      }
    }
  }

  /** What a client received, followed by its queue, is an in-order subsequence of the envelopes published
      since it subscribed, none of them twice; and the queue holds at most ten. */
  lemma ReceivedInOrder(run: seq<Step>, id: ClientId)
    requires Possible(NOBODY, run) && id in After(NOBODY, run).clients
    ensures var b := After(NOBODY, run);
      var c := b.clients[id];
      && |c.queue| <= 10 && c.since <= |b.published|
      && Rising(c.got + c.queue, c.since, |b.published|)
      && Subsequence(Contents(c.got + c.queue, b.published), b.published[c.since..])
  {
    RunsAreSound(NOBODY, run);
    var b := After(NOBODY, run);
    assert ClientOk(b.clients[id], |b.published|, Offered(b, id), id in b.subscribers);
    RisingIsSubsequence(b.clients[id].got + b.clients[id].queue, b.clients[id].since, b.published);
  }

  /** While a client is subscribed, every envelope it was offered is in what it received, in its queue, or
      among its losses. */
  lemma NothingElseIsLost(run: seq<Step>, id: ClientId, n: nat)
    requires Possible(NOBODY, run) && id in After(NOBODY, run).subscribers
    requires id in After(NOBODY, run).clients
    requires var b := After(NOBODY, run); b.clients[id].since <= n < Offered(b, id)
    ensures var c := After(NOBODY, run).clients[id]; n in c.got || n in c.queue || IsLost(c, n)
  {
    RunsAreSound(NOBODY, run);
    var b := After(NOBODY, run);
    assert ClientOk(b.clients[id], |b.published|, Offered(b, id), id in b.subscribers);
  }

  /** Every loss was decided on a full queue; the queue it was taken from was still full exactly when the
      client had taken nothing since. It came off the front: the client never gets it, it comes before everything
      still queued, and no envelope is lost twice. */
  lemma LossesComeFromFullQueues(run: seq<Step>, id: ClientId, i: nat)
    requires Possible(NOBODY, run) && id in After(NOBODY, run).clients
    requires i < |After(NOBODY, run).clients[id].lost|
    ensures var loss := After(NOBODY, run).clients[id].lost[i];
      && loss.size + loss.takes == 10
      && (loss.size == 10 <==> loss.takes == 0)
    ensures var c := After(NOBODY, run).clients[id];
      && c.lost[i].n !in c.got && (forall k :: 0 <= k < |c.queue| ==> c.lost[i].n < c.queue[k])
      && (forall j :: 0 <= j < i ==> c.lost[j].n < c.lost[i].n)
  {
    RunsAreSound(NOBODY, run);
    var b := After(NOBODY, run);
    assert ClientOk(b.clients[id], |b.published|, Offered(b, id), id in b.subscribers);
  }

  // ---- subscribing and unsubscribing

  /** Nothing is pushed to the client, now or in the push under way. */
  predicate Left(b: Bridge, id: ClientId) {
    id in b.clients && id !in b.subscribers && !Waiting(b, id)
  }

  lemma {:induction false} WithoutIs<T>(s: seq<T>, x: T, y: T)
    ensures y in Without(s, x) <==> y in s && y != x
  {
    if s != [] {
      assert s == [s[0]] + s[1..];
      WithoutIs(s[1..], x, y);
    }
  }

  lemma LeftStep(b: Bridge, s: Step, id: ClientId)
    requires Left(b, id) && Enabled(b, s)
    ensures var z := Next(b, s);
      && Left(z, id)
      && z.clients[id].got + z.clients[id].queue == b.clients[id].got + b.clients[id].queue
      && z.clients[id].lost == b.clients[id].lost
  {
    if s.Unsubscribe? {
      WithoutIs(b.subscribers, s.id, id);
    } else if s.Push? && b.phase.todo != [] {
      WithoutIs(b.subscribers, b.phase.todo[0], id);
      assert b.phase.todo[0] in b.phase.todo;
      assert forall x :: x in b.phase.todo[1..] ==> x in b.phase.todo;
    }
  }

  lemma {:induction false} LeftRun(b: Bridge, run: seq<Step>, id: ClientId)
    requires Left(b, id) && Possible(b, run)
    ensures var z := After(b, run);
      && Left(z, id)
      && z.clients[id].got + z.clients[id].queue == b.clients[id].got + b.clients[id].queue
      && z.clients[id].lost == b.clients[id].lost
    decreases |run|
  {
    if run != [] {
      LeftStep(b, run[0], id);
      LeftRun(Next(b, run[0]), run[1..], id);
    }
  }

  /** Once unsubscribed, whatever happens next, a client only takes what its queue already held: nothing is added and
      nothing is dropped. */
  lemma UnsubscribedGetsNothing(b: Bridge, id: ClientId, run: seq<Step>)
    requires Enabled(b, Unsubscribe(id)) && id in b.clients && Possible(Next(b, Unsubscribe(id)), run)
    ensures var z := After(Next(b, Unsubscribe(id)), run);
      && id in z.clients && id !in z.subscribers
      && z.clients[id].got + z.clients[id].queue == b.clients[id].got + b.clients[id].queue
      && z.clients[id].lost == b.clients[id].lost
  {
    WithoutIs(b.subscribers, id, id);
    LeftRun(Next(b, Unsubscribe(id)), run, id);
  }

  // ---- a loss from a queue with room

  /** One envelope pushed to a single subscriber with room. */
  function Feeding(n: nat, e: Envelope): seq<Step> {
    if n == 0 then [] else [Publish(e), Push, Push, Push] + Feeding(n - 1, e)
  }

  predicate Alone(b: Bridge, id: ClientId, k: nat) {
    && b.subscribers == [id] && b.phase.Unlocked? && id in b.clients
    && |b.clients[id].queue| == k && b.clients[id].lost == []
  }

  lemma RunCons(b: Bridge, s: Step, rest: seq<Step>)
    requires Enabled(b, s)
    ensures Possible(b, [s] + rest) <==> Possible(Next(b, s), rest)
    ensures Possible(Next(b, s), rest) ==> After(b, [s] + rest) == After(Next(b, s), rest)
  {
    assert ([s] + rest)[1..] == rest;
  }

  lemma FeedOne(b: Bridge, id: ClientId, k: nat, e: Envelope, rest: seq<Step>) returns (z: Bridge)
    requires Alone(b, id, k) && k < MAX_QUEUE
    ensures Alone(z, id, k + 1)
    ensures Possible(z, rest) ==> Possible(b, [Publish(e), Push, Push, Push] + rest)
    ensures Possible(z, rest) ==> After(b, [Publish(e), Push, Push, Push] + rest) == After(z, rest)
  {
    var b1 := Next(b, Publish(e));
    var b2 := Next(b1, Push);
    var b3 := Next(b2, Push);
    z := Next(b3, Push);
    RunCons(b, Publish(e), [Push] + ([Push] + ([Push] + rest)));
    RunCons(b1, Push, [Push] + ([Push] + rest));
    RunCons(b2, Push, [Push] + rest);
    RunCons(b3, Push, rest);
    assert [Publish(e), Push, Push, Push] + rest == [Publish(e)] + ([Push] + ([Push] + ([Push] + rest)));
  }

  lemma {:induction false} FeedMany(b: Bridge, id: ClientId, k: nat, n: nat, e: Envelope, rest: seq<Step>)
    returns (z: Bridge)
    requires Alone(b, id, k) && k + n <= MAX_QUEUE
    ensures Alone(z, id, k + n)
    ensures Possible(z, rest) ==> Possible(b, Feeding(n, e) + rest) && After(b, Feeding(n, e) + rest) == After(z, rest)
    decreases n
  {
    if n == 0 {
      z := b;
      assert Feeding(0, e) + rest == rest;
    } else {
      assert Feeding(n, e) + rest == [Publish(e), Push, Push, Push] + (Feeding(n - 1, e) + rest);
      var y := FeedOne(b, id, k, e, Feeding(n - 1, e) + rest);
      z := FeedMany(y, id, k + 1, n - 1, e, rest);
    }
  }

  /** The check and the drop are two actions: a client that takes in between loses an envelope from a queue
      that had room. */
  lemma LossWithRoom(id: ClientId, e: Envelope) returns (run: seq<Step>)
    ensures Possible(NOBODY, run) && id in After(NOBODY, run).clients
    ensures var c := After(NOBODY, run).clients[id]; |c.lost| == 1 && c.lost[0].size < MAX_QUEUE
  {
    var tail := [Publish(e)] + ([Push] + ([Take(id)] + ([Push] + [])));
    run := [Subscribe(id)] + (Feeding(MAX_QUEUE, e) + tail);
    var b := Next(NOBODY, Subscribe(id));
    assert b.subscribers == [id];
    var z := FeedMany(b, id, 0, MAX_QUEUE, e, tail);
    var z1 := Next(z, Publish(e));
    var z2 := Next(z1, Push);
    var z3 := Next(z2, Take(id));
    RunCons(z, Publish(e), [Push] + ([Take(id)] + ([Push] + [])));
    RunCons(z1, Push, [Take(id)] + ([Push] + []));
    RunCons(z2, Take(id), [Push] + []);
    RunCons(z3, Push, []);
    RunCons(NOBODY, Subscribe(id), Feeding(MAX_QUEUE, e) + tail);
  }

  // ---- the latest-wins store

  /** How `_run` reads an envelope's type and topic. */
  datatype Kind = Metrics | Positions | Health(topic: string) | Logs | Other

  datatype Data = Data(text: string)

  function LastOf(s: seq<Data>, n: nat): seq<Data> {
    if |s| <= n then s else s[|s| - n..]
  }

  class LatestTelemetry {
    var metrics: Data
    var positions: Data
    var health: map<string, Data>
    var logs: seq<Data>
    // Every log entry ever received.
    ghost var allLogs: seq<Data>

    ghost predicate Valid()
      reads this
    {
      logs == LastOf(allLogs, MAX_LOGS)
    }

    constructor (empty: Data)
      ensures Valid() && metrics == empty && positions == empty && health == map[] && allLogs == []
    {
      metrics, positions, health := empty, empty, map[];
      logs, allLogs := [], [];
    }

    /** The update of `latest_telemetry` under the lock. */
    method Update(kind: Kind, data: Data)
      requires Valid()
      modifies this
      ensures Valid()
      ensures metrics == if kind.Metrics? then data else old(metrics)
      ensures positions == if kind.Positions? then data else old(positions)
      ensures health == if kind.Health? then old(health)[kind.topic := data] else old(health)
      ensures allLogs == if kind.Logs? then old(allLogs) + [data] else old(allLogs)
      ensures |logs| == (if |allLogs| <= 100 then |allLogs| else 100) && logs == allLogs[|allLogs| - |logs|..]
    {
      match kind {
        case Metrics => metrics := data;
        case Positions => positions := data;
        case Health(topic) => health := health[topic := data];
        case Logs =>
          allLogs := allLogs + [data];
          logs := logs + [data];
          if |logs| > MAX_LOGS {
            logs := logs[|logs| - MAX_LOGS..];
          }
        case Other =>
      }
    }
  }
}
