/** Reading Upstox's replies and naming orders to it. */
module Replies {
  import opened Orders
  import opened Requests
  import opened FillPoll
  import opened SweepLaws

  // ---- statuses

  function LowerChar(c: char): char {
    if 'A' <= c <= 'Z' then c - 'A' + 'a' else c
  }

  function Lower(s: string): string {
    if s == "" then "" else [LowerChar(s[0])] + Lower(s[1..])
  }

  const FILLED: seq<string> := ["complete"]
  const REJECTED: seq<string> := ["rejected"]
  const CANCELLED: seq<string> := ["cancelled", "cancelled after market order"]
  const OPEN: seq<string> :=
    ["open", "trigger pending", "modify pending", "modify validation pending", "modified", "cancel pending",
     "not cancelled", "not modified"]
  const SUBMITTED: seq<string> :=
    ["put order req received", "open pending", "validation pending", "after market order req received",
     "modify after market order req received"]

  /** `_resolve_status`; None is a contract error. */
  function StatusOf(raw: Json): Option<Status> {
    if !raw.Text? || raw.text == "" then None
    else
      var s := Lower(raw.text);
      if s in FILLED then Some(Status.Filled)
      else if s in REJECTED then Some(Status.Rejected)
      else if s in CANCELLED then Some(Status.Cancelled)
      else if s in OPEN then Some(Status.Open)
      else if s in SUBMITTED then Some(Status.Submitted)
      else None
  }

  /** Lower-casing moves the capital letters and nothing else. */
  lemma {:induction false} LowerIs(s: string, i: nat)
    requires i < |s|
    ensures |Lower(s)| == |s|
    ensures 'A' <= s[i] <= 'Z' ==> 'a' <= Lower(s)[i] <= 'z' && Lower(s)[i] as int == s[i] as int + 32
    ensures !('A' <= s[i] <= 'Z') ==> Lower(s)[i] == s[i]
  {
    if i > 0 {
      LowerIs(s[1..], i - 1);
    } else if |s| > 1 {
      LowerIs(s[1..], 0);
    }
  }

  /** Whether a status, lower-cased, is the text `t`. */
  predicate Reads(raw: Json, t: string) {
    raw.Text? && Lower(raw.text) == t
  }

  /** Each Upstox status text, and what it means; any other is a contract error. */
  lemma StatusMeans(raw: Json)
    ensures StatusOf(raw) == Some(Status.Filled) <==> Reads(raw, "complete")
    ensures StatusOf(raw) == Some(Status.Rejected) <==> Reads(raw, "rejected")
    ensures StatusOf(raw) == Some(Status.Cancelled) <==>
            Reads(raw, "cancelled") || Reads(raw, "cancelled after market order")
    ensures StatusOf(raw) == Some(Status.Open) <==>
            || Reads(raw, "open") || Reads(raw, "trigger pending") || Reads(raw, "modify pending")
            || Reads(raw, "modify validation pending") || Reads(raw, "modified") || Reads(raw, "cancel pending")
            || Reads(raw, "not cancelled") || Reads(raw, "not modified")
    ensures StatusOf(raw) == Some(Status.Submitted) <==>
            || Reads(raw, "put order req received") || Reads(raw, "open pending")
            || Reads(raw, "validation pending") || Reads(raw, "after market order req received")
            || Reads(raw, "modify after market order req received")
  {
    if raw.Text? && raw.text != "" {
      var s := Lower(raw.text);
      assert s in FILLED <==> s == "complete";
      assert s in REJECTED <==> s == "rejected";
      assert s in CANCELLED <==> s == "cancelled" || s == "cancelled after market order";
    }
  }

  /** What the two most consequential texts do to an order, for a reply the poll can act on: "complete" with every
      unit filled ends it silently, and "cancelled" ends it unfilled with what it has. */
  lemma CompleteAndCancelled(id: BrokerId, t: Tracked, filled: Json, average: Json, raw: Json, estimate: Estimate)
    requires Acceptable(t, Details(filled, average, StatusOf(raw)))
    ensures var p := PollOrder(id, t, Details(filled, average, StatusOf(raw)), estimate);
      && (Reads(raw, "complete") && FilledQuantity(filled) == Some(t.order.quantity) ==> p.verdict == Complete)
      && (Reads(raw, "complete") && FilledQuantity(filled) != Some(t.order.quantity) ==> p.verdict == Contract)
      && (Reads(raw, "cancelled") ==>
            p.verdict == EndedUnfilled(EndedOrder(t.order.cid, Status.Cancelled, id, FilledQuantity(filled).value)))
      && (Reads(raw, "open") ==> p.verdict == Live)
  {
    StatusMeans(raw);
    LeavesExactly(id, t, Details(filled, average, StatusOf(raw)), estimate);
  }

  lemma {:induction false} LowerTwice(s: string)
    ensures Lower(Lower(s)) == Lower(s)
  {
    if s != "" {
      LowerTwice(s[1..]);
      assert ([LowerChar(s[0])] + Lower(s[1..]))[1..] == Lower(s[1..]);
    }
  }

  /** A status means the same however it is capitalised. */
  lemma StatusIgnoresCase(text: string, number: Option<real>)
    ensures StatusOf(Text(Lower(text), number)) == StatusOf(Text(text, number))
  {
    LowerTwice(text);
    if text != "" {
      assert Lower(text) != "";
    }
  }

  // ---- order details and the order book

  /** The JSON of a details reply: not an object, or not a success, or without a `data` object; or that
      object's three fields. */
  datatype DetailBody = NoData | Data(filled: Json, average: Json, status: Json)

  /** `_fetch_order` and the reading of its fields, as the poll sees them. */
  function ReadDetails(o: Outcome<DetailBody>): FillPoll.Reply {
    match o
    case AuthFailure => AuthDenied
    case Reply(NoData) => Unusable
    case Reply(Data(f, a, s)) => Details(f, a, StatusOf(s))
    case _ => Unreachable
  }

  /** One poll request: a single attempt, never a placement. */
  method FetchOrder(wire: nat -> Http<DetailBody>) returns (reply: FillPoll.Reply, calls: nat)
    ensures calls == 1
    ensures reply.AuthDenied? <==> wire(0).Denied?
    ensures reply.Unreachable? <==> wire(0).TooMany? || wire(0).Refused? || wire(0).Fault? || wire(0).NoAnswer?
    ensures reply.Details? <==> wire(0).Body? && wire(0).json.Data?
    ensures reply.Details? ==>
              var data := wire(0).json; reply == Details(data.filled, data.average, StatusOf(data.status))
    ensures reply.Details? ==>
              var raw := wire(0).json.status;
              && (reply.status == Some(Status.Filled) <==> Reads(raw, "complete"))
              && (reply.status == Some(Status.Rejected) <==> Reads(raw, "rejected"))
              && (reply.status == Some(Status.Cancelled) <==>
                    Reads(raw, "cancelled") || Reads(raw, "cancelled after market order"))
  {
    if wire(0).Body? && wire(0).json.Data? {
      StatusMeans(wire(0).json.status);
    }
    var outcome, n, _ := MakeRequest(wire, 1, false);
    calls := n;
    reply := ReadDetails(outcome);
  }

  /** The JSON of an order-book reply. Both shapes of the documentation are read: a bare list, or a list
      under `data` of a success. */
  datatype BookBody = BareList(entries: seq<Entry>) | Envelope(success: bool, data: Option<seq<Entry>>) | NotABook

  predicate Lists(body: BookBody, entries: seq<Entry>) {
    body == BareList(entries) || body == Envelope(true, Some(entries))
  }

  method FetchOrderBook(wire: nat -> Http<BookBody>, attempts: int) returns (book: BookReply, calls: nat)
    requires attempts >= 1
    ensures 1 <= calls <= attempts
    ensures book.BookDenied? <==> wire(calls - 1).Denied?
    ensures book.BookUnreachable? <==> calls == attempts && Retried(wire(calls - 1))
    ensures forall i :: 0 <= i < calls - 1 ==> Retried(wire(i))
    ensures forall entries :: book == Book(entries) <==> wire(calls - 1).Body? && Lists(wire(calls - 1).json, entries)
  {
    var outcome, n, _ := MakeRequest(wire, attempts, false);
    calls := n;
    book := match outcome
      case AuthFailure => BookDenied
      case Reply(BareList(entries)) => Book(entries)
      case Reply(Envelope(success, data)) => if success && data.Some? then Book(data.value) else BookUnusable
      case Reply(NotABook) => BookUnusable
      case _ => BookUnreachable;
  }

  // ---- tags

  const TAG_MAX := 40

  predicate Plain(c: char) {
    'A' <= c <= 'Z' || 'a' <= c <= 'z' || '0' <= c <= '9' || c == '_' || c == '-'
  }

  /** The characters of a plain tag: capital and small letters, digits, hyphen and underscore, by code point. */
  lemma PlainChars(c: char)
    ensures var k := c as int;
      Plain(c) <==> 65 <= k <= 90 || 97 <= k <= 122 || 48 <= k <= 57 || k == 45 || k == 95
  {
  }

  predicate PlainTag(s: string) {
    1 <= |s| <= TAG_MAX && forall i :: 0 <= i < |s| ==> Plain(s[i])
  }

  /** Any digest of 40 or more plain characters. */
  ghost predicate IsDigest(digest: string -> string) {
    forall s :: |digest(s)| >= TAG_MAX && forall i :: 0 <= i < |digest(s)| ==> Plain(digest(s)[i])
  }

  /** `order_tag`. */
  function OrderTag(signal: string, digest: string -> string): string
    requires |digest(signal)| >= TAG_MAX
  {
    if PlainTag(signal) then signal else digest(signal)[..TAG_MAX]
  }

  /** Whatever the signal id, its tag is one Upstox accepts, and is its own tag. A plain id of at most 40 characters
      keeps its own, and any other takes the first 40 of its digest. */
  lemma TagsAreAccepted(signal: string, digest: string -> string)
    requires IsDigest(digest)
    ensures PlainTag(OrderTag(signal, digest)) && 1 <= |OrderTag(signal, digest)| <= 40
    ensures PlainTag(signal) <==> 1 <= |signal| <= 40 && forall i :: 0 <= i < |signal| ==> Plain(signal[i])
    ensures PlainTag(signal) ==> OrderTag(signal, digest) == signal
    ensures !PlainTag(signal) ==>
              |OrderTag(signal, digest)| == 40 && OrderTag(signal, digest) <= digest(signal)
    ensures OrderTag(OrderTag(signal, digest), digest) == OrderTag(signal, digest)
  {
  }

  /** Two signal ids share a tag only if one of them is not plain: only a digest can collide. */
  lemma OnlyDigestsCollide(a: string, b: string, digest: string -> string)
    requires IsDigest(digest) && OrderTag(a, digest) == OrderTag(b, digest) && a != b
    ensures !PlainTag(a) || !PlainTag(b)
  {
  }
}
