/** One HTTP call to Upstox with its retries, and what a failed placement may have done. */
module Requests {
  import opened Orders

  /** What one attempt came back with. `NoAnswer` is a timeout, a dropped connection or a body that
      is not JSON. */
  datatype Http<+J> = Denied | TooMany | Refused | Fault | NoAnswer | Body(json: J)

  datatype Outcome<+J> = Reply(json: J) | AuthFailure | Unavailable | Ambiguous | Refusal

  /** An attempt after which the loop goes round again, unless it was the last. A 4xx is retried
      like a fault: `raise_for_status` raises the same exception for both. */
  predicate Retried<J>(h: Http<J>) {
    !h.Denied? && !h.Body?
  }

  /** What the call ends as when attempt `h` is its last. */
  function Classified<J>(h: Http<J>, placement: bool): Outcome<J> {
    match h
    case Denied => AuthFailure
    case Body(j) => Reply(j)
    case TooMany => Unavailable
    case Refused => if placement then Refusal else Unavailable
    case Fault => if placement then Ambiguous else Unavailable
    case NoAnswer => if placement then Ambiguous else Unavailable
  }

  /** `_make_request`: `wire(i)` is what attempt i would come back with. */
  method MakeRequest<J>(wire: nat -> Http<J>, attempts: int, placement: bool)
    returns (outcome: Outcome<J>, calls: nat, exhausted: bool)
    ensures exhausted <==> attempts <= 0
    ensures exhausted ==> calls == 0 && outcome == Unavailable
    ensures attempts > 0 ==>
      && 1 <= calls <= attempts
      && outcome == Classified(wire(calls - 1), placement)
      && (Retried(wire(calls - 1)) ==> calls == attempts)
      && forall i :: 0 <= i < calls - 1 ==> Retried(wire(i))
  {
    calls := 0;
    exhausted := false;
    var attempt := 0;
    while attempt < attempts
      invariant calls == attempt
      invariant attempts > 0 ==> attempt < attempts
      invariant attempts <= 0 ==> attempt == 0
      invariant forall i :: 0 <= i < attempt ==> Retried(wire(i))
    {
      var response := wire(attempt);
      calls := calls + 1;
      if response.Denied? {
        return AuthFailure, calls, false;
      }
      if response.Body? {
        return Reply(response.json), calls, false;
      }
      if attempt == attempts - 1 {
        if response.TooMany? {
          return Unavailable, calls, false;
        }
        if placement && MayHaveReachedBroker(response) {
          return Ambiguous, calls, false;
        }
        if placement {
          return Refusal, calls, false;
        }
        return Unavailable, calls, false;
      }
      attempt := attempt + 1;
    }
    exhausted := true;
    outcome := Unavailable;
  }

  predicate MayHaveReachedBroker<J>(h: Http<J>) {
    h.Fault? || h.NoAnswer?
  }

  // ---- placement

  /** An element of `data.order_ids`. */
  datatype RawId = TextId(text: string) | IntId(n: int) | BadId

  /** The JSON of a 200 reply to a placement: neither "success" nor "error", "error", or "success"
      with `data.order_ids` (None when it is not a list). */
  datatype PlaceBody = Unreadable | ErrorStatus | Success(ids: Option<seq<RawId>>)

  predicate ValidId(r: RawId) {
    match r
    case TextId(t) => t != ""
    case IntId(_) => true
    case BadId => false
  }

  function IdText(r: RawId): BrokerId
    requires ValidId(r)
  {
    match r
    case TextId(t) => BrokerId(t)
    case IntId(n) => BrokerId(Str(n))
  }

  /** `_placed_order_ids`: all of them usable, or none. */
  function PlacedIds(raw: Option<seq<RawId>>): seq<BrokerId> {
    match raw
    case None => []
    case Some(ids) =>
      if forall i :: 0 <= i < |ids| ==> ValidId(ids[i])
      then seq(|ids|, i requires 0 <= i < |ids| && ValidId(ids[i]) => IdText(ids[i]))
      else []
  }

  /** How one `place_order` call ends. */
  datatype Placement =
    | Placed(id: BrokerId)
    | PlacementAmbiguous
    | PlacementRefused
    | PlacementUnavailable
    | PlacementDenied

  function SendResult(o: Outcome<PlaceBody>): Placement {
    match o
    case AuthFailure => PlacementDenied
    case Unavailable => PlacementUnavailable
    case Ambiguous => PlacementAmbiguous
    case Refusal => PlacementRefused
    case Reply(Unreadable) => PlacementAmbiguous
    case Reply(ErrorStatus) => PlacementRefused
    case Reply(Success(raw)) =>
      var ids := PlacedIds(raw);
      if |ids| == 1 then Placed(ids[0]) else PlacementAmbiguous
  }

  /** How each reply to a placement's one POST ends it. */
  lemma PlacementMeans(h: Http<PlaceBody>, id: BrokerId)
    ensures var p := SendResult(Classified(h, true));
      && (p == PlacementDenied <==> h.Denied?)
      && (p == PlacementUnavailable <==> h.TooMany?)
      && (p == PlacementRefused <==> h.Refused? || h == Body(ErrorStatus))
      && (p == Placed(id) <==> exists r :: h == Body(Success(Some([r]))) && Names(r, id))
      && (h.Fault? || h.NoAnswer? || h == Body(Unreadable) ==> p == PlacementAmbiguous)
  {
    if h.Body? && h.json.Success? && h.json.ids.Some? && |h.json.ids.value| == 1 {
      assert h.json.ids.value == [h.json.ids.value[0]];
    }
    if SendResult(Classified(h, true)) == Placed(id) {
      assert h == Body(Success(Some([h.json.ids.value[0]]))) && Names(h.json.ids.value[0], id);
    }
    if r :| h == Body(Success(Some([r]))) && Names(r, id) {
      assert ValidId(h.json.ids.value[0]);
    }
  }

  /** An id as Upstox sends it: text that is not empty, or a whole number. */
  predicate Names(r: RawId, id: BrokerId) {
    (r.TextId? && r.text != "" && id.text == r.text) || (r.IntId? && id.text == Str(r.n))
  }

  /** How a request that is no placement ends. */
  lemma RequestMeans<J>(h: Http<J>, json: J)
    ensures Classified(h, false) == AuthFailure <==> h.Denied?
    ensures Classified(h, false) == Reply(json) <==> h == Body(json)
    ensures Classified(h, false) == Unavailable <==> h.TooMany? || h.Refused? || h.Fault? || h.NoAnswer?
  {
  }

  /** Upstox's side of a placement: `accepted` is the order it created for the POST, if any. A 401,
      403, 429 or other 4xx and an explicit "error" mean it created none; a success reply naming
      exactly one order names the one it created. Anything else may go with either. */
  predicate HonestPlacement(h: Http<PlaceBody>, accepted: Option<BrokerId>) {
    match h
    case Denied => accepted.None?
    case TooMany => accepted.None?
    case Refused => accepted.None?
    case Body(ErrorStatus) => accepted.None?
    case Body(Success(raw)) => |PlacedIds(raw)| == 1 ==> accepted == Some(PlacedIds(raw)[0])
    case _ => true
  }

  /** An order Upstox holds is never reported as refused, denied or unavailable, and an id is
      reported only for the order Upstox created. */
  lemma PlacementIsSound(h: Http<PlaceBody>, accepted: Option<BrokerId>)
    requires HonestPlacement(h, accepted)
    ensures var p := SendResult(Classified(h, true));
      && (accepted.Some? ==> p == Placed(accepted.value) || p == PlacementAmbiguous)
      && (p.Placed? ==> accepted == Some(p.id))
      && (p.PlacementRefused? || p.PlacementUnavailable? || p.PlacementDenied? ==> accepted.None?)
  {
  }

  /** Ambiguity is not a catch-all: it is reported exactly when Upstox may have created an order
      (any order `b`) and may equally have created none. */
  lemma AmbiguousMeansUndecided(h: Http<PlaceBody>, b: BrokerId)
    ensures SendResult(Classified(h, true)).PlacementAmbiguous? <==>
            HonestPlacement(h, None) && HonestPlacement(h, Some(b))
  {
  }
}
