/**
 * The page the payment window returns to (frontend/src/app/reservations/success/page.tsx):
 * it shows "loading" until a 1500 ms timer fires, then reads the member's
 * reservations from the backend and shows success, pending or failed for the
 * reservation named by the `id` query parameter.
 */
module SuccessPage {
  import opened Wrappers
  import R = ReservationModel

  datatype PageStatus = Loading | Success | Pending | Failed

  /** What `GET /reservations/my` gave: a failure, or the (id, status) pairs of the listed bookings. */
  datatype Lookup = RequestFailed | Listed(bookings: seq<(string, string)>)

  const VerifyingMessage := "Verifying payment status..."
  const SyncingMessage := "Syncing with bank..."
  const UnverifiedMessage := "Could not verify status automatically. Please check dashboard."

  /** The timer delay before the check runs, in milliseconds. */
  const CheckDelay := 1500

  /** The page state for a listed booking's status text; unknown texts count as success. */
  function StatusFor(status: string): (s: PageStatus)
    ensures s != Loading
    ensures s == Pending <==> status == "pending"
    ensures s == Failed <==> status == "cancelled" || status == "failed"
    ensures s == Success <==> status !in {"pending", "cancelled", "failed"}
  {
    if status == "paid" || status == "confirmed" then Success
    else if status == "pending" then Pending
    else if status == "cancelled" || status == "failed" then Failed
    else Success
  }

  /** `bookings.find(b => b.id === id)`'s status: that of the first booking with the id. */
  function FindStatus(bookings: seq<(string, string)>, id: string): (r: Option<string>)
    ensures r.None? <==> forall i :: 0 <= i < |bookings| ==> bookings[i].0 != id
    ensures r.Some? ==> exists i :: 0 <= i < |bookings| && bookings[i] == (id, r.value)
                          && forall k :: 0 <= k < i ==> bookings[k].0 != id
  {
    if bookings == [] then None
    else if bookings[0].0 == id then
      assert bookings[0] == (id, bookings[0].1);
      Some(bookings[0].1)
    else
      var r := FindStatus(bookings[1..], id);
      FoundLater(bookings, id, r);
      r
  }

  /** A find that skips the first booking finds, in the rest, the first booking with the id. */
  lemma FoundLater(bookings: seq<(string, string)>, id: string, r: Option<string>)
    requires bookings != [] && bookings[0].0 != id
    requires r == FindStatus(bookings[1..], id)
    ensures r.None? <==> forall i :: 0 <= i < |bookings| ==> bookings[i].0 != id
    ensures r.Some? ==> exists i :: 0 <= i < |bookings| && bookings[i] == (id, r.value)
                          && forall k :: 0 <= k < i ==> bookings[k].0 != id
  {
    if r.Some? {
      var i :| 0 <= i < |bookings[1..]| && bookings[1..][i] == (id, r.value)
               && forall k :: 0 <= k < i ==> bookings[1..][k].0 != id;
      assert bookings[i + 1] == (id, r.value);
      forall k | 0 <= k < i + 1 ensures bookings[k].0 != id {
        if k > 0 { assert bookings[k] == bookings[1..][k - 1]; }
      }
    } else {
      forall i | 0 <= i < |bookings| ensures bookings[i].0 != id {
        if i > 0 { assert bookings[i] == bookings[1..][i - 1]; }
      }
    }
  }

  /**
   * What `checkStatus` leaves on the page: the state and the message. A
   * missing or empty id counts as success without asking the backend.
   */
  function CheckOutcome(reservationId: Option<string>, lookup: Lookup): (o: (PageStatus, string))
    ensures o.0 != Loading
    ensures reservationId.None? || reservationId == Some("") ==> o == (Success, VerifyingMessage)
    ensures o.0 == Failed ==>
      reservationId.Some? && lookup.Listed? && FindStatus(lookup.bookings, reservationId.value) in {Some("cancelled"), Some("failed")}
    ensures o.1 == UnverifiedMessage <==> reservationId.Some? && reservationId.value != "" && lookup.RequestFailed?
    ensures reservationId.Some? && reservationId.value != "" && lookup.RequestFailed? ==> o.0 == Pending
    ensures reservationId.Some? && reservationId.value != "" && lookup.Listed? ==>
      o.1 == SyncingMessage
      && o.0 == match FindStatus(lookup.bookings, reservationId.value)
                case None => Pending
                case Some(status) => StatusFor(status)
  {
    match reservationId
    case None => (Success, VerifyingMessage)
    case Some(id) =>
      if id == "" then (Success, VerifyingMessage)
      else match lookup
        case RequestFailed => (Pending, UnverifiedMessage)
        case Listed(bookings) =>
          match FindStatus(bookings, id)
          case None => (Pending, SyncingMessage)
          case Some(status) => (StatusFor(status), SyncingMessage)
  }

  /** An id the member's list does not hold (a delay, or someone else's booking) shows pending. */
  lemma UnlistedIdShowsPending(id: string, bookings: seq<(string, string)>)
    requires id != ""
    requires forall i :: 0 <= i < |bookings| ==> bookings[i].0 != id
    ensures CheckOutcome(Some(id), Listed(bookings)) == (Pending, SyncingMessage)
  {
  }

  /**
   * Against the stored reservation statuses: only a cancelled reservation
   * shows failed, only a pending one shows pending, and a refunded one shows
   * success.
   */
  lemma ReservationStatusPage(st: R.Status)
    ensures StatusFor(R.Name(st)) == Failed <==> st == R.Cancelled
    ensures StatusFor(R.Name(st)) == Pending <==> st == R.Pending
    ensures StatusFor(R.Name(st)) == Success <==> st in {R.Paid, R.Confirmed, R.Refunded}
  {
  }

  /**
   * The page for a reservation the member's list holds with stored status
   * `st`: failed exactly when it was cancelled, pending exactly while it is
   * pending, success for paid, confirmed and refunded.
   */
  lemma ListedReservationPage(id: string, bookings: seq<(string, string)>, st: R.Status)
    requires id != "" && FindStatus(bookings, id) == Some(R.Name(st))
    ensures CheckOutcome(Some(id), Listed(bookings)).0 == Failed <==> st == R.Cancelled
    ensures CheckOutcome(Some(id), Listed(bookings)).0 == Pending <==> st == R.Pending
    ensures CheckOutcome(Some(id), Listed(bookings)).0 == Success <==> st in {R.Paid, R.Confirmed, R.Refunded}
  {
    ReservationStatusPage(st);
  }

  class ResultPage {
    const reservationId: Option<string>
    var status: PageStatus
    var message: string
    var timerPending: bool

    /** Until the timer fires the page is loading and shows the first message. */
    ghost predicate Valid()
      reads this
    {
      timerPending ==> status == Loading && message == VerifyingMessage
    }

    /** The page as first rendered: loading, with the check's timer set. */
    constructor (id: Option<string>)
      ensures reservationId == id && status == Loading && message == VerifyingMessage && timerPending
      ensures Valid()
    {
      reservationId := id;
      status := Loading;
      message := VerifyingMessage;
      timerPending := true;
    }

    /** The timer fires after `CheckDelay` ms and runs `checkStatus` once with the backend's answer. */
    method TimerFires(lookup: Lookup)
      requires Valid() && timerPending
      modifies this
      ensures Valid() && !timerPending
      ensures (status, message) == CheckOutcome(reservationId, lookup)
    {
      timerPending := false;
      if reservationId.None? || reservationId.value == "" {
        status := Success;
        return;
      }
      var id := reservationId.value;
      message := SyncingMessage;
      match lookup {
        case RequestFailed =>
          status := Pending;
          message := UnverifiedMessage;
        case Listed(bookings) =>
          var found := FindStatus(bookings, id);
          if found.Some? {
            var s := found.value;
            if s == "paid" || s == "confirmed" {
              status := Success;
            } else if s == "pending" {
              status := Pending;
            } else if s == "cancelled" || s == "failed" {
              status := Failed;
            } else {
              status := Success;
            }
          } else {
            status := Pending;
          }
      }
    }
  }
}
