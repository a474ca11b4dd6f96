/** The `reservations` table row (backend/models/reservation.go). */
module ReservationModel {
  import opened Wrappers
  import opened Columns

  /** The values the CHECK constraint on `status` admits. */
  datatype Status = Pending | Confirmed | Paid | Cancelled | Refunded

  function Name(s: Status): string {
    match s
    case Pending => "pending"
    case Confirmed => "confirmed"
    case Paid => "paid"
    case Cancelled => "cancelled"
    case Refunded => "refunded"
  }

  /**
   * The status stored when `s` is written: the empty string is left to the
   * column default `pending`; a string outside the CHECK list is refused.
   */
  function Stored(s: string): (r: Option<Status>)
    ensures r.Some? <==> s in {"", "pending", "confirmed", "paid", "cancelled", "refunded"}
    ensures s == "" ==> r == Some(Pending)
    ensures r.Some? && s != "" ==> Name(r.value) == s
  {
    if s == "" || s == "pending" then Some(Pending)
    else if s == "confirmed" then Some(Confirmed)
    else if s == "paid" then Some(Paid)
    else if s == "cancelled" then Some(Cancelled)
    else if s == "refunded" then Some(Refunded)
    else None
  }

  /** Every status is stored as itself, and "failed" (a payment status) is never a reservation status. */
  lemma StoredName(st: Status)
    ensures Stored(Name(st)) == Some(st)
    ensures Name(st) != "failed" && Stored("failed") == None
  {
  }

  /** A booking that holds its slot: what the capacity checks count. */
  predicate IsActive(s: Status) {
    s == Pending || s == Paid || s == Confirmed
  }

  /**
   * A reservation row. `createdAt` is the instant of insertion (GORM's
   * autoCreateTime), kept for the `created_at DESC` orderings.
   */
  datatype Reservation = Reservation(
    userId: Id, courtId: Id, scheduleId: Id, status: Status,
    totalAmount: int, notes: string, createdAt: int)
}
