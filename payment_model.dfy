/** The `payments` table row (backend/models/payment.go). */
module PaymentModel {
  import opened Wrappers
  import opened Columns

  /** The values the CHECK constraint on `status` admits. */
  datatype Status = Pending | Success | Failed | Refunded

  function Name(s: Status): string {
    match s
    case Pending => "pending"
    case Success => "success"
    case Failed => "failed"
    case Refunded => "refunded"
  }

  /** The status stored when `s` is written: "" takes the default `pending`; anything outside the CHECK list is refused. */
  function Stored(s: string): (r: Option<Status>)
    ensures r.Some? <==> s in {"", "pending", "success", "failed", "refunded"}
    ensures s == "" ==> r == Some(Pending)
    ensures r.Some? && s != "" ==> Name(r.value) == s
  {
    if s == "" || s == "pending" then Some(Pending)
    else if s == "success" then Some(Success)
    else if s == "failed" then Some(Failed)
    else if s == "refunded" then Some(Refunded)
    else None
  }

  lemma StoredName(st: Status)
    ensures Stored(Name(st)) == Some(st)
  {
  }

  /**
   * A payment row: `orderId` is the provider's order id (unique, non-null),
   * `amount` a `decimal(10,2)` in hundredths, `paymentMethod` the method the provider reports.
   */
  datatype Payment = Payment(reservationId: Id, orderId: string, amount: int, status: Status, paymentMethod: string)
}
