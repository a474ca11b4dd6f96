/**
 * The reservation handlers (backend/controllers/reservation.go): the public
 * schedule queries, booking, cancelling, marking paid, the provider's
 * notification webhook and the provider sync that runs while listing a
 * user's reservations.
 *
 * Each state-changing handler is a method on a `Database`: it copies the
 * committed tables into a transaction `tx`, answers an error status without
 * writing anything back (rollback), or assigns `tx` back (commit). Its
 * contract equates the committed tables and the status with a function of the
 * old tables; the properties of the handler are stated on that function.
 */
module ReservationController {
  import opened Wrappers
  import opened Columns
  import opened Strings
  import opened Calendar
  import opened Ordering
  import opened Http
  import opened CourtModel
  import opened ScheduleModel
  import R = ReservationModel
  import P = PaymentModel
  import opened Store

  // ---------------------------------------------------------------- provider results

  /** The fields of the provider's transaction-status response the handlers read. */
  datatype TxStatus = TxStatus(transactionStatus: string, fraudStatus: string, paymentType: string)

  /**
   * What `VerifyTransaction` hands back: a response or none, and an error or
   * none. The two are independent inputs because the mark-paid handler reads
   * the response even when an error came with it.
   */
  datatype Verification = Verification(resp: Option<TxStatus>, failed: bool)

  /** What `GenerateSnapToken` hands back. */
  datatype SnapResult = SnapError | SnapToken(token: string, redirectUrl: string)

  // ---------------------------------------------------------------- mark paid

  /** The provider answered, without error, with a status other than capture or settlement. */
  predicate ProviderDenies(v: Verification) {
    !v.failed && v.resp.Some?
    && v.resp.value.transactionStatus != "capture" && v.resp.value.transactionStatus != "settlement"
  }

  /** The payment method mark-paid records: the provider's payment type whenever a response came back. */
  function MarkPaidMethod(v: Verification): string {
    if v.resp.Some? then v.resp.value.paymentType else "manual_sync_frontend"
  }

  /** The payment of reservation `rid` (if any) marked successful with method `m`. */
  function PaymentSucceeded(t: Tables, rid: Id, m: string): (u: Tables)
    ensures u.users == t.users && u.courts == t.courts && u.schedules == t.schedules && u.reservations == t.reservations
    ensures PaymentsOf(t, rid) == {} ==> u == t
    ensures PaymentsOf(t, rid) != {} ==>
      var pid := First(PaymentsOf(t, rid)).value;
      u.payments == t.payments[pid := t.payments[pid].(status := P.Success, paymentMethod := m)]
  {
    match First(PaymentsOf(t, rid))
    case None => t
    case Some(pid) => t.(payments := t.payments[pid := t.payments[pid].(status := P.Success, paymentMethod := m)])
  }

  /**
   * The mark-paid handler, which the booking page calls as
   * `POST /reservations/:id/mark-paid` (no route registers it). 404 unless the caller owns the
   * reservation, 400 unless it is pending or when the provider reports a
   * status other than capture/settlement (a provider error lets it through);
   * otherwise the reservation becomes paid and its payment successful.
   */
  function MarkPaidOutcome(t: Tables, id: Id, userId: Id, v: Verification): (o: Outcome)
    ensures o.status == NotFound <==> !(id in t.reservations && t.reservations[id].userId == userId)
    ensures o.status == BadRequest <==>
      id in t.reservations && t.reservations[id].userId == userId
      && (t.reservations[id].status != R.Pending || ProviderDenies(v))
    ensures o.status == OK || o.status == NotFound || o.status == BadRequest
    ensures o.status != OK ==> o.tables == t
    ensures o.status == OK ==>
      o.tables.reservations == t.reservations[id := t.reservations[id].(status := R.Paid)]
      && o.tables.schedules == t.schedules && o.tables.courts == t.courts && o.tables.users == t.users
      && o.tables.payments == PaymentSucceeded(t, id, MarkPaidMethod(v)).payments
  {
    if id !in t.reservations || t.reservations[id].userId != userId then Outcome(t, NotFound)
    else if t.reservations[id].status != R.Pending || ProviderDenies(v) then Outcome(t, BadRequest)
    else Outcome(SetStatus(PaymentSucceeded(t, id, MarkPaidMethod(v)), id, R.Paid), OK)
  }

  /**
   * The handler binds the path text to the `uuid` key: a text the database
   * cannot read finds no row (404), any other is looked up as the key it reads.
   */
  method MarkReservationAsPaid(db: Database, pathId: string, userId: Id, v: Verification, dbUuid: string -> Option<Id>)
    returns (status: int)
    modifies db
    ensures dbUuid(pathId).None? ==> status == NotFound && db.tables == old(db.tables)
    ensures dbUuid(pathId).Some? ==>
      Outcome(db.tables, status) == MarkPaidOutcome(old(db.tables), dbUuid(pathId).value, userId, v)
  {
    var key := dbUuid(pathId);
    if key.None? {
      return NotFound;
    }
    var id := key.value;
    if id !in db.tables.reservations || db.tables.reservations[id].userId != userId {
      return NotFound;
    }
    var reservation := db.tables.reservations[id];
    if reservation.status != R.Pending {
      return BadRequest;
    }
    if !v.failed && v.resp.Some? {
      if v.resp.value.transactionStatus != "capture" && v.resp.value.transactionStatus != "settlement" {
        return BadRequest;
      }
    }
    var tx := db.tables;
    var found := First(PaymentsOf(tx, id));
    if found.Some? {
      var payment := tx.payments[found.value];
      payment := payment.(status := P.Success, paymentMethod := "manual_sync_frontend");
      if v.resp.Some? {
        payment := payment.(paymentMethod := v.resp.value.paymentType);
      }
      tx := tx.(payments := tx.payments[found.value := payment]);
    }
    reservation := reservation.(status := R.Paid);
    tx := tx.(reservations := tx.reservations[id := reservation]);
    db.tables := tx;
    return OK;
  }

  // ---------------------------------------------------------------- create

  /** The request body of `POST /reservations`, when it parses. */
  datatype CreateInput = CreateInput(scheduleId: Id, notes: string)

  /**
   * `u` is `t` after a successful booking of `input.scheduleId` by `userId`:
   * the schedule was open with spare capacity, the new pending reservation is
   * priced at the court's price, the new pending payment's order id is the
   * reservation id and its amount the reservation's, and the schedule closes
   * exactly when the booking fills the court's capacity.
   */
  predicate Booked(t: Tables, u: Tables, userId: Id, input: CreateInput, resId: Id, payId: Id, now: int) {
    var sid := input.scheduleId;
    && sid in t.schedules
    && var s := t.schedules[sid];
    && s.courtId in t.courts
    && var court := t.courts[s.courtId];
    && var count := ActiveCount(t, sid);
    && s.isAvailable && count < court.capacity
    && resId !in t.reservations && payId !in t.payments
    && u.reservations ==
       t.reservations[resId := R.Reservation(userId, s.courtId, sid, R.Pending, court.pricePerSlot, input.notes, now)]
    && u.payments == t.payments[payId := P.Payment(resId, resId, court.pricePerSlot, P.Pending, "")]
    && u.schedules == (if count + 1 >= court.capacity then t.schedules[sid := s.(isAvailable := false)] else t.schedules)
    && u.users == t.users && u.courts == t.courts
  }

  /**
   * `POST /reservations`: 400 for a body that does not parse or a schedule id
   * that is not a uuid, 404 for an unknown schedule, 409 when the schedule is
   * not available or its active bookings already reach the court's capacity.
   * On success (201) one pending reservation priced at the court's price and
   * one pending payment whose order id is the reservation id are added, and
   * the schedule closes exactly when this booking fills it. Every other
   * outcome, including a failure after some writes, leaves the tables as they were.
   */
  function CreateOutcome(
    t: Tables, userId: Id, body: Option<CreateInput>, snap: SnapResult, resId: Id, payId: Id, now: int): (o: Outcome)
    ensures o.status in {Created, BadRequest, NotFound, Conflict, InternalError}
    ensures o.status != Created ==> o.tables == t
    ensures o.status == BadRequest <==> body.None? || !IsUuid(body.value.scheduleId)
    ensures o.status == NotFound <==> body.Some? && IsUuid(body.value.scheduleId) && body.value.scheduleId !in t.schedules
    ensures o.status == Conflict <==>
      body.Some? && IsUuid(body.value.scheduleId) && body.value.scheduleId in t.schedules
      && var s := t.schedules[body.value.scheduleId];
         (!s.isAvailable
          || (s.courtId in t.courts && ActiveCount(t, body.value.scheduleId) >= t.courts[s.courtId].capacity))
    ensures o.status == Created ==> body.Some? && Booked(t, o.tables, userId, body.value, resId, payId, now)
  {
    if body.None? || !IsUuid(body.value.scheduleId) then Outcome(t, BadRequest)
    else
      var sid := body.value.scheduleId;
      if sid !in t.schedules then Outcome(t, NotFound)
      else if !t.schedules[sid].isAvailable then Outcome(t, Conflict)
      else
        var s := t.schedules[sid];
        if s.courtId !in t.courts then Outcome(t, InternalError)
        else
          var court := t.courts[s.courtId];
          var count := ActiveCount(t, sid);
          if count >= court.capacity then Outcome(t, Conflict)
          else
            var r := R.Reservation(userId, s.courtId, sid, R.Pending, court.pricePerSlot, body.value.notes, now);
            CreateWrites(t, r, snap, resId, payId, count + 1 >= court.capacity)
  }

  /**
   * The writes of a booking once the seat check has passed: the schedule
   * closed when `fills`, the reservation row `r`, the payment row pending on
   * Snap; any failure rolls all of them back.
   */
  function CreateWrites(t: Tables, r: R.Reservation, snap: SnapResult, resId: Id, payId: Id, fills: bool): Outcome {
    var t1 := if fills then SetAvailability(t, r.scheduleId, false) else t;
    if r.userId !in t1.users then Outcome(t, InternalError)
    else
      match InsertReservation(t1, resId, r)
      case None => Outcome(t, InternalError)
      case Some(t2) =>
        if snap.SnapError? then Outcome(t, InternalError)
        else
          match InsertPayment(t2, payId, P.Payment(resId, resId, r.totalAmount, P.Pending, ""))
          case None => Outcome(t, InternalError)
          case Some(t3) => Outcome(t3, Created)
  }

  method CreateReservation(
    db: Database, userId: Id, body: Option<CreateInput>, snap: SnapResult, resId: Id, payId: Id, now: int)
    returns (status: int, reservationId: Id, snapToken: string, redirectUrl: string)
    modifies db
    ensures Outcome(db.tables, status) == CreateOutcome(old(db.tables), userId, body, snap, resId, payId, now)
    ensures status == Created ==> reservationId == resId && snap == SnapToken(snapToken, redirectUrl)
  {
    reservationId, snapToken, redirectUrl := "", "", "";
    if body.None? {
      return BadRequest, reservationId, snapToken, redirectUrl;
    }
    var input := body.value;
    if !IsUuid(input.scheduleId) {
      return BadRequest, reservationId, snapToken, redirectUrl;
    }
    var tx := db.tables;
    if input.scheduleId !in tx.schedules {
      return NotFound, reservationId, snapToken, redirectUrl;
    }
    var schedule := tx.schedules[input.scheduleId];
    if !schedule.isAvailable {
      return Conflict, reservationId, snapToken, redirectUrl;
    }
    if schedule.courtId !in tx.courts {
      return InternalError, reservationId, snapToken, redirectUrl;
    }
    var court := tx.courts[schedule.courtId];
    var currentBookings := ActiveCount(tx, input.scheduleId);
    if currentBookings >= court.capacity {
      return Conflict, reservationId, snapToken, redirectUrl;
    }
    if currentBookings + 1 >= court.capacity {
      tx := SetAvailability(tx, input.scheduleId, false);
    }
    if userId !in tx.users {
      return InternalError, reservationId, snapToken, redirectUrl;
    }
    var reservation := R.Reservation(userId, schedule.courtId, input.scheduleId, R.Pending, court.pricePerSlot, input.notes, now);
    var created := InsertReservation(tx, resId, reservation);
    if created.None? {
      return InternalError, reservationId, snapToken, redirectUrl;
    }
    tx := created.value;
    if snap.SnapError? {
      return InternalError, reservationId, snapToken, redirectUrl;
    }
    var payment := P.Payment(resId, resId, reservation.totalAmount, P.Pending, "");
    var paid := InsertPayment(tx, payId, payment);
    if paid.None? {
      return InternalError, reservationId, snapToken, redirectUrl;
    }
    db.tables := paid.value;
    return Created, resId, snap.token, snap.redirectUrl;
  }

  /**
   * Every check and every write of a booking passes: the schedule is open
   * with a spare seat at an existing court, the caller is a user, the new
   * keys are free, the schedule holds no reservation row yet (the unique
   * `schedule_id`), the price fits its column, Snap returned a token, and
   * no payment already uses the reservation id as its order id.
   */
  predicate CreateSucceeds(t: Tables, userId: Id, input: CreateInput, snap: SnapResult, resId: Id, payId: Id) {
    var sid := input.scheduleId;
    && IsUuid(sid) && sid in t.schedules
    && var s := t.schedules[sid];
    && s.isAvailable && s.courtId in t.courts
    && ActiveCount(t, sid) < t.courts[s.courtId].capacity
    && userId in t.users
    && resId !in t.reservations && ReservationsOf(t, sid) == {}
    && FitsDecimal(t.courts[s.courtId].pricePerSlot)
    && snap.SnapToken?
    && payId !in t.payments && PaymentsWithOrder(t, resId) == {}
  }

  /** A booking is created (201) exactly when every check and every write passes; otherwise 4xx or 500. */
  lemma CreateSucceedsIff(t: Tables, userId: Id, body: Option<CreateInput>, snap: SnapResult, resId: Id, payId: Id, now: int)
    ensures CreateOutcome(t, userId, body, snap, resId, payId, now).status == Created
            <==> body.Some? && CreateSucceeds(t, userId, body.value, snap, resId, payId)
  {
    if body.Some? && IsUuid(body.value.scheduleId) && body.value.scheduleId in t.schedules {
      var sid := body.value.scheduleId;
      var s := t.schedules[sid];
      if s.isAvailable && s.courtId in t.courts && ActiveCount(t, sid) < t.courts[s.courtId].capacity {
        var court := t.courts[s.courtId];
        var fills := ActiveCount(t, sid) + 1 >= court.capacity;
        var r := R.Reservation(userId, s.courtId, sid, R.Pending, court.pricePerSlot, body.value.notes, now);
        var t1 := if fills then SetAvailability(t, sid, false) else t;
        assert t1.users == t.users && t1.courts == t.courts && t1.reservations == t.reservations;
        assert t1.payments == t.payments && t1.schedules.Keys == t.schedules.Keys;
        assert ReservationsOf(t1, sid) == ReservationsOf(t, sid);
        if userId in t1.users && InsertReservation(t1, resId, r).Some? {
          var t2 := InsertReservation(t1, resId, r).value;
          assert PaymentsWithOrder(t2, resId) == PaymentsWithOrder(t, resId);
        }
      }
    }
  }

  /** The capacity check of a successful booking: with one reservation row per schedule the count was 0 and becomes 1. */
  lemma CreateFillsOneSeat(t: Tables, userId: Id, body: Option<CreateInput>, snap: SnapResult, resId: Id, payId: Id, now: int)
    requires ScheduleIdUnique(t.reservations)
    requires CreateOutcome(t, userId, body, snap, resId, payId, now).status == Created
    ensures var sid := body.value.scheduleId;
      var u := CreateOutcome(t, userId, body, snap, resId, payId, now).tables;
      && ActiveCount(t, sid) == 0 && ActiveCount(u, sid) == 1
      && ActiveCount(u, sid) <= t.courts[t.schedules[sid].courtId].capacity
  {
    var sid := body.value.scheduleId;
    var u := CreateOutcome(t, userId, body, snap, resId, payId, now).tables;
    assert ActiveBookings(t, sid) == {};
    assert ActiveBookings(u, sid) == {resId};
  }

  /** The writes of a booking keep every table constraint, whether they commit or roll back. */
  lemma CreateWritesKeepValid(t: Tables, r: R.Reservation, snap: SnapResult, resId: Id, payId: Id, fills: bool)
    requires Valid(t)
    ensures Valid(CreateWrites(t, r, snap, resId, payId, fills).tables)
  {
    var o := CreateWrites(t, r, snap, resId, payId, fills);
    var t1 := if fills then SetAvailability(t, r.scheduleId, false) else t;
    var p := P.Payment(resId, resId, r.totalAmount, P.Pending, "");
    if o.status == Created {
      SetAvailabilityKeepsValid(t, r.scheduleId, false);
      InsertBookingKeepsValid(t1, resId, r, payId, p);
      assert o.tables == InsertPayment(InsertReservation(t1, resId, r).value, payId, p).value;
    } else {
      assert o.tables == t;
    }
  }

  /** A booking that succeeds preserves every table constraint. */
  lemma CreatePreservesValid(t: Tables, userId: Id, body: Option<CreateInput>, snap: SnapResult, resId: Id, payId: Id, now: int)
    requires Valid(t)
    ensures Valid(CreateOutcome(t, userId, body, snap, resId, payId, now).tables)
  {
    if body.Some? && IsUuid(body.value.scheduleId) && body.value.scheduleId in t.schedules {
      var sid := body.value.scheduleId;
      var s := t.schedules[sid];
      if s.isAvailable && s.courtId in t.courts {
        var court := t.courts[s.courtId];
        var r := R.Reservation(userId, s.courtId, sid, R.Pending, court.pricePerSlot, body.value.notes, now);
        CreateWritesKeepValid(t, r, snap, resId, payId, ActiveCount(t, sid) + 1 >= court.capacity);
      }
    }
  }

  // ---------------------------------------------------------------- cancel

  /** Reservation `id` cancelled and its schedule released (made available). */
  function CancelAndRelease(t: Tables, id: Id): (u: Tables)
    requires id in t.reservations
    ensures u.reservations == t.reservations[id := t.reservations[id].(status := R.Cancelled)]
    ensures var sid := t.reservations[id].scheduleId;
      u.schedules == if sid in t.schedules then t.schedules[sid := t.schedules[sid].(isAvailable := true)] else t.schedules
    ensures u.users == t.users && u.courts == t.courts && u.payments == t.payments
  {
    SetAvailability(SetStatus(t, id, R.Cancelled), t.reservations[id].scheduleId, true)
  }

  /**
   * `POST /reservations/:id/cancel`: 404 for an unknown reservation, 403 when
   * the caller does not own it, 400 unless it is pending; otherwise it is
   * cancelled and its schedule released.
   */
  function CancelOutcome(t: Tables, id: Id, userId: Id): (o: Outcome)
    ensures o.status in {OK, NotFound, Forbidden, BadRequest}
    ensures o.status == NotFound <==> id !in t.reservations
    ensures o.status == Forbidden <==> id in t.reservations && t.reservations[id].userId != userId
    ensures o.status == BadRequest <==>
      id in t.reservations && t.reservations[id].userId == userId && t.reservations[id].status != R.Pending
    ensures o.status != OK ==> o.tables == t
    ensures o.status == OK ==> o.tables == CancelAndRelease(t, id)
  {
    if id !in t.reservations then Outcome(t, NotFound)
    else if t.reservations[id].userId != userId then Outcome(t, Forbidden)
    else if t.reservations[id].status != R.Pending then Outcome(t, BadRequest)
    else Outcome(CancelAndRelease(t, id), OK)
  }

  method CancelReservation(db: Database, pathId: string, userId: Id, dbUuid: string -> Option<Id>) returns (status: int)
    modifies db
    ensures dbUuid(pathId).None? ==> status == NotFound && db.tables == old(db.tables)
    ensures dbUuid(pathId).Some? ==>
      Outcome(db.tables, status) == CancelOutcome(old(db.tables), dbUuid(pathId).value, userId)
  {
    var key := dbUuid(pathId);
    if key.None? {
      return NotFound;
    }
    var id := key.value;
    if id !in db.tables.reservations {
      return NotFound;
    }
    var reservation := db.tables.reservations[id];
    if reservation.userId != userId {
      return Forbidden;
    }
    if reservation.status != R.Pending {
      return BadRequest;
    }
    var tx := db.tables;
    reservation := reservation.(status := R.Cancelled);
    tx := tx.(reservations := tx.reservations[id := reservation]);
    tx := SetAvailability(tx, reservation.scheduleId, true);
    db.tables := tx;
    return OK;
  }

  /** `POST /admin/reservations/:id/cancel`: as the user's cancel, for any status and any owner. */
  function AdminCancelOutcome(t: Tables, id: Id): (o: Outcome)
    ensures o.status == NotFound <==> id !in t.reservations
    ensures o.status == NotFound ==> o.tables == t
    ensures o.status != NotFound ==> o.status == OK && o.tables == CancelAndRelease(t, id)
  {
    if id !in t.reservations then Outcome(t, NotFound) else Outcome(CancelAndRelease(t, id), OK)
  }

  method AdminCancelReservation(db: Database, pathId: string, dbUuid: string -> Option<Id>) returns (status: int)
    modifies db
    ensures dbUuid(pathId).None? ==> status == NotFound && db.tables == old(db.tables)
    ensures dbUuid(pathId).Some? ==> Outcome(db.tables, status) == AdminCancelOutcome(old(db.tables), dbUuid(pathId).value)
  {
    var key := dbUuid(pathId);
    if key.None? {
      return NotFound;
    }
    var id := key.value;
    var tx := db.tables;
    if id !in tx.reservations {
      return NotFound;
    }
    var reservation := tx.reservations[id];
    reservation := reservation.(status := R.Cancelled);
    tx := tx.(reservations := tx.reservations[id := reservation]);
    tx := SetAvailability(tx, reservation.scheduleId, true);
    db.tables := tx;
    return OK;
  }

  /** The admin's cancel succeeds wherever the user's does, with the same effect. */
  lemma AdminCancelExtendsCancel(t: Tables, id: Id, userId: Id)
    requires CancelOutcome(t, id, userId).status == OK
    ensures AdminCancelOutcome(t, id) == CancelOutcome(t, id, userId)
  {
  }

  lemma CancelPreservesValid(t: Tables, id: Id)
    requires Valid(t) && id in t.reservations
    ensures Valid(CancelAndRelease(t, id))
  {
    SetStatusKeepsValid(t, id, R.Cancelled);
    SetAvailabilityKeepsValid(SetStatus(t, id, R.Cancelled), t.reservations[id].scheduleId, true);
  }

  /**
   * Cancelling releases the schedule, yet the cancelled row still holds the
   * unique `schedule_id`: the released schedule reads as available, but no
   * later booking of it can succeed.
   */
  lemma ReleasedScheduleCannotBeRebooked(
    t: Tables, id: Id, userId: Id, booker: Id, body: Option<CreateInput>, snap: SnapResult, resId: Id, payId: Id, now: int)
    requires id in t.reservations && t.reservations[id].scheduleId in t.schedules
    requires body.Some? && body.value.scheduleId == t.reservations[id].scheduleId
    ensures var u := CancelAndRelease(t, id);
      u.schedules[body.value.scheduleId].isAvailable
      && CreateOutcome(u, booker, body, snap, resId, payId, now).status != Created
  {
    var u := CancelAndRelease(t, id);
    assert id in ReservationsOf(u, body.value.scheduleId);
  }

  // ---------------------------------------------------------------- provider status mappings

  /** The webhook's mapping from the notified transaction and fraud status to a payment status (None: no update). */
  function WebhookStatus(ts: string, fs: string): (r: Option<P.Status>)
    ensures r == Some(P.Success) <==> (ts == "capture" && fs == "accept") || ts == "settlement"
    ensures r == Some(P.Pending) <==> (ts == "capture" && fs == "challenge") || ts == "pending"
    ensures r == Some(P.Failed) <==> ts == "deny" || ts == "expire" || ts == "cancel"
    ensures r != Some(P.Refunded)
  {
    if ts == "capture" then
      (if fs == "challenge" then Some(P.Pending) else if fs == "accept" then Some(P.Success) else None)
    else if ts == "settlement" then Some(P.Success)
    else if ts == "deny" || ts == "expire" || ts == "cancel" then Some(P.Failed)
    else if ts == "pending" then Some(P.Pending)
    else None
  }

  /** The sync's mapping: a capture succeeds unless flagged "challenge", and "pending" maps to nothing. */
  function SyncStatus(ts: string, fs: string): (r: Option<P.Status>)
    ensures r == Some(P.Success) <==> (ts == "capture" && fs != "challenge") || ts == "settlement"
    ensures r == Some(P.Pending) <==> ts == "capture" && fs == "challenge"
    ensures r == Some(P.Failed) <==> ts == "deny" || ts == "expire" || ts == "cancel"
    ensures r != Some(P.Refunded)
  {
    if ts == "capture" || ts == "settlement" then
      (if ts == "capture" && fs == "challenge" then Some(P.Pending) else Some(P.Success))
    else if ts == "deny" || ts == "expire" || ts == "cancel" then Some(P.Failed)
    else None
  }

  /**
   * The two mappings disagree exactly on a capture whose fraud status is
   * neither "challenge" nor "accept" (the sync marks it successful, the
   * webhook ignores it) and on "pending" (the webhook records it, the sync ignores it).
   */
  lemma MappingsDiffer(ts: string, fs: string)
    ensures WebhookStatus(ts, fs) != SyncStatus(ts, fs) <==>
      (ts == "capture" && fs != "challenge" && fs != "accept") || ts == "pending"
    ensures ts == "capture" && fs == "" ==> WebhookStatus(ts, fs) == None && SyncStatus(ts, fs) == Some(P.Success)
  {
  }

  // ---------------------------------------------------------------- webhook

  /** A JSON value of the notification body: a string, or anything else. */
  datatype Json = JString(text: string) | JOther

  type Payload = map<string, Json>

  /** `payload[k].(string)`: the string under key `k`, if the key holds one. */
  function Text(p: Payload, k: string): (r: Option<string>)
    ensures r.Some? <==> k in p && p[k].JString?
    ensures r.Some? ==> r.value == p[k].text
  {
    if k in p && p[k].JString? then Some(p[k].text) else None
  }

  /** `v, _ := payload[k].(string)`: the empty string when the key holds no string. */
  function TextOr(p: Payload, k: string): string {
    Text(p, k).GetOr("")
  }

  /** The notification carries an order id and non-empty signature, status code and gross amount. */
  predicate WellFormed(p: Payload) {
    Text(p, "order_id").Some?
    && TextOr(p, "signature_key") != "" && TextOr(p, "status_code") != "" && TextOr(p, "gross_amount") != ""
  }

  /**
   * The signature is the hex SHA-512 of order id, status code, gross amount
   * and server key concatenated; `sign` stands for that digest.
   */
  predicate Authentic(p: Payload, serverKey: string, sign: string -> string)
    requires WellFormed(p)
  {
    TextOr(p, "signature_key")
      == sign(Text(p, "order_id").value + TextOr(p, "status_code") + TextOr(p, "gross_amount") + serverKey)
  }

  /** The schedule a reservation holds, or the empty id of a zero-valued row when it is missing. */
  function ScheduleOf(t: Tables, rid: Id): (sid: Id)
    ensures rid in t.reservations ==> sid == t.reservations[rid].scheduleId
  {
    if rid in t.reservations then t.reservations[rid].scheduleId else ""
  }

  /**
   * The webhook's transaction: the payment takes the new status and the
   * notified payment type; a success marks the reservation paid, a failure
   * cancels it and releases its schedule.
   */
  function Notified(t: Tables, pid: Id, ns: P.Status, paymentType: string): (u: Tables)
    requires pid in t.payments
    ensures u.payments == t.payments[pid := t.payments[pid].(status := ns, paymentMethod := paymentType)]
    ensures u.users == t.users && u.courts == t.courts
    ensures var rid := t.payments[pid].reservationId;
      u.reservations == match ns
        case Success => SetStatus(t, rid, R.Paid).reservations
        case Failed => SetStatus(t, rid, R.Cancelled).reservations
        case _ => t.reservations
    ensures u.schedules ==
      if ns == P.Failed then SetAvailability(t, ScheduleOf(t, t.payments[pid].reservationId), true).schedules
      else t.schedules
  {
    var t1 := t.(payments := t.payments[pid := t.payments[pid].(status := ns, paymentMethod := paymentType)]);
    var rid := t.payments[pid].reservationId;
    if ns == P.Success then SetStatus(t1, rid, R.Paid)
    else if ns == P.Failed then
      var t2 := SetStatus(t1, rid, R.Cancelled);
      SetAvailability(t2, ScheduleOf(t2, rid), true)
    else t1
  }

  /**
   * `POST /midtrans/webhook`: 400 for a body that does not parse or is
   * not well formed, 401 for a wrong signature, 404 for an unknown order id;
   * otherwise 200, with the payment (and its reservation and schedule)
   * updated when the mapping yields a status, and nothing changed when it does not.
   */
  function WebhookOutcome(t: Tables, body: Option<Payload>, serverKey: string, sign: string -> string): (o: Outcome)
    ensures o.status in {OK, BadRequest, Unauthorized, NotFound}
    ensures o.status == BadRequest <==> body.None? || !WellFormed(body.value)
    ensures o.status == Unauthorized <==> body.Some? && WellFormed(body.value) && !Authentic(body.value, serverKey, sign)
    ensures o.status == NotFound <==>
      body.Some? && WellFormed(body.value) && Authentic(body.value, serverKey, sign)
      && PaymentsWithOrder(t, Text(body.value, "order_id").value) == {}
    ensures o.status != OK ==> o.tables == t
    ensures o.status == OK ==>
      var p := body.value;
      var pid := First(PaymentsWithOrder(t, Text(p, "order_id").value)).value;
      o.tables == match WebhookStatus(TextOr(p, "transaction_status"), TextOr(p, "fraud_status"))
        case None => t
        case Some(ns) => Notified(t, pid, ns, TextOr(p, "payment_type"))
  {
    if body.None? || !WellFormed(body.value) then Outcome(t, BadRequest)
    else
      var p := body.value;
      if !Authentic(p, serverKey, sign) then Outcome(t, Unauthorized)
      else
        match First(PaymentsWithOrder(t, Text(p, "order_id").value))
        case None => Outcome(t, NotFound)
        case Some(pid) =>
          match WebhookStatus(TextOr(p, "transaction_status"), TextOr(p, "fraud_status"))
          case None => Outcome(t, OK)
          case Some(ns) => Outcome(Notified(t, pid, ns, TextOr(p, "payment_type")), OK)
  }

  method HandleMidtransNotification(db: Database, body: Option<Payload>, serverKey: string, sign: string -> string)
    returns (status: int)
    modifies db
    ensures Outcome(db.tables, status) == WebhookOutcome(old(db.tables), body, serverKey, sign)
  {
    if body.None? {
      return BadRequest;
    }
    var payload := body.value;
    var orderId := Text(payload, "order_id");
    if orderId.None? {
      return BadRequest;
    }
    var transactionStatus := TextOr(payload, "transaction_status");
    var fraudStatus := TextOr(payload, "fraud_status");
    var signatureKey := TextOr(payload, "signature_key");
    var statusCode := TextOr(payload, "status_code");
    var grossAmount := TextOr(payload, "gross_amount");
    if signatureKey == "" || statusCode == "" || grossAmount == "" {
      return BadRequest;
    }
    if signatureKey != sign(orderId.value + statusCode + grossAmount + serverKey) {
      return Unauthorized;
    }
    var found := First(PaymentsWithOrder(db.tables, orderId.value));
    if found.None? {
      return NotFound;
    }
    var newStatus := WebhookStatus(transactionStatus, fraudStatus);
    if newStatus.Some? {
      var tx := db.tables;
      var payment := tx.payments[found.value];
      payment := payment.(status := newStatus.value, paymentMethod := TextOr(payload, "payment_type"));
      tx := tx.(payments := tx.payments[found.value := payment]);
      if newStatus.value == P.Success {
        tx := SetStatus(tx, payment.reservationId, R.Paid);
      } else if newStatus.value == P.Failed {
        tx := SetStatus(tx, payment.reservationId, R.Cancelled);
        var scheduleId := ScheduleOf(tx, payment.reservationId);
        tx := SetAvailability(tx, scheduleId, true);
      }
      db.tables := tx;
    }
    return OK;
  }

  lemma NotifiedKeepsValid(t: Tables, pid: Id, ns: P.Status, pt: string)
    requires Valid(t) && pid in t.payments
    ensures Valid(Notified(t, pid, ns, pt))
  {
    UpdatePaymentKeepsValid(t, pid, ns, pt);
    var t1 := t.(payments := t.payments[pid := t.payments[pid].(status := ns, paymentMethod := pt)]);
    var rid := t.payments[pid].reservationId;
    if ns == P.Success {
      SetStatusKeepsValid(t1, rid, R.Paid);
    } else if ns == P.Failed {
      SetStatusKeepsValid(t1, rid, R.Cancelled);
      var t2 := SetStatus(t1, rid, R.Cancelled);
      SetAvailabilityKeepsValid(t2, ScheduleOf(t2, rid), true);
    }
  }

  lemma WebhookPreservesValid(t: Tables, body: Option<Payload>, serverKey: string, sign: string -> string)
    requires Valid(t)
    ensures Valid(WebhookOutcome(t, body, serverKey, sign).tables)
  {
    var o := WebhookOutcome(t, body, serverKey, sign);
    if o.status == OK {
      var p := body.value;
      match WebhookStatus(TextOr(p, "transaction_status"), TextOr(p, "fraud_status"))
      case None =>
      case Some(ns) =>
        NotifiedKeepsValid(t, First(PaymentsWithOrder(t, Text(p, "order_id").value)).value, ns, TextOr(p, "payment_type"));
    }
  }

  /**
   * A success notification marks the reservation paid whatever its status, so
   * one cancelled earlier (its schedule released) becomes paid again while
   * its schedule stays available.
   */
  lemma SuccessRevivesCancelled(t: Tables, body: Option<Payload>, serverKey: string, sign: string -> string, rid: Id)
    requires WebhookOutcome(t, body, serverKey, sign).status == OK
    requires WebhookStatus(TextOr(body.value, "transaction_status"), TextOr(body.value, "fraud_status")) == Some(P.Success)
    requires t.payments[First(PaymentsWithOrder(t, Text(body.value, "order_id").value)).value].reservationId == rid
    requires rid in t.reservations && t.reservations[rid].status == R.Cancelled
    ensures var u := WebhookOutcome(t, body, serverKey, sign).tables;
      u.reservations[rid].status == R.Paid && u.schedules == t.schedules
  {
  }

  // ---------------------------------------------------------------- proactive sync of pending reservations

  /** The status the sync acts on: none when the lookup failed, came back empty or maps to nothing. */
  function SyncTarget(v: Verification): Option<P.Status> {
    if v.failed || v.resp.None? then None
    else SyncStatus(v.resp.value.transactionStatus, v.resp.value.fraudStatus)
  }

  /**
   * The payment half of one sync transaction: the reservation's payment takes
   * the new status (and the payment type when one came back); without a
   * payment a new one is inserted, ordered under the reservation's id.
   * None: the insert fails, and the transaction with it.
   */
  function SyncPayment(t: Tables, rid: Id, amount: int, ns: P.Status, pt: string, payId: Id): (u: Option<Tables>)
    ensures u.Some? ==> u.value.reservations == t.reservations && u.value.schedules == t.schedules
    ensures u.Some? ==> u.value.users == t.users && u.value.courts == t.courts
  {
    match First(PaymentsOf(t, rid))
    case Some(pid) =>
      var prior := t.payments[pid];
      Some(t.(payments := t.payments[pid := prior.(status := ns, paymentMethod := if pt != "" then pt else prior.paymentMethod)]))
    case None =>
      InsertPayment(t, payId, P.Payment(rid, rid, amount, ns, pt))
  }

  /**
   * One iteration of the loop in `GET /reservations/my`, for the reservation
   * `rid` whose row (as the list query returned it) is `res`: a pending
   * reservation whose provider lookup yields a status gets its payment synced,
   * then turns paid on success, or cancelled with its schedule released on
   * failure, in one transaction; anything that fails leaves the store as it was.
   */
  function SyncOne(t: Tables, rid: Id, res: R.Reservation, v: Verification, payId: Id): (u: Tables)
    ensures u.reservations.Keys == t.reservations.Keys
    ensures forall id :: id in t.reservations && id != rid ==> u.reservations[id] == t.reservations[id]
    ensures res.status != R.Pending || SyncTarget(v).None? ==> u == t
    ensures rid in t.reservations ==>
      u.reservations[rid] == t.reservations[rid]
      || (SyncTarget(v) == Some(P.Success) && u.reservations[rid] == t.reservations[rid].(status := R.Paid))
      || (SyncTarget(v) == Some(P.Failed) && u.reservations[rid] == t.reservations[rid].(status := R.Cancelled))
    ensures rid in t.reservations ==>
      u.reservations[rid] == t.reservations[rid].(status := u.reservations[rid].status)
      && u.reservations[rid].status in {t.reservations[rid].status, R.Paid, R.Cancelled}
    ensures res.status == R.Pending && SyncTarget(v).Some? ==>
      match SyncPayment(t, rid, res.totalAmount, SyncTarget(v).value, v.resp.value.paymentType, payId)
      case None => u == t
      case Some(t1) => u == Settle(t1, rid, SyncTarget(v).value, res.scheduleId)
    ensures rid in t.reservations && res.status == R.Pending && PaymentsOf(t, rid) != {} ==>
      (SyncTarget(v) == Some(P.Success) ==> u.reservations[rid].status == R.Paid)
      && (SyncTarget(v) == Some(P.Failed) ==>
            u.reservations[rid].status == R.Cancelled
            && (res.scheduleId in t.schedules ==> u.schedules[res.scheduleId].isAvailable))
      && (SyncTarget(v) != Some(P.Success) && SyncTarget(v) != Some(P.Failed) ==> u.reservations == t.reservations)
  {
    if res.status != R.Pending then t
    else
      match SyncTarget(v)
      case None => t
      case Some(ns) =>
        match SyncPayment(t, rid, res.totalAmount, ns, v.resp.value.paymentType, payId)
        case None => t
        case Some(t1) => Settle(t1, rid, ns, res.scheduleId)
  }

  /** The reservation half of a sync: paid on success; cancelled with schedule `sid` released on failure. */
  function Settle(t: Tables, rid: Id, ns: P.Status, sid: Id): (u: Tables)
    ensures u.users == t.users && u.courts == t.courts && u.payments == t.payments
    ensures ns != P.Failed ==> u.schedules == t.schedules
    ensures ns == P.Failed ==> u.schedules == SetAvailability(t, sid, true).schedules
    ensures ns == P.Success ==> u.reservations == SetStatus(t, rid, R.Paid).reservations
    ensures ns == P.Failed ==> u.reservations == SetStatus(t, rid, R.Cancelled).reservations
    ensures ns != P.Success && ns != P.Failed ==> u == t
  {
    if ns == P.Success then SetStatus(t, rid, R.Paid)
    else if ns == P.Failed then SetAvailability(SetStatus(t, rid, R.Cancelled), sid, true)
    else t
  }

  lemma SettleKeepsValid(t: Tables, rid: Id, ns: P.Status, sid: Id)
    requires Valid(t)
    ensures Valid(Settle(t, rid, ns, sid))
  {
    if ns == P.Success {
      SetStatusKeepsValid(t, rid, R.Paid);
    } else if ns == P.Failed {
      SetStatusKeepsValid(t, rid, R.Cancelled);
      SetAvailabilityKeepsValid(SetStatus(t, rid, R.Cancelled), sid, true);
    }
  }

  /** A payment half that goes through leaves the reservation a payment with the new status. */
  lemma SyncPaymentRecords(t: Tables, rid: Id, amount: int, ns: P.Status, pt: string, payId: Id)
    requires SyncPayment(t, rid, amount, ns, pt, payId).Some?
    ensures var u := SyncPayment(t, rid, amount, ns, pt, payId).value;
      PaymentsOf(u, rid) != {} && u.payments[First(PaymentsOf(u, rid)).value].status == ns
  {
    var u := SyncPayment(t, rid, amount, ns, pt, payId).value;
    if PaymentsOf(t, rid) != {} {
      assert PaymentsOf(u, rid) == PaymentsOf(t, rid) by {
        forall x ensures x in PaymentsOf(u, rid) <==> x in PaymentsOf(t, rid) {
        }
      }
    } else {
      assert PaymentsOf(u, rid) == {payId} by {
        forall x ensures x in PaymentsOf(u, rid) <==> x == payId {
          if x in t.payments && x != payId {
            assert x !in PaymentsOf(t, rid);
          }
        }
      }
    }
  }

  /**
   * After a committed sync the reservation has a payment carrying the status
   * the provider reported: a reservation the sync marks paid has a successful payment.
   */
  lemma SyncedPaymentRecorded(t: Tables, rid: Id, res: R.Reservation, v: Verification, payId: Id)
    requires SyncOne(t, rid, res, v, payId) != t
    ensures var u := SyncOne(t, rid, res, v, payId);
      PaymentsOf(u, rid) != {} && u.payments[First(PaymentsOf(u, rid)).value].status == SyncTarget(v).value
  {
    var ns := SyncTarget(v).value;
    var t1 := SyncPayment(t, rid, res.totalAmount, ns, v.resp.value.paymentType, payId).value;
    SyncPaymentRecords(t, rid, res.totalAmount, ns, v.resp.value.paymentType, payId);
    var u := Settle(t1, rid, ns, res.scheduleId);
    assert PaymentsOf(u, rid) == PaymentsOf(t1, rid);
  }

  /**
   * The payment half in full: an existing payment takes the new status, and the
   * payment type when one came back; otherwise a payment for the reservation's
   * amount is inserted with the reservation's id as order id, which fails when
   * its id is taken, the reservation is gone, the amount overflows its column
   * or the order id is in use.
   */
  lemma SyncPaymentEffect(t: Tables, rid: Id, amount: int, ns: P.Status, pt: string, payId: Id)
    ensures var u := SyncPayment(t, rid, amount, ns, pt, payId);
      u.Some? ==> u.value.users == t.users && u.value.courts == t.courts
    ensures var u := SyncPayment(t, rid, amount, ns, pt, payId);
      PaymentsOf(t, rid) != {} ==>
        var pid := First(PaymentsOf(t, rid)).value;
        u == Some(t.(payments := t.payments[pid := t.payments[pid].(
          status := ns, paymentMethod := if pt != "" then pt else t.payments[pid].paymentMethod)]))
    ensures var u := SyncPayment(t, rid, amount, ns, pt, payId);
      PaymentsOf(t, rid) == {} ==>
        (u.Some? <==> payId !in t.payments && rid in t.reservations && FitsDecimal(amount) && PaymentsWithOrder(t, rid) == {})
        && (u.Some? ==> u.value.payments == t.payments[payId := P.Payment(rid, rid, amount, ns, pt)])
  {
  }

  /** A sync changes no user or court, and at most releases the reservation's own schedule. */
  lemma SyncOneReleasesOnlyItsSchedule(t: Tables, rid: Id, res: R.Reservation, v: Verification, payId: Id)
    ensures var u := SyncOne(t, rid, res, v, payId);
      u.users == t.users && u.courts == t.courts
      && (u.schedules == t.schedules || u.schedules == SetAvailability(t, res.scheduleId, true).schedules)
    ensures var u := SyncOne(t, rid, res, v, payId);
      SyncTarget(v) != Some(P.Failed) ==> u.schedules == t.schedules
  {
  }

  lemma SyncPaymentKeepsValid(t: Tables, rid: Id, amount: int, ns: P.Status, pt: string, payId: Id)
    requires Valid(t) && SyncPayment(t, rid, amount, ns, pt, payId).Some?
    ensures Valid(SyncPayment(t, rid, amount, ns, pt, payId).value)
  {
    if PaymentsOf(t, rid) != {} {
      var pid := First(PaymentsOf(t, rid)).value;
      UpdatePaymentKeepsValid(t, pid, ns, if pt != "" then pt else t.payments[pid].paymentMethod);
    } else {
      InsertPaymentKeepsValid(t, payId, P.Payment(rid, rid, amount, ns, pt));
    }
  }

  lemma SyncOneKeepsValid(t: Tables, rid: Id, res: R.Reservation, v: Verification, payId: Id)
    requires Valid(t)
    ensures Valid(SyncOne(t, rid, res, v, payId))
  {
    var u := SyncOne(t, rid, res, v, payId);
    if u != t {
      var ns := SyncTarget(v).value;
      var pt := v.resp.value.paymentType;
      var synced := SyncPayment(t, rid, res.totalAmount, ns, pt, payId);
      SyncPaymentKeepsValid(t, rid, res.totalAmount, ns, pt, payId);
      SettleKeepsValid(synced.value, rid, ns, res.scheduleId);
    }
  }


  /**
   * The loop of `GET /reservations/my` over the listed ids in order, each
   * iteration acting on the row the list query returned for it.
   * Only pending reservations among `ids` change, and each only to paid or cancelled.
   */
  function SyncAll(t: Tables, ids: seq<Id>, rows: map<Id, R.Reservation>, verify: Id -> Verification, payId: Id -> Id): (u: Tables)
    requires forall i :: 0 <= i < |ids| ==> ids[i] in rows
    ensures u.reservations.Keys == t.reservations.Keys
    ensures forall id :: id in t.reservations && (id !in ids || rows[id].status != R.Pending) ==>
      u.reservations[id] == t.reservations[id]
    ensures forall id :: id in t.reservations ==>
      u.reservations[id] == t.reservations[id].(status := u.reservations[id].status)
      && u.reservations[id].status in {t.reservations[id].status, R.Paid, R.Cancelled}
    decreases |ids|
  {
    if ids == [] then t
    else
      var last := ids[|ids| - 1];
      var before := SyncAll(t, ids[..|ids| - 1], rows, verify, payId);
      assert forall id :: id in ids ==> id in ids[..|ids| - 1] || id == last;
      SyncOne(before, last, rows[last], verify(last), payId(last))
  }

  lemma {:induction false} SyncAllKeepsValid(t: Tables, ids: seq<Id>, rows: map<Id, R.Reservation>, verify: Id -> Verification, payId: Id -> Id)
    requires Valid(t)
    requires forall i :: 0 <= i < |ids| ==> ids[i] in rows
    ensures Valid(SyncAll(t, ids, rows, verify, payId))
    decreases |ids|
  {
    if ids != [] {
      var last := ids[|ids| - 1];
      SyncAllKeepsValid(t, ids[..|ids| - 1], rows, verify, payId);
      SyncOneKeepsValid(SyncAll(t, ids[..|ids| - 1], rows, verify, payId), last, rows[last], verify(last), payId(last));
    }
  }

  /**
   * A sync never takes anything away that a later sync relies on: a
   * reservation that had a payment still has one, no schedule disappears and
   * an available schedule stays available.
   */
  lemma SyncOneMonotone(t: Tables, rid: Id, res: R.Reservation, v: Verification, payId: Id, id: Id)
    ensures var u := SyncOne(t, rid, res, v, payId);
      (PaymentsOf(t, id) != {} ==> PaymentsOf(u, id) != {})
      && u.schedules.Keys == t.schedules.Keys
      && (id in t.schedules && t.schedules[id].isAvailable ==> u.schedules[id].isAvailable)
  {
    var u := SyncOne(t, rid, res, v, payId);
    if u != t {
      var ns := SyncTarget(v).value;
      var t1 := SyncPayment(t, rid, res.totalAmount, ns, v.resp.value.paymentType, payId).value;
      if PaymentsOf(t, id) != {} {
        var pid := First(PaymentsOf(t, id)).value;
        assert pid in PaymentsOf(t1, id);
        assert PaymentsOf(u, id) == PaymentsOf(t1, id);
      }
    }
  }

  lemma {:induction false} SyncAllMonotone(t: Tables, ids: seq<Id>, rows: map<Id, R.Reservation>, verify: Id -> Verification, payId: Id -> Id, id: Id)
    requires forall i :: 0 <= i < |ids| ==> ids[i] in rows
    ensures var u := SyncAll(t, ids, rows, verify, payId);
      (PaymentsOf(t, id) != {} ==> PaymentsOf(u, id) != {})
      && u.schedules.Keys == t.schedules.Keys
      && (id in t.schedules && t.schedules[id].isAvailable ==> u.schedules[id].isAvailable)
    decreases |ids|
  {
    if ids != [] {
      var last := ids[|ids| - 1];
      SyncAllMonotone(t, ids[..|ids| - 1], rows, verify, payId, id);
      SyncOneMonotone(SyncAll(t, ids[..|ids| - 1], rows, verify, payId), last, rows[last], verify(last), payId(last), id);
    }
  }

  /**
   * Reservation `id`, pending in `t0` with its schedule `sid`, is settled in
   * `u` as the provider status `ns` says: paid on success, cancelled with the
   * schedule available on failure, as it was otherwise.
   */
  predicate SettledAs(t0: Tables, u: Tables, id: Id, sid: Id, ns: Option<P.Status>)
    requires id in t0.reservations
  {
    id in u.reservations
    && (ns == Some(P.Success) ==> u.reservations[id].status == R.Paid)
    && (ns == Some(P.Failed) ==>
          u.reservations[id].status == R.Cancelled
          && (sid in t0.schedules ==> sid in u.schedules && u.schedules[sid].isAvailable))
    && (ns != Some(P.Success) && ns != Some(P.Failed) ==> u.reservations[id] == t0.reservations[id])
  }

  /** Syncing another reservation leaves a settled one settled. */
  lemma SettledKept(t0: Tables, u: Tables, rid: Id, res: R.Reservation, v: Verification, payId: Id, id: Id, sid: Id, ns: Option<P.Status>)
    requires id in t0.reservations && SettledAs(t0, u, id, sid, ns) && rid != id
    ensures SettledAs(t0, SyncOne(u, rid, res, v, payId), id, sid, ns)
  {
    SyncOneMonotone(u, rid, res, v, payId, sid);
  }

  /** The last listed reservation, untouched by the syncs before it, is settled by its own. */
  lemma SettledByOwnSync(t0: Tables, before: Tables, res: R.Reservation, v: Verification, payId: Id, id: Id)
    requires id in t0.reservations && id in before.reservations && before.reservations[id] == t0.reservations[id]
    requires res.status == R.Pending && PaymentsOf(before, id) != {}
    requires before.schedules.Keys == t0.schedules.Keys
    ensures SettledAs(t0, SyncOne(before, id, res, v, payId), id, res.scheduleId, SyncTarget(v))
  {
  }

  /**
   * What the loop of `GET /reservations/my` does to each listed reservation
   * that was pending and already had its payment: it ends paid when the
   * provider reports success, cancelled with its schedule available when the
   * provider reports failure, and untouched otherwise.
   */
  lemma {:induction false} SyncAllSettles(t: Tables, ids: seq<Id>, rows: map<Id, R.Reservation>, verify: Id -> Verification, payId: Id -> Id, i: nat)
    requires Distinct(ids) && i < |ids|
    requires forall k :: 0 <= k < |ids| ==> ids[k] in rows
    requires ids[i] in t.reservations && rows[ids[i]].status == R.Pending && PaymentsOf(t, ids[i]) != {}
    ensures SettledAs(t, SyncAll(t, ids, rows, verify, payId), ids[i], rows[ids[i]].scheduleId, SyncTarget(verify(ids[i])))
    decreases |ids|
  {
    var id := ids[i];
    var n := |ids| - 1;
    var last := ids[n];
    var init := ids[..n];
    var before := SyncAll(t, init, rows, verify, payId);
    SyncAllStep(t, ids, n, rows, verify, payId);
    assert ids[..n + 1] == ids;
    assert forall k :: 0 <= k < |init| ==> init[k] in rows;
    if i == n {
      assert id !in init by {
        forall k | 0 <= k < n ensures init[k] != id {
          assert ids[k] != ids[n];
        }
      }
      SyncAllMonotone(t, init, rows, verify, payId, id);
      SettledByOwnSync(t, before, rows[id], verify(id), payId(id), id);
    } else {
      assert Distinct(init) by {
        forall a, b | 0 <= a < b < |init| ensures init[a] != init[b] {
          assert ids[a] != ids[b];
        }
      }
      assert init[i] == id;
      SyncAllSettles(t, init, rows, verify, payId, i);
      SettledKept(t, before, last, rows[last], verify(last), payId(last), id, rows[id].scheduleId, SyncTarget(verify(id)));
    }
  }

  /**
   * One pass of the loop body: returns the status the response lists for the
   * reservation whose current row is `res`.
   */
  method SyncReservation(db: Database, id: Id, res: R.Reservation, v: Verification, payId: Id) returns (status: R.Status)
    requires id in db.tables.reservations && db.tables.reservations[id] == res
    modifies db
    ensures db.tables == SyncOne(old(db.tables), id, res, v, payId)
    ensures status == db.tables.reservations[id].status
  {
    status := res.status;
    var newStatus := SyncTarget(v);
    if res.status != R.Pending || newStatus.None? {
      return;
    }
    var tx := db.tables;
    var ns := newStatus.value;
    var paymentType := v.resp.value.paymentType;
    var found := First(PaymentsOf(tx, id));
    if found.Some? {
      var payment := tx.payments[found.value];
      payment := payment.(status := ns);
      if paymentType != "" {
        payment := payment.(paymentMethod := paymentType);
      }
      tx := tx.(payments := tx.payments[found.value := payment]);
    } else {
      var inserted := InsertPayment(tx, payId, P.Payment(id, id, res.totalAmount, ns, paymentType));
      if inserted.None? {
        return;
      }
      tx := inserted.value;
    }
    if ns == P.Success {
      status := R.Paid;
      tx := SetStatus(tx, id, R.Paid);
    } else if ns == P.Failed {
      status := R.Cancelled;
      tx := SetStatus(tx, id, R.Cancelled);
      tx := SetAvailability(tx, res.scheduleId, true);
    }
    db.tables := tx;
  }

  /** One turn of the loop extends the sync of the first i listed ids to the first i + 1. */
  lemma SyncAllStep(t: Tables, ids: seq<Id>, i: nat, rows: map<Id, R.Reservation>, verify: Id -> Verification, payId: Id -> Id)
    requires i < |ids| && forall k :: 0 <= k < |ids| ==> ids[k] in rows
    ensures SyncAll(t, ids[..i + 1], rows, verify, payId)
      == SyncOne(SyncAll(t, ids[..i], rows, verify, payId), ids[i], rows[ids[i]], verify(ids[i]), payId(ids[i]))
  {
    assert ids[..i + 1][..i] == ids[..i];
    assert ids[..i + 1][i] == ids[i];
  }

  /**
   * Syncing `ids[i]` leaves the rows of the other listed ids alone, so the
   * statuses collected for the earlier ones stay those of the current rows.
   */
  lemma SyncKeepsCollected(
    before: Tables, after: Tables, ids: seq<Id>, i: nat, rows: map<Id, R.Reservation>,
    verify: Id -> Verification, payId: Id -> Id, statuses: seq<R.Status>)
    requires Distinct(ids) && i < |ids| && ids[i] in rows
    requires forall k :: 0 <= k <= i ==> ids[k] in before.reservations
    requires after == SyncOne(before, ids[i], rows[ids[i]], verify(ids[i]), payId(ids[i]))
    requires |statuses| == i && forall k :: 0 <= k < i ==> statuses[k] == before.reservations[ids[k]].status
    ensures forall k :: 0 <= k < i + 1 ==>
      (statuses + [after.reservations[ids[i]].status])[k] == after.reservations[ids[k]].status
  {
    forall k | 0 <= k < i ensures after.reservations[ids[k]] == before.reservations[ids[k]] {
      assert ids[k] != ids[i];
    }
  }

  /** The loop itself: syncs the listed reservations in order and collects their statuses. */
  method SyncListed(db: Database, ids: seq<Id>, verify: Id -> Verification, payId: Id -> Id) returns (statuses: seq<R.Status>)
    requires Distinct(ids) && forall k :: 0 <= k < |ids| ==> ids[k] in db.tables.reservations
    modifies db
    ensures db.tables == SyncAll(old(db.tables), ids, old(db.tables).reservations, verify, payId)
    ensures |statuses| == |ids| && forall i :: 0 <= i < |ids| ==> statuses[i] == db.tables.reservations[ids[i]].status
  {
    var t0 := db.tables;
    var rows := t0.reservations;
    statuses := [];
    var i := 0;
    while i < |ids|
      invariant 0 <= i <= |ids| && |statuses| == i
      invariant db.tables == SyncAll(t0, ids[..i], rows, verify, payId)
      invariant forall k :: 0 <= k < i ==> statuses[k] == db.tables.reservations[ids[k]].status
    {
      var id := ids[i];
      ghost var before := db.tables;
      var status := SyncReservation(db, id, rows[id], verify(id), payId(id));
      SyncAllStep(t0, ids, i, rows, verify, payId);
      SyncKeepsCollected(before, db.tables, ids, i, rows, verify, payId, statuses);
      statuses := statuses + [status];
      i := i + 1;
    }
    assert ids[..i] == ids;
  }

  /**
   * `GET /reservations/my`: the user's reservations, newest first, each
   * pending one synced with the provider; the statuses listed are those after the sync.
   */
  method GetMyReservations(db: Database, userId: Id, verify: Id -> Verification, payId: Id -> Id)
    returns (ids: seq<Id>, statuses: seq<R.Status>)
    modifies db
    ensures forall id :: id in ids <==> id in old(db.tables).reservations && old(db.tables).reservations[id].userId == userId
    ensures Distinct(ids) && SortedBy(ids, DescendingBy(CreatedAt(old(db.tables))))
    ensures forall i :: 0 <= i < |ids| ==> ids[i] in old(db.tables).reservations
    ensures db.tables == SyncAll(old(db.tables), ids, old(db.tables).reservations, verify, payId)
    ensures forall i ::
      0 <= i < |ids| && old(db.tables).reservations[ids[i]].status == R.Pending && PaymentsOf(old(db.tables), ids[i]) != {}
      ==> SettledAs(old(db.tables), db.tables, ids[i], old(db.tables).reservations[ids[i]].scheduleId, SyncTarget(verify(ids[i])))
    ensures |statuses| == |ids| && forall i :: 0 <= i < |ids| ==> statuses[i] == db.tables.reservations[ids[i]].status
  {
    var t0 := db.tables;
    var mine := set id | id in t0.reservations && t0.reservations[id].userId == userId;
    DescendingByIsTotalPreorder(CreatedAt(t0));
    ids := Enumerate(mine, DescendingBy(CreatedAt(t0)));
    forall k | 0 <= k < |ids| ensures ids[k] in t0.reservations {
      assert ids[k] in ids;
    }
    statuses := SyncListed(db, ids, verify, payId);
    forall i | 0 <= i < |ids| && t0.reservations[ids[i]].status == R.Pending && PaymentsOf(t0, ids[i]) != {}
      ensures SettledAs(t0, db.tables, ids[i], t0.reservations[ids[i]].scheduleId, SyncTarget(verify(ids[i])))
    {
      SyncAllSettles(t0, ids, t0.reservations, verify, payId, i);
    }
  }
}
