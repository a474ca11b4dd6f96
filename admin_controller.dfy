/**
 * The admin handlers of backend/controllers/admin_controller.go: the
 * dashboard's counts and today's agenda, and the manual booking an admin
 * makes for a customer identified by email.
 */
module AdminController {
  import opened Wrappers
  import opened Columns
  import opened Strings
  import opened Calendar
  import opened Ordering
  import opened Http
  import opened CourtModel
  import opened ScheduleModel
  import R = ReservationModel
  import P = PaymentModel
  import opened Store

  // ---------------------------------------------------------------- dashboard counts

  /**
   * The reservations waiting for payment, whatever their date: the count
   * query's WHERE clause written as a set, which GetDashboardStats is proved against.
   */
  function PendingActions(t: Tables): (s: set<Id>)
    ensures forall id :: id in s <==> id in t.reservations && t.reservations[id].status == R.Pending
  {
    set id | id in t.reservations && t.reservations[id].status == R.Pending
  }

  /**
   * Paid or confirmed reservations joined with a schedule dated `today`: the
   * count query's join and WHERE clause written as a set, which GetDashboardStats
   * and ActiveSessionsBounded are stated against.
   */
  function ActiveSessions(t: Tables, today: Date): (s: set<Id>)
    ensures forall id :: id in s <==>
      id in t.reservations && t.reservations[id].status in {R.Paid, R.Confirmed}
      && t.reservations[id].scheduleId in t.schedules && t.schedules[t.reservations[id].scheduleId].date == today
  {
    set id | id in t.reservations && t.reservations[id].status in {R.Paid, R.Confirmed}
      && t.reservations[id].scheduleId in t.schedules && t.schedules[t.reservations[id].scheduleId].date == today
  }

  /** Today's schedules. */
  function SchedulesToday(t: Tables, today: Date): set<Id> {
    set id | id in t.schedules && t.schedules[id].date == today
  }

  /**
   * With one reservation row per schedule, no more sessions are active today
   * than there are schedules today.
   */
  lemma {:induction false} ActiveSessionsBounded(t: Tables, today: Date)
    requires ScheduleIdUnique(t.reservations)
    ensures |ActiveSessions(t, today)| <= |SchedulesToday(t, today)|
  {
    var active := ActiveSessions(t, today);
    var slots := SchedulesToday(t, today);
    var used := set id | id in active :: t.reservations[id].scheduleId;
    assert used <= slots;
    SubsetCardinality(used, slots);
    InjectiveImage(active, used, t);
  }

  /** Reservation ids map one-to-one onto their schedule ids. */
  lemma {:induction false} InjectiveImage(a: set<Id>, img: set<Id>, t: Tables)
    requires ScheduleIdUnique(t.reservations)
    requires forall id :: id in a ==> id in t.reservations
    requires img == set id | id in a :: t.reservations[id].scheduleId
    ensures |a| <= |img|
    decreases |a|
  {
    if a != {} {
      var x :| x in a;
      var rest := a - {x};
      var restImg := set id | id in rest :: t.reservations[id].scheduleId;
      InjectiveImage(rest, restImg, t);
      assert t.reservations[x].scheduleId !in restImg;
      assert img == restImg + {t.reservations[x].scheduleId};
    }
  }

  // ---------------------------------------------------------------- agenda labels

  /** The status text, colour and customer an agenda row shows. */
  datatype Label = Label(status: string, color: string, customer: string)

  /** One active booking as the agenda sees it: its status and its customer's name. */
  datatype Booking = Booking(status: R.Status, customerName: string)

  /**
   * The label of a schedule with n active bookings: "Available" in green or
   * "Full / Closed" in grey without bookings; the customer's name with
   * "Pending" in yellow or "Booked" in blue for a single booking (`pending`
   * and `name` describe it); "n Bookings" in blue otherwise.
   */
  function AgendaLabel(isAvailable: bool, n: nat, pending: bool, name: string): (l: Label)
    ensures l.color in {"green", "grey", "yellow", "blue"}
    ensures l.color == "green" <==> n == 0 && isAvailable
    ensures l.color == "grey" <==> n == 0 && !isAvailable
    ensures l.color == "yellow" <==> n == 1 && pending
    ensures l.customer != "" ==> n == 1 && l.customer == name
    ensures n > 1 ==> l.status == NatToString(n) + " Bookings"
  {
    match n
    case 0 => if isAvailable then Label("Available", "green", "") else Label("Full / Closed", "grey", "")
    case 1 => if pending then Label("Pending", "yellow", name) else Label("Booked", "blue", name)
    case _ => Label(NatToString(n) + " Bookings", "blue", "")
  }

  /**
   * The label as the agenda loop computes it: defaults, then an override for
   * a closed schedule, then overrides by the number of bookings.
   */
  method LabelOf(isAvailable: bool, bookings: seq<Booking>) returns (status: string, color: string, customer: string)
    ensures Label(status, color, customer) == AgendaLabel(
      isAvailable, |bookings|,
      |bookings| == 1 && bookings[0].status == R.Pending,
      if |bookings| == 1 then bookings[0].customerName else "")
  {
    status := "Available";
    customer := "";
    color := "green";
    if !isAvailable {
      status := "Full / Closed";
      color := "red";
    }
    if |bookings| > 0 {
      if |bookings| == 1 {
        customer := bookings[0].customerName;
        if bookings[0].status == R.Pending {
          status := "Pending";
          color := "yellow";
        } else {
          status := "Booked";
          color := "blue";
        }
      } else {
        status := NatToString(|bookings|) + " Bookings";
        color := "blue";
      }
    } else if !isAvailable {
      color := "grey";
    }
  }

  /** The "red" a closed schedule is first given never reaches the agenda: every path overwrites it. */
  lemma ClosedNeverRed(isAvailable: bool, n: nat, pending: bool, name: string)
    ensures AgendaLabel(isAvailable, n, pending, name).color != "red"
  {
  }

  /** With one reservation row per schedule the "n Bookings" label is never shown. */
  lemma NoMultiBookingLabel(t: Tables, sid: Id, pending: bool, name: string)
    requires ScheduleIdUnique(t.reservations)
    ensures var n := |ActiveBookings(t, sid)|;
      AgendaLabel(true, n, pending, name).status != NatToString(n) + " Bookings"
      && AgendaLabel(false, n, pending, name).status != NatToString(n) + " Bookings"
  {
    var n := |ActiveBookings(t, sid)|;
    AtMostOneReservationPerSchedule(t, sid);
    assert n <= 1;
    if n == 0 {
      assert NatToString(0) == "0";
    } else {
      assert NatToString(1) == "1";
    }
  }

  // ---------------------------------------------------------------- agenda

  /** One agenda row. */
  datatype AgendaItem = AgendaItem(
    scheduleId: Id, courtName: string, time: string, display: Label, bookings: seq<Id>, isAvailable: bool)

  /** The single active booking of a schedule that has exactly one. */
  function OnlyBooking(t: Tables, sid: Id): (r: Option<R.Reservation>)
    ensures r.Some? <==> |ActiveBookings(t, sid)| == 1
    ensures r.Some? ==> exists id :: id in ActiveBookings(t, sid) && r.value == t.reservations[id]
  {
    if |ActiveBookings(t, sid)| == 1 then Some(t.reservations[First(ActiveBookings(t, sid)).value]) else None
  }

  /** `item` is the agenda row of schedule `sid`. */
  ghost predicate ItemFor(t: Tables, sid: Id, item: AgendaItem)
    requires sid in t.schedules
  {
    var s := t.schedules[sid];
    var active := ActiveBookings(t, sid);
    var only := OnlyBooking(t, sid);
    && item.scheduleId == sid
    && item.courtName == CourtOf(t, s.courtId).name
    && item.time == s.startTime + " - " + s.endTime
    && item.isAvailable == s.isAvailable
    && (forall x :: x in item.bookings <==> x in active) && Distinct(item.bookings)
    && item.display == AgendaLabel(
         s.isAvailable, |active|,
         only.Some? && only.value.status == R.Pending,
         if only.Some? then UserName(t, only.value.userId) else "")
  }

  lemma SingletonMembers<T>(s: set<T>, a: T, b: T)
    requires |s| == 1 && a in s && b in s
    ensures a == b
  {
    if a != b {
      assert {a, b} <= s;
      SubsetCardinality({a, b}, s);
    }
  }

  /** The start-time key of `ORDER BY start_time` over schedule ids. */
  function StartTimeOf(t: Tables): Id -> string {
    (id: Id) => if id in t.schedules then t.schedules[id].startTime else ""
  }

  /** The row of one schedule, computed as the agenda loop does. */
  method AgendaRow(t: Tables, sid: Id) returns (item: AgendaItem)
    requires sid in t.schedules
    ensures ItemFor(t, sid, item)
  {
    var s := t.schedules[sid];
    var active := ActiveBookings(t, sid);
    StrLeIsTotalPreorder();
    var ids := Enumerate(active, (a: string, b: string) => StrLe(a, b));
    var bookings: seq<Booking> := [];
    var i := 0;
    while i < |ids|
      invariant 0 <= i <= |ids| && |bookings| == i
      invariant forall k :: 0 <= k < i ==>
        ids[k] in t.reservations
        && bookings[k] == Booking(t.reservations[ids[k]].status, UserName(t, t.reservations[ids[k]].userId))
    {
      assert ids[i] in active;
      var r := t.reservations[ids[i]];
      bookings := bookings + [Booking(r.status, UserName(t, r.userId))];
      i := i + 1;
    }
    var status, color, customer := LabelOf(s.isAvailable, bookings);
    if |ids| == 1 {
      var only := First(active).value;
      SingletonMembers(active, ids[0], only);
    }
    item := AgendaItem(sid, CourtOf(t, s.courtId).name, s.startTime + " - " + s.endTime,
      Label(status, color, customer), ids, s.isAvailable);
  }

  /** The agenda loop: one row per listed schedule, in the listed order. */
  method AgendaRows(t: Tables, ids: seq<Id>) returns (agenda: seq<AgendaItem>)
    requires forall k :: 0 <= k < |ids| ==> ids[k] in t.schedules
    ensures |agenda| == |ids|
    ensures forall k :: 0 <= k < |ids| ==> agenda[k].scheduleId == ids[k] && ItemFor(t, ids[k], agenda[k])
  {
    agenda := [];
    var i := 0;
    while i < |ids|
      invariant 0 <= i <= |ids| && |agenda| == i
      invariant forall k :: 0 <= k < i ==> agenda[k].scheduleId == ids[k] && ItemFor(t, ids[k], agenda[k])
    {
      var item := AgendaRow(t, ids[i]);
      agenda := agenda + [item];
      i := i + 1;
    }
  }

  /**
   * `GET /admin/stats`: the number of active sessions today, the number
   * of pending reservations, and one agenda row per schedule of today in
   * ascending start time (`order` lists the schedules of the rows). Revenue is
   * not part of this model.
   */
  method GetDashboardStats(db: Database, today: Date)
    returns (activeSessions: nat, pendingActions: nat, order: seq<Id>, agenda: seq<AgendaItem>)
    ensures activeSessions == |ActiveSessions(db.tables, today)|
    ensures pendingActions == |PendingActions(db.tables)|
    ensures forall id :: id in order <==> id in SchedulesToday(db.tables, today)
    ensures Distinct(order) && SortedBy(order, TextAscendingBy(StartTimeOf(db.tables)))
    ensures forall k :: 0 <= k < |order| ==> order[k] in db.tables.schedules
    ensures |agenda| == |order|
    ensures forall k :: 0 <= k < |order| ==> agenda[k].scheduleId == order[k] && ItemFor(db.tables, order[k], agenda[k])
  {
    var t := db.tables;
    activeSessions := |ActiveSessions(t, today)|;
    pendingActions := |PendingActions(t)|;
    TextAscendingByIsTotalPreorder(StartTimeOf(t));
    order := Enumerate(SchedulesToday(t, today), TextAscendingBy(StartTimeOf(t)));
    forall k | 0 <= k < |order| ensures order[k] in t.schedules {
      assert order[k] in SchedulesToday(t, today);
    }
    agenda := AgendaRows(t, order);
  }

  // ---------------------------------------------------------------- manual booking

  /** The body of `POST /admin/manual-booking`; the customer name is read but unused. */
  datatype ManualInput = ManualInput(scheduleId: Id, customerName: string, userEmail: string, notes: string)

  const ManualNotePrefix := "Manual Booking: "
  const ManualOrderPrefix := "MANUAL-"
  const ManualMethod := "manual_cash"

  /**
   * `u` is `t` after a manual booking of `input.scheduleId` for user
   * `userId`: the active bookings were below the court's capacity (a missing
   * court counting as capacity 0), a paid reservation at the court's price
   * noted "Manual Booking: " plus the notes, a successful cash payment whose
   * order id is "MANUAL-" plus the reservation id, and the schedule closed
   * exactly when this booking fills it.
   */
  predicate ManualBooked(t: Tables, u: Tables, input: ManualInput, userId: Id, resId: Id, payId: Id, now: int) {
    var sid := input.scheduleId;
    && sid in t.schedules
    && var s := t.schedules[sid];
    && var court := CourtOf(t, s.courtId);
    && var count := ActiveCount(t, sid);
    && count < court.capacity
    && resId !in t.reservations && payId !in t.payments
    && u.reservations == t.reservations[resId :=
         R.Reservation(userId, s.courtId, sid, R.Paid, court.pricePerSlot, ManualNotePrefix + input.notes, now)]
    && u.payments == t.payments[payId :=
         P.Payment(resId, ManualOrderPrefix + resId, court.pricePerSlot, P.Success, ManualMethod)]
    && u.schedules == (if count + 1 >= court.capacity then t.schedules[sid := s.(isAvailable := false)] else t.schedules)
    && u.users == t.users && u.courts == t.courts
  }

  /** The user a lookup by email finds. */
  function UserByEmail(t: Tables, email: string): Option<Id> {
    First(UsersWithEmail(t, email))
  }

  /**
   * `POST /admin/manual-booking`: 400 for a body that does not parse,
   * 404 for an unknown email (before the schedule is looked at) or an unknown
   * schedule, 409 when the active bookings reach the court's capacity
   * (whether or not the schedule is available), 500 when the reservation
   * cannot be inserted. Otherwise 200: the booking is committed, unless the
   * payment insert failed, which aborts the transaction and commits nothing.
   */
  function ManualOutcome(t: Tables, body: Option<ManualInput>, resId: Id, payId: Id, now: int): (o: Outcome)
    ensures o.status in {OK, BadRequest, NotFound, Conflict, InternalError}
    ensures o.status != OK ==> o.tables == t
    ensures o.status == BadRequest <==> body.None?
    ensures body.Some? && UserByEmail(t, body.value.userEmail).None? ==> o.status == NotFound
    ensures o.status == NotFound <==>
      body.Some? && (UserByEmail(t, body.value.userEmail).None? || body.value.scheduleId !in t.schedules)
    ensures o.status == Conflict <==>
      body.Some? && UserByEmail(t, body.value.userEmail).Some? && body.value.scheduleId in t.schedules
      && ActiveCount(t, body.value.scheduleId) >= CourtOf(t, t.schedules[body.value.scheduleId].courtId).capacity
    ensures o.status == OK ==>
      o.tables == t
      || ManualBooked(t, o.tables, body.value, UserByEmail(t, body.value.userEmail).value, resId, payId, now)
  {
    if body.None? then Outcome(t, BadRequest)
    else
      var input := body.value;
      match UserByEmail(t, input.userEmail)
      case None => Outcome(t, NotFound)
      case Some(uid) =>
        var sid := input.scheduleId;
        if sid !in t.schedules then Outcome(t, NotFound)
        else
          var s := t.schedules[sid];
          var court := CourtOf(t, s.courtId);
          var count := ActiveCount(t, sid);
          if count >= court.capacity then Outcome(t, Conflict)
          else
            var r := R.Reservation(uid, s.courtId, sid, R.Paid, court.pricePerSlot, ManualNotePrefix + input.notes, now);
            ManualWrites(t, r, resId, payId, count + 1 >= court.capacity)
  }

  /**
   * The writes of a manual booking once the seat check has passed: the
   * reservation row, its cash payment, and the schedule closed when `fills`.
   */
  function ManualWrites(t: Tables, r: R.Reservation, resId: Id, payId: Id, fills: bool): Outcome {
    match InsertReservation(t, resId, r)
    case None => Outcome(t, InternalError)
    case Some(t1) =>
      match InsertPayment(t1, payId, P.Payment(resId, ManualOrderPrefix + resId, r.totalAmount, P.Success, ManualMethod))
      case None => Outcome(t, OK)
      case Some(t2) => Outcome(if fills then SetAvailability(t2, r.scheduleId, false) else t2, OK)
  }

  /**
   * The body's schedule id is bound to the `uuid` key: a text the database
   * cannot read finds no schedule (404); any other is looked up as the key
   * it reads, which is the id the booking then carries.
   */
  method CreateManualReservation(
    db: Database, body: Option<ManualInput>, resId: Id, payId: Id, now: int, dbUuid: string -> Option<Id>)
    returns (status: int)
    modifies db
    ensures body.None? ==> status == BadRequest && db.tables == old(db.tables)
    ensures body.Some? && dbUuid(body.value.scheduleId).None? ==> status == NotFound && db.tables == old(db.tables)
    ensures body.Some? && dbUuid(body.value.scheduleId).Some? ==>
      Outcome(db.tables, status)
      == ManualOutcome(old(db.tables), Some(body.value.(scheduleId := dbUuid(body.value.scheduleId).value)), resId, payId, now)
  {
    if body.None? {
      return BadRequest;
    }
    var input := body.value;
    var user := UserByEmail(db.tables, input.userEmail);
    if user.None? {
      return NotFound;
    }
    var tx := db.tables;
    var sid := dbUuid(input.scheduleId);
    if sid.None? {
      return NotFound;
    }
    input := input.(scheduleId := sid.value);
    if input.scheduleId !in tx.schedules {
      return NotFound;
    }
    var schedule := tx.schedules[input.scheduleId];
    var court := CourtOf(tx, schedule.courtId);
    var currentBookings := ActiveCount(tx, input.scheduleId);
    if currentBookings >= court.capacity {
      return Conflict;
    }
    var reservation := R.Reservation(
      user.value, schedule.courtId, input.scheduleId, R.Paid, court.pricePerSlot, ManualNotePrefix + input.notes, now);
    var created := InsertReservation(tx, resId, reservation);
    if created.None? {
      return InternalError;
    }
    tx := created.value;
    var payment := P.Payment(resId, ManualOrderPrefix + resId, reservation.totalAmount, P.Success, ManualMethod);
    var inserted := InsertPayment(tx, payId, payment);
    if inserted.None? {
      // The failed insert aborts the transaction: the commit writes nothing.
      return OK;
    }
    tx := inserted.value;
    if currentBookings + 1 >= court.capacity {
      tx := SetAvailability(tx, input.scheduleId, false);
    }
    db.tables := tx;
    return OK;
  }

  /**
   * The manual booking never reads `is_available`: flipping the flag of any
   * schedule beforehand changes neither the status nor, apart from that flag,
   * what is written.
   */
  lemma ManualIgnoresAvailability(t: Tables, body: Option<ManualInput>, resId: Id, payId: Id, now: int, sid: Id, b: bool)
    ensures ManualOutcome(SetAvailability(t, sid, b), body, resId, payId, now).status
         == ManualOutcome(t, body, resId, payId, now).status
  {
    var t' := SetAvailability(t, sid, b);
    if body.Some? && UserByEmail(t, body.value.userEmail).Some? && body.value.scheduleId in t.schedules {
      var input := body.value;
      var s := t.schedules[input.scheduleId];
      assert t'.schedules[input.scheduleId].courtId == s.courtId;
      assert ActiveBookings(t', input.scheduleId) == ActiveBookings(t, input.scheduleId);
      assert ReservationsOf(t', input.scheduleId) == ReservationsOf(t, input.scheduleId);
      assert UsersWithEmail(t', input.userEmail) == UsersWithEmail(t, input.userEmail);
      var court := CourtOf(t, s.courtId);
      var r := R.Reservation(UserByEmail(t, input.userEmail).value, s.courtId, input.scheduleId, R.Paid,
        court.pricePerSlot, ManualNotePrefix + input.notes, now);
      var p := P.Payment(resId, ManualOrderPrefix + resId, r.totalAmount, P.Success, ManualMethod);
      if InsertReservation(t, resId, r).Some? {
        var t1 := InsertReservation(t, resId, r).value;
        var t1' := InsertReservation(t', resId, r).value;
        assert PaymentsWithOrder(t1', p.orderId) == PaymentsWithOrder(t1, p.orderId);
      }
    }
  }

  /**
   * When the order id "MANUAL-" plus the new reservation id is already taken,
   * the handler answers 200 although the aborted transaction committed nothing.
   */
  lemma ManualOkWithoutBooking(t: Tables, input: ManualInput, resId: Id, payId: Id, now: int)
    requires ManualOutcome(t, Some(input), resId, payId, now).status !in {NotFound, Conflict, InternalError}
    requires PaymentsWithOrder(t, ManualOrderPrefix + resId) != {}
    ensures ManualOutcome(t, Some(input), resId, payId, now) == Outcome(t, OK)
  {
    var uid := UserByEmail(t, input.userEmail).value;
    var s := t.schedules[input.scheduleId];
    var court := CourtOf(t, s.courtId);
    var r := R.Reservation(uid, s.courtId, input.scheduleId, R.Paid, court.pricePerSlot, ManualNotePrefix + input.notes, now);
    var t1 := InsertReservation(t, resId, r).value;
    assert PaymentsWithOrder(t1, ManualOrderPrefix + resId) == PaymentsWithOrder(t, ManualOrderPrefix + resId);
  }

  /**
   * A manual booking passes every check and its reservation row fits: the
   * email names a user, the schedule exists with a spare seat at an existing
   * court, the new key is free, the schedule holds no reservation row yet
   * and the price fits its column.
   */
  predicate ManualSucceeds(t: Tables, input: ManualInput, resId: Id) {
    var sid := input.scheduleId;
    && UserByEmail(t, input.userEmail).Some? && sid in t.schedules
    && var s := t.schedules[sid];
    && s.courtId in t.courts
    && ActiveCount(t, sid) < t.courts[s.courtId].capacity
    && resId !in t.reservations && ReservationsOf(t, sid) == {}
    && FitsDecimal(t.courts[s.courtId].pricePerSlot)
  }

  /**
   * 200 exactly when the checks pass and the reservation row fits (500 when
   * it does not); a 200 then commits the booking exactly when its payment
   * row fits too, and nothing otherwise.
   */
  lemma ManualSucceedsIff(t: Tables, input: ManualInput, resId: Id, payId: Id, now: int)
    ensures var o := ManualOutcome(t, Some(input), resId, payId, now);
      && (o.status == OK <==> ManualSucceeds(t, input, resId))
      && (o.status == OK ==>
            (o.tables != t <==> payId !in t.payments && PaymentsWithOrder(t, ManualOrderPrefix + resId) == {}))
  {
    var o := ManualOutcome(t, Some(input), resId, payId, now);
    var sid := input.scheduleId;
    if UserByEmail(t, input.userEmail).Some? && sid in t.schedules {
      var uid := UserByEmail(t, input.userEmail).value;
      assert uid in t.users;
      var s := t.schedules[sid];
      var court := CourtOf(t, s.courtId);
      if ActiveCount(t, sid) < court.capacity {
        assert s.courtId in t.courts;
        var r := R.Reservation(uid, s.courtId, sid, R.Paid, court.pricePerSlot, ManualNotePrefix + input.notes, now);
        if InsertReservation(t, resId, r).Some? {
          var t1 := InsertReservation(t, resId, r).value;
          assert PaymentsWithOrder(t1, ManualOrderPrefix + resId) == PaymentsWithOrder(t, ManualOrderPrefix + resId);
          if o.tables != t {
            assert resId in o.tables.reservations;
          }
        }
      }
    }
  }

  /** A committed manual booking takes the schedule's only reservation row: the count goes from 0 to 1. */
  lemma ManualFillsOneSeat(t: Tables, input: ManualInput, resId: Id, payId: Id, now: int)
    requires ScheduleIdUnique(t.reservations)
    requires ManualOutcome(t, Some(input), resId, payId, now).status == OK
    requires ManualOutcome(t, Some(input), resId, payId, now).tables != t
    ensures var u := ManualOutcome(t, Some(input), resId, payId, now).tables;
      ActiveCount(t, input.scheduleId) == 0 && ActiveCount(u, input.scheduleId) == 1
  {
    var sid := input.scheduleId;
    var u := ManualOutcome(t, Some(input), resId, payId, now).tables;
    assert ActiveBookings(t, sid) == {};
    assert ActiveBookings(u, sid) == {resId};
  }

  /** The writes of a manual booking keep every table constraint, whether they commit or roll back. */
  lemma ManualWritesKeepValid(t: Tables, r: R.Reservation, resId: Id, payId: Id, fills: bool)
    requires Valid(t)
    ensures Valid(ManualWrites(t, r, resId, payId, fills).tables)
  {
    var o := ManualWrites(t, r, resId, payId, fills);
    var p := P.Payment(resId, ManualOrderPrefix + resId, r.totalAmount, P.Success, ManualMethod);
    if InsertReservation(t, resId, r).Some? && InsertPayment(InsertReservation(t, resId, r).value, payId, p).Some? {
      InsertBookingKeepsValid(t, resId, r, payId, p);
      var t2 := InsertPayment(InsertReservation(t, resId, r).value, payId, p).value;
      SetAvailabilityKeepsValid(t2, r.scheduleId, false);
      assert o.tables == if fills then SetAvailability(t2, r.scheduleId, false) else t2;
    } else {
      assert o.tables == t;
    }
  }

  /** A manual booking preserves every table constraint. */
  lemma ManualPreservesValid(t: Tables, body: Option<ManualInput>, resId: Id, payId: Id, now: int)
    requires Valid(t)
    ensures Valid(ManualOutcome(t, body, resId, payId, now).tables)
  {
    var o := ManualOutcome(t, body, resId, payId, now);
    if o.status in {OK, InternalError} {
      var input := body.value;
      var sid := input.scheduleId;
      var s := t.schedules[sid];
      var court := CourtOf(t, s.courtId);
      var r := R.Reservation(UserByEmail(t, input.userEmail).value, s.courtId, sid, R.Paid, court.pricePerSlot,
        ManualNotePrefix + input.notes, now);
      var fills := ActiveCount(t, sid) + 1 >= court.capacity;
      ManualWritesKeepValid(t, r, resId, payId, fills);
      assert o == ManualWrites(t, r, resId, payId, fills);
    }
  }
}
