/**
 * The database the handlers share: five tables, each a map from primary key
 * to row, with the constraints the models declare (unique columns, foreign
 * keys, column widths) collected in `Valid`. A `Database` object holds the
 * committed tables; a handler works on a copy (its transaction) and either
 * assigns the copy back (commit) or drops it (rollback).
 */
module Store {
  import opened Wrappers
  import opened Columns
  import opened Calendar
  import opened Strings
  import opened Ordering
  import opened CourtModel
  import opened ScheduleModel
  import R = ReservationModel
  import P = PaymentModel

  /** The user row as the handlers read it (backend/models/user.go): email is unique. */
  datatype User = User(name: string, email: string, role: string)

  datatype Tables = Tables(
    users: map<Id, User>,
    courts: map<Id, Court>,
    schedules: map<Id, Schedule>,
    reservations: map<Id, R.Reservation>,
    payments: map<Id, P.Payment>)

  // ---------------------------------------------------------------- constraints

  predicate EmailUnique(users: map<Id, User>) {
    forall a, b :: a in users && b in users && users[a].email == users[b].email ==> a == b
  }

  /** Unique names, prices that fit their column. */
  predicate CourtsValid(courts: map<Id, Court>) {
    (forall a, b :: a in courts && b in courts && courts[a].name == courts[b].name ==> a == b)
    && (forall c :: c in courts ==> FitsDecimal(courts[c].pricePerSlot))
  }

  /** Every schedule names an existing court and fits its columns. */
  predicate SchedulesValid(schedules: map<Id, Schedule>, courtIds: set<Id>) {
    forall s :: s in schedules ==> schedules[s].courtId in courtIds && Fits(schedules[s])
  }

  /** The foreign keys and the amount column of one reservation row. */
  predicate ReservationFits(r: R.Reservation, userIds: set<Id>, courtIds: set<Id>, scheduleIds: set<Id>) {
    r.userId in userIds && r.courtId in courtIds && r.scheduleId in scheduleIds && FitsDecimal(r.totalAmount)
  }

  /** The unique index on `reservations.schedule_id`. */
  predicate ScheduleIdUnique(reservations: map<Id, R.Reservation>) {
    forall a, b ::
      a in reservations && b in reservations && reservations[a].scheduleId == reservations[b].scheduleId
      ==> a == b
  }

  predicate ReservationsValid(
    reservations: map<Id, R.Reservation>, userIds: set<Id>, courtIds: set<Id>, scheduleIds: set<Id>)
  {
    (forall id :: id in reservations ==> ReservationFits(reservations[id], userIds, courtIds, scheduleIds))
    && ScheduleIdUnique(reservations)
  }

  /** The foreign key and the amount column of one payment row. */
  predicate PaymentFits(p: P.Payment, reservationIds: set<Id>) {
    p.reservationId in reservationIds && FitsDecimal(p.amount)
  }

  /** The unique index on `payments.midtrans_order_id`. */
  predicate OrderIdUnique(payments: map<Id, P.Payment>) {
    forall a, b :: a in payments && b in payments && payments[a].orderId == payments[b].orderId ==> a == b
  }

  /**
   * Not a database constraint but an invariant of the handlers: a reservation
   * has at most one payment row, so "the payment of a reservation" is determinate.
   */
  predicate OnePaymentPerReservation(payments: map<Id, P.Payment>) {
    forall a, b ::
      a in payments && b in payments && payments[a].reservationId == payments[b].reservationId
      ==> a == b
  }

  predicate PaymentsValid(payments: map<Id, P.Payment>, reservationIds: set<Id>) {
    (forall id :: id in payments ==> PaymentFits(payments[id], reservationIds))
    && OrderIdUnique(payments) && OnePaymentPerReservation(payments)
  }

  /** The constraints of the schema, and the one-payment-per-reservation invariant. */
  predicate Valid(t: Tables) {
    && EmailUnique(t.users)
    && CourtsValid(t.courts)
    && SchedulesValid(t.schedules, t.courts.Keys)
    && ReservationsValid(t.reservations, t.users.Keys, t.courts.Keys, t.schedules.Keys)
    && PaymentsValid(t.payments, t.reservations.Keys)
  }

  /** Reservation row `r` may be inserted into `t` as far as its foreign keys and amount go. */
  predicate ReservationFitsIn(t: Tables, r: R.Reservation) {
    ReservationFits(r, t.users.Keys, t.courts.Keys, t.schedules.Keys)
  }

  // ---------------------------------------------------------------- queries

  /**
   * The court a lookup by id loads: the row, or the zero-valued court (no
   * name, capacity 0) when the lookup finds nothing and its error is ignored.
   */
  function CourtOf(t: Tables, cid: Id): (c: Court)
    ensures cid in t.courts ==> c == t.courts[cid]
    ensures cid !in t.courts ==> c.capacity == 0 && c.name == ""
  {
    if cid in t.courts then t.courts[cid] else ZeroCourt
  }

  /** The name of a user a preload finds, or the empty name of a zero-valued user. */
  function UserName(t: Tables, uid: Id): (n: string)
    ensures uid in t.users ==> n == t.users[uid].name
  {
    if uid in t.users then t.users[uid].name else ""
  }

  /** The `created_at` key of reservation ids, for `ORDER BY created_at` over reservation ids. */
  function CreatedAt(t: Tables): Id -> int {
    (id: Id) => if id in t.reservations then t.reservations[id].createdAt else 0
  }

  /** `First` over the rows a condition selects: the least primary key, if any row matches. */
  function First(ids: set<Id>): (r: Option<Id>)
    ensures r.Some? <==> ids != {}
    ensures r.Some? ==> r.value in ids && forall x :: x in ids ==> StrLe(r.value, x)
  {
    if ids == {} then None else Some(Least(ids))
  }

  /** Reservations with `schedule_id = sid`, whatever their status. */
  function ReservationsOf(t: Tables, sid: Id): set<Id> {
    set id | id in t.reservations && t.reservations[id].scheduleId == sid
  }

  /** Reservations with `schedule_id = sid AND status IN ('pending', 'paid', 'confirmed')`. */
  function ActiveBookings(t: Tables, sid: Id): (s: set<Id>)
    ensures s <= ReservationsOf(t, sid)
    ensures forall id :: id in s <==>
      (id in t.reservations && t.reservations[id].scheduleId == sid && R.IsActive(t.reservations[id].status))
  {
    set id | id in t.reservations && t.reservations[id].scheduleId == sid && R.IsActive(t.reservations[id].status)
  }

  /** The capacity checks' `Count`. */
  function ActiveCount(t: Tables, sid: Id): nat {
    |ActiveBookings(t, sid)|
  }

  /** Payments with `reservation_id = rid`. */
  function PaymentsOf(t: Tables, rid: Id): set<Id> {
    set id | id in t.payments && t.payments[id].reservationId == rid
  }

  /** Payments with `midtrans_order_id = oid`. */
  function PaymentsWithOrder(t: Tables, oid: string): set<Id> {
    set id | id in t.payments && t.payments[id].orderId == oid
  }

  /** Users with `email = e`. */
  function UsersWithEmail(t: Tables, e: string): set<Id> {
    set id | id in t.users && t.users[id].email == e
  }

  lemma AtMostOne<T>(s: set<T>)
    requires forall a, b :: a in s && b in s ==> a == b
    ensures |s| <= 1
  {
    if s != {} {
      var x :| x in s;
      assert s == {x};
    }
  }

  /**
   * The unique index on `schedule_id` allows one reservation row per schedule,
   * whatever its status; so at most one booking is ever active on a schedule.
   */
  lemma AtMostOneReservationPerSchedule(t: Tables, sid: Id)
    requires ScheduleIdUnique(t.reservations)
    ensures |ReservationsOf(t, sid)| <= 1 && ActiveCount(t, sid) <= 1
  {
    AtMostOne(ReservationsOf(t, sid));
    SubsetCardinality(ActiveBookings(t, sid), ReservationsOf(t, sid));
  }

  lemma SubsetCardinality<T>(a: set<T>, b: set<T>)
    requires a <= b
    ensures |a| <= |b|
  {
    assert b == a + (b - a);
  }

  /** The unique index on the order id: the webhook's lookup matches at most one payment. */
  lemma OrderLookupUnique(t: Tables, oid: string)
    requires OrderIdUnique(t.payments)
    ensures |PaymentsWithOrder(t, oid)| <= 1
  {
    AtMostOne(PaymentsWithOrder(t, oid));
  }

  /** Under the handlers' invariant a reservation's payment lookup matches at most one row. */
  lemma PaymentLookupUnique(t: Tables, rid: Id)
    requires OnePaymentPerReservation(t.payments)
    ensures |PaymentsOf(t, rid)| <= 1
  {
    AtMostOne(PaymentsOf(t, rid));
  }

  // ---------------------------------------------------------------- reading query texts

  predicate IsLowerHex(c: char) {
    '0' <= c <= '9' || 'a' <= c <= 'f'
  }

  /**
   * The canonical text of a uuid: 8-4-4-4-12 lower-case hexadecimal digits
   * separated by dashes. The request validator's `uuid` tag accepts exactly
   * these, and Postgres prints `uuid` values in this form.
   */
  predicate IsUuid(s: string) {
    |s| == 36 && forall i :: 0 <= i < 36 ==> if i == 8 || i == 13 || i == 18 || i == 23 then s[i] == '-' else IsLowerHex(s[i])
  }

  /**
   * How Postgres reads a query text compared with a `date` column: the day
   * it denotes, or None when it refuses the text (the query fails). Every
   * "YYYY-MM-DD" text reads as its day; Postgres also accepts other forms,
   * such as "2024-1-5" and "20240105", which this model leaves to the parameter.
   */
  ghost predicate ReadsIsoDates(dbDate: string -> Option<Date>) {
    forall s :: Parse(s).Some? ==> dbDate(s) == Parse(s)
  }

  /**
   * How Postgres reads a query text compared with a `uuid` column: the
   * canonical id, or None when it refuses the text. A canonical text reads
   * as itself; other spellings Postgres accepts (upper case, braces, no
   * dashes) are left to the parameter.
   */
  ghost predicate ReadsCanonicalUuids(dbUuid: string -> Option<Id>) {
    forall s :: IsUuid(s) ==> dbUuid(s) == Some(s)
  }

  // ---------------------------------------------------------------- writes

  /** `UPDATE schedules SET is_available = b WHERE id = sid`: no row matches, nothing changes. */
  function SetAvailability(t: Tables, sid: Id, b: bool): (u: Tables)
    ensures u.users == t.users && u.courts == t.courts && u.reservations == t.reservations && u.payments == t.payments
    ensures u.schedules.Keys == t.schedules.Keys
    ensures forall id :: id in t.schedules ==>
      u.schedules[id] == if id == sid then t.schedules[id].(isAvailable := b) else t.schedules[id]
  {
    if sid in t.schedules then t.(schedules := t.schedules[sid := t.schedules[sid].(isAvailable := b)]) else t
  }

  /** `UPDATE reservations SET status = st WHERE id = rid`: no row matches, nothing changes. */
  function SetStatus(t: Tables, rid: Id, st: R.Status): (u: Tables)
    ensures u.users == t.users && u.courts == t.courts && u.schedules == t.schedules && u.payments == t.payments
    ensures u.reservations.Keys == t.reservations.Keys
    ensures forall id :: id in t.reservations ==>
      u.reservations[id] == if id == rid then t.reservations[id].(status := st) else t.reservations[id]
  {
    if rid in t.reservations then t.(reservations := t.reservations[rid := t.reservations[rid].(status := st)]) else t
  }

  /**
   * `INSERT INTO reservations`: refused (None) on a taken primary key, a
   * dangling foreign key, a second row for the same schedule or an amount
   * that overflows the column.
   */
  function InsertReservation(t: Tables, id: Id, r: R.Reservation): (u: Option<Tables>)
    ensures u.Some? <==> id !in t.reservations && ReservationFitsIn(t, r) && ReservationsOf(t, r.scheduleId) == {}
    ensures u.Some? ==> u.value == t.(reservations := t.reservations[id := r])
  {
    if id !in t.reservations && ReservationFitsIn(t, r) && ReservationsOf(t, r.scheduleId) == {}
    then Some(t.(reservations := t.reservations[id := r]))
    else None
  }

  /**
   * `INSERT INTO payments`: refused on a taken primary key or order id, a
   * dangling reservation id or an amount that overflows the column.
   */
  function InsertPayment(t: Tables, id: Id, p: P.Payment): (u: Option<Tables>)
    ensures u.Some? <==> id !in t.payments && PaymentFits(p, t.reservations.Keys) && PaymentsWithOrder(t, p.orderId) == {}
    ensures u.Some? ==> u.value == t.(payments := t.payments[id := p])
  {
    if id !in t.payments && PaymentFits(p, t.reservations.Keys) && PaymentsWithOrder(t, p.orderId) == {}
    then Some(t.(payments := t.payments[id := p]))
    else None
  }

  /** The new keys `newId(0)`, ..., `newId(n - 1)` are pairwise distinct and not yet in `m`. */
  predicate FreshKeys<V>(m: map<Id, V>, n: nat, newId: nat -> Id) {
    (forall k :: 0 <= k < n ==> newId(k) !in m)
    && (forall j, k :: 0 <= j < k < n ==> newId(j) != newId(k))
  }

  /** The rows of a batch insert keyed by their new ids, each with its column defaults. */
  function NewSchedules(rows: seq<Schedule>, newId: nat -> Id): (m: map<Id, Schedule>)
    requires forall j, k :: 0 <= j < k < |rows| ==> newId(j) != newId(k)
    ensures m.Keys == set k | 0 <= k < |rows| :: newId(k)
    ensures forall k :: 0 <= k < |rows| ==> m[newId(k)] == ScheduleModel.WithDefaults(rows[k])
  {
    map k | 0 <= k < |rows| :: newId(k) := ScheduleModel.WithDefaults(rows[k])
  }

  /** The most bind parameters one statement may carry in PostgreSQL's extended protocol. */
  const MaxBindParameters := 65535

  /**
   * The parameters one schedule row binds in a batch insert: court_id, date,
   * start_time, end_time, is_available, created_at and updated_at (the id is
   * left to its column default).
   */
  const ScheduleInsertColumns := 7

  /**
   * One multi-row `INSERT INTO schedules`: GORM refuses an empty batch, the
   * driver refuses a statement with more bind parameters than the protocol
   * allows, and the statement fails as a whole on any taken key, dangling
   * court id or column overflow.
   */
  function InsertSchedules(t: Tables, rows: seq<Schedule>, newId: nat -> Id): (u: Option<Tables>)
    ensures u.Some? <==> rows != [] && |rows| * ScheduleInsertColumns <= MaxBindParameters
                         && FreshKeys(t.schedules, |rows|, newId)
                         && forall k :: 0 <= k < |rows| ==> rows[k].courtId in t.courts && Fits(rows[k])
    ensures u.Some? ==> u.value == t.(schedules := t.schedules + NewSchedules(rows, newId))
  {
    if rows != [] && |rows| * ScheduleInsertColumns <= MaxBindParameters && FreshKeys(t.schedules, |rows|, newId)
       && forall k :: 0 <= k < |rows| ==> rows[k].courtId in t.courts && Fits(rows[k])
    then Some(t.(schedules := t.schedules + NewSchedules(rows, newId)))
    else None
  }

  // ---------------------------------------------------------------- the writes keep the constraints

  lemma SetAvailabilityKeepsValid(t: Tables, sid: Id, b: bool)
    requires Valid(t)
    ensures Valid(SetAvailability(t, sid, b))
  {
    var u := SetAvailability(t, sid, b);
    assert SchedulesValid(u.schedules, u.courts.Keys) by {
      forall s | s in u.schedules ensures u.schedules[s].courtId in u.courts.Keys && Fits(u.schedules[s]) {
        assert s in t.schedules;
      }
    }
  }

  /** Changing one reservation's status touches neither its foreign keys nor its schedule. */
  lemma StatusChangeKeepsReservationsValid(
    rs: map<Id, R.Reservation>, rid: Id, st: R.Status, userIds: set<Id>, courtIds: set<Id>, scheduleIds: set<Id>)
    requires ReservationsValid(rs, userIds, courtIds, scheduleIds) && rid in rs
    ensures ReservationsValid(rs[rid := rs[rid].(status := st)], userIds, courtIds, scheduleIds)
  {
    var us := rs[rid := rs[rid].(status := st)];
    forall id | id in us ensures ReservationFits(us[id], userIds, courtIds, scheduleIds) {
      assert ReservationFits(rs[id], userIds, courtIds, scheduleIds);
    }
    forall a, b | a in us && b in us && us[a].scheduleId == us[b].scheduleId ensures a == b {
      assert rs[a].scheduleId == rs[b].scheduleId;
    }
  }

  lemma SetStatusKeepsValid(t: Tables, rid: Id, st: R.Status)
    requires Valid(t)
    ensures Valid(SetStatus(t, rid, st))
  {
    if rid in t.reservations {
      StatusChangeKeepsReservationsValid(t.reservations, rid, st, t.users.Keys, t.courts.Keys, t.schedules.Keys);
    }
  }

  /** Rewriting a payment's status or method touches none of its constrained columns. */
  lemma PaymentChangeKeepsPaymentsValid(ps: map<Id, P.Payment>, pid: Id, st: P.Status, m: string, reservationIds: set<Id>)
    requires PaymentsValid(ps, reservationIds) && pid in ps
    ensures PaymentsValid(ps[pid := ps[pid].(status := st, paymentMethod := m)], reservationIds)
  {
    var qs := ps[pid := ps[pid].(status := st, paymentMethod := m)];
    forall id | id in qs ensures PaymentFits(qs[id], reservationIds) {
      assert PaymentFits(ps[id], reservationIds);
    }
    forall a, b | a in qs && b in qs && qs[a].orderId == qs[b].orderId ensures a == b {
      assert ps[a].orderId == ps[b].orderId;
    }
    forall a, b | a in qs && b in qs && qs[a].reservationId == qs[b].reservationId ensures a == b {
      assert ps[a].reservationId == ps[b].reservationId;
    }
  }

  /** Rewriting a payment's status or method keeps every constraint. */
  lemma UpdatePaymentKeepsValid(t: Tables, pid: Id, st: P.Status, m: string)
    requires Valid(t) && pid in t.payments
    ensures Valid(t.(payments := t.payments[pid := t.payments[pid].(status := st, paymentMethod := m)]))
  {
    PaymentChangeKeepsPaymentsValid(t.payments, pid, st, m, t.reservations.Keys);
  }

  /** A reservation row whose keys exist and whose schedule has no row yet keeps the reservation constraints. */
  lemma NewReservationKeepsReservationsValid(
    rs: map<Id, R.Reservation>, id: Id, r: R.Reservation, userIds: set<Id>, courtIds: set<Id>, scheduleIds: set<Id>)
    requires ReservationsValid(rs, userIds, courtIds, scheduleIds) && ReservationFits(r, userIds, courtIds, scheduleIds)
    requires forall x :: x in rs ==> rs[x].scheduleId != r.scheduleId
    ensures ReservationsValid(rs[id := r], userIds, courtIds, scheduleIds)
  {
    var us := rs[id := r];
    forall x | x in us ensures ReservationFits(us[x], userIds, courtIds, scheduleIds) {
      if x != id {
        assert ReservationFits(rs[x], userIds, courtIds, scheduleIds);
      }
    }
  }

  /** Payments stay valid when the reservation keys only grow. */
  lemma MoreReservationsKeepPaymentsValid(ps: map<Id, P.Payment>, reservationIds: set<Id>, more: set<Id>)
    requires PaymentsValid(ps, reservationIds) && reservationIds <= more
    ensures PaymentsValid(ps, more)
  {
    forall x | x in ps ensures PaymentFits(ps[x], more) {
      assert PaymentFits(ps[x], reservationIds);
    }
  }

  lemma InsertReservationKeepsValid(t: Tables, id: Id, r: R.Reservation)
    requires Valid(t) && InsertReservation(t, id, r).Some?
    ensures Valid(InsertReservation(t, id, r).value)
  {
    forall x | x in t.reservations ensures t.reservations[x].scheduleId != r.scheduleId {
      assert x !in ReservationsOf(t, r.scheduleId);
    }
    NewReservationKeepsReservationsValid(t.reservations, id, r, t.users.Keys, t.courts.Keys, t.schedules.Keys);
    MoreReservationsKeepPaymentsValid(t.payments, t.reservations.Keys, t.reservations[id := r].Keys);
  }

  /** A payment row with a fresh order id, for a reservation without one, keeps the payment constraints. */
  lemma NewPaymentKeepsPaymentsValid(ps: map<Id, P.Payment>, id: Id, p: P.Payment, reservationIds: set<Id>)
    requires PaymentsValid(ps, reservationIds) && PaymentFits(p, reservationIds) && id !in ps
    requires forall x :: x in ps ==> ps[x].orderId != p.orderId && ps[x].reservationId != p.reservationId
    ensures PaymentsValid(ps[id := p], reservationIds)
  {
    var qs := ps[id := p];
    forall x | x in qs ensures PaymentFits(qs[x], reservationIds) {
      if x != id {
        assert PaymentFits(ps[x], reservationIds);
      }
    }
  }

  /** A new payment keeps the constraints when its reservation had none. */
  lemma InsertPaymentKeepsValid(t: Tables, id: Id, p: P.Payment)
    requires Valid(t) && InsertPayment(t, id, p).Some? && PaymentsOf(t, p.reservationId) == {}
    ensures Valid(InsertPayment(t, id, p).value)
  {
    forall x | x in t.payments ensures t.payments[x].orderId != p.orderId && t.payments[x].reservationId != p.reservationId {
      assert x !in PaymentsWithOrder(t, p.orderId);
      assert x !in PaymentsOf(t, p.reservationId);
    }
    NewPaymentKeepsPaymentsValid(t.payments, id, p, t.reservations.Keys);
  }

  /** Reservations stay valid when the schedule keys only grow. */
  lemma MoreSchedulesKeepReservationsValid(
    rs: map<Id, R.Reservation>, userIds: set<Id>, courtIds: set<Id>, scheduleIds: set<Id>, more: set<Id>)
    requires ReservationsValid(rs, userIds, courtIds, scheduleIds) && scheduleIds <= more
    ensures ReservationsValid(rs, userIds, courtIds, more)
  {
    forall x | x in rs ensures ReservationFits(rs[x], userIds, courtIds, more) {
      assert ReservationFits(rs[x], userIds, courtIds, scheduleIds);
    }
  }

  /** A batch of schedules that the insert accepts keeps the constraints. */
  lemma InsertSchedulesKeepsValid(t: Tables, rows: seq<Schedule>, newId: nat -> Id)
    requires Valid(t) && InsertSchedules(t, rows, newId).Some?
    ensures Valid(InsertSchedules(t, rows, newId).value)
  {
    var added := NewSchedules(rows, newId);
    var ss := t.schedules + added;
    forall s | s in ss ensures ss[s].courtId in t.courts && Fits(ss[s]) {
      if s in added {
        var k :| 0 <= k < |rows| && newId(k) == s;
        assert ss[s] == ScheduleModel.WithDefaults(rows[k]);
      }
    }
    MoreSchedulesKeepReservationsValid(t.reservations, t.users.Keys, t.courts.Keys, t.schedules.Keys, ss.Keys);
  }

  /** A new reservation row followed by its first payment row keeps the constraints. */
  lemma InsertBookingKeepsValid(t: Tables, resId: Id, r: R.Reservation, payId: Id, p: P.Payment)
    requires Valid(t) && InsertReservation(t, resId, r).Some? && p.reservationId == resId
    requires InsertPayment(InsertReservation(t, resId, r).value, payId, p).Some?
    ensures Valid(InsertPayment(InsertReservation(t, resId, r).value, payId, p).value)
  {
    InsertReservationKeepsValid(t, resId, r);
    var t1 := InsertReservation(t, resId, r).value;
    forall x | x in t1.payments ensures x !in PaymentsOf(t1, resId) {
      assert PaymentFits(t.payments[x], t.reservations.Keys);
    }
    InsertPaymentKeepsValid(t1, payId, p);
  }

  /** What a handler leaves behind: the committed tables and the HTTP status it answers. */
  datatype Outcome = Outcome(tables: Tables, status: int)

  /** The committed state of the database, which every handler reads and, on commit, replaces. */
  class Database {
    var tables: Tables

    constructor (t: Tables)
      ensures tables == t
    {
      tables := t;
    }
  }
}
