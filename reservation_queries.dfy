/**
 * The read-only reservation endpoints (backend/controllers/reservation.go):
 * the public schedule queries the booking wizard calls, and the admin list of
 * all reservations. Each is a method over the committed tables that changes
 * nothing; the rows it lists are stated as sets of the table's ids or values,
 * and the order as `SortedBy` of the `ORDER BY` key.
 */
module ReservationQueries {
  import opened Wrappers
  import opened Columns
  import opened Strings
  import opened Calendar
  import opened Ordering
  import opened Http
  import opened CourtModel
  import opened ScheduleModel
  import R = ReservationModel
  import opened Store

  /** Calendar order on dates, as `ORDER BY date ASC`. */
  function ByDate(): (Date, Date) -> bool {
    (a: Date, b: Date) => DateLe(a, b)
  }

  lemma ByDateIsTotalPreorder()
    ensures TotalPreorder(ByDate())
  {
  }

  /** Code-point order on texts, the collation the text comparisons are taken to use. */
  function ByText(): (string, string) -> bool {
    (a: string, b: string) => StrLe(a, b)
  }

  // ---------------------------------------------------------------- GET /reservations/dates

  /**
   * The distinct dates, from `today` on, that hold an available schedule:
   * the query's WHERE clause written as a set, which GetAvailableDates is proved against.
   */
  function OpenDates(t: Tables, today: Date): (ds: set<Date>)
    ensures forall d :: d in ds <==>
      exists id :: id in t.schedules && t.schedules[id].isAvailable && t.schedules[id].date == d && DateLe(today, d)
  {
    set id | id in t.schedules && t.schedules[id].isAvailable && DateLe(today, t.schedules[id].date) :: t.schedules[id].date
  }

  /**
   * `GET /dates/available`: the open dates in ascending order, each once,
   * formatted as "2006-01-02"; `days` are the dates the strings stand for.
   */
  method GetAvailableDates(db: Database, today: Date) returns (dates: seq<string>, days: seq<Date>)
    requires SchedulesValid(db.tables.schedules, db.tables.courts.Keys)
    ensures forall d :: d in days <==> d in OpenDates(db.tables, today)
    ensures Distinct(days) && SortedBy(days, ByDate())
    ensures |dates| == |days| && forall i :: 0 <= i < |days| ==> ValidDate(days[i]) && dates[i] == Format(days[i])
  {
    ByDateIsTotalPreorder();
    var open := OpenDates(db.tables, today);
    assert forall d :: d in open ==> ValidDate(d);
    days := Enumerate(open, ByDate());
    dates := [];
    var i := 0;
    while i < |days|
      invariant 0 <= i <= |days| && |dates| == i
      invariant forall k :: 0 <= k < i ==> ValidDate(days[k]) && dates[k] == Format(days[k])
    {
      assert days[i] in open;
      dates := dates + [Format(days[i])];
      i := i + 1;
    }
  }

  /** Open dates are listed strictly ascending: no date twice, none out of order. */
  lemma OpenDatesStrictlyAscending(days: seq<Date>, i: int, j: int)
    requires Distinct(days) && SortedBy(days, ByDate())
    requires 0 <= i < j < |days|
    ensures DateLt(days[i], days[j])
  {
    assert DateLe(days[i], days[j]) && days[i] != days[j];
  }

  // ---------------------------------------------------------------- GET /reservations/slots

  /**
   * The distinct start times of the available schedules on date d: the
   * query's WHERE clause written as a set, which GetTimeSlots is proved against.
   */
  function StartTimes(t: Tables, d: Date): (ts: set<string>)
    ensures forall x :: x in ts <==>
      exists id :: id in t.schedules && t.schedules[id].isAvailable && t.schedules[id].date == d && t.schedules[id].startTime == x
  {
    set id | id in t.schedules && t.schedules[id].isAvailable && t.schedules[id].date == d :: t.schedules[id].startTime
  }

  /**
   * `GET /timeslots?date=`: 400 without a date, 500 when the database
   * refuses the date text (the handler passes it on unchecked, and `dbDate`
   * is how the database reads it), else 200 with the start times of that
   * day's available schedules, each once, ascending.
   */
  method GetTimeSlots(db: Database, date: string, dbDate: string -> Option<Date>) returns (status: int, slots: seq<string>)
    ensures status == BadRequest <==> date == ""
    ensures status == InternalError <==> date != "" && dbDate(date).None?
    ensures status == OK <==> date != "" && dbDate(date).Some?
    ensures status != OK ==> slots == []
    ensures status == OK ==>
      (forall x :: x in slots <==> x in StartTimes(db.tables, dbDate(date).value))
      && Distinct(slots) && SortedBy(slots, ByText())
  {
    if date == "" {
      return BadRequest, [];
    }
    var d := dbDate(date);
    if d.None? {
      return InternalError, [];
    }
    StrLeIsTotalPreorder();
    slots := Enumerate(StartTimes(db.tables, d.value), ByText());
    status := OK;
  }

  // ---------------------------------------------------------------- GET /reservations/courts

  /** One entry of the courts list: the schedule and the court it belongs to. */
  datatype Offer = Offer(scheduleId: Id, courtId: Id, court: Court, startTime: string, endTime: string)

  /** The available schedules on date d starting exactly at time `at`. */
  function SchedulesAt(t: Tables, d: Date, at: string): set<Id> {
    set id | id in t.schedules && t.schedules[id].date == d && t.schedules[id].startTime == at && t.schedules[id].isAvailable
  }

  /** The entry the response lists for schedule `sid`. */
  function OfferOf(t: Tables, sid: Id): Offer
    requires sid in t.schedules
  {
    var s := t.schedules[sid];
    Offer(sid, s.courtId, CourtOf(t, s.courtId), s.startTime, s.endTime)
  }

  /**
   * `GET /courts/available?date=&time=`: 400 unless both are given, 500
   * when the database refuses the date text (read as `dbDate` says), else
   * 200 and one entry per available schedule at that date and start time
   * (the query has no `ORDER BY`; the entries come in one of the possible orders).
   */
  method GetAvailableCourts(db: Database, date: string, time: string, dbDate: string -> Option<Date>)
    returns (status: int, offers: seq<Offer>)
    ensures status == BadRequest <==> date == "" || time == ""
    ensures status == InternalError <==> date != "" && time != "" && dbDate(date).None?
    ensures status != OK ==> offers == []
    ensures status == OK ==>
      var matching := SchedulesAt(db.tables, dbDate(date).value, time);
      |offers| == |matching|
      && (forall i :: 0 <= i < |offers| ==> offers[i].scheduleId in matching && offers[i] == OfferOf(db.tables, offers[i].scheduleId))
      && (forall id :: id in matching ==> exists i :: 0 <= i < |offers| && offers[i].scheduleId == id)
      && (forall i, j :: 0 <= i < j < |offers| ==> offers[i].scheduleId != offers[j].scheduleId)
  {
    if date == "" || time == "" {
      return BadRequest, [];
    }
    var d := dbDate(date);
    if d.None? {
      return InternalError, [];
    }
    var t := db.tables;
    var matching := SchedulesAt(t, d.value, time);
    StrLeIsTotalPreorder();
    var ids := Enumerate(matching, ByText());
    offers := [];
    var i := 0;
    while i < |ids|
      invariant 0 <= i <= |ids| && |offers| == i
      invariant forall k :: 0 <= k < i ==> offers[k].scheduleId == ids[k] && ids[k] in matching && offers[k] == OfferOf(t, ids[k])
    {
      assert ids[i] in matching;
      offers := offers + [OfferOf(t, ids[i])];
      i := i + 1;
    }
    forall id | id in matching ensures exists k :: 0 <= k < |offers| && offers[k].scheduleId == id {
      var k :| 0 <= k < |ids| && ids[k] == id;
      assert offers[k].scheduleId == id;
    }
    status := OK;
  }

  // ---------------------------------------------------------------- GET /reservations/schedules

  /** The available schedules on date d, whatever their time. */
  function SchedulesOn(t: Tables, d: Date): set<Id> {
    set id | id in t.schedules && t.schedules[id].date == d && t.schedules[id].isAvailable
  }

  /**
   * `GET /schedules?date=`: 400 without a date or for a date
   * that is not "YYYY-MM-DD", else 200 and the available schedules of that
   * day (in one of the possible orders).
   */
  method GetSchedules(db: Database, date: string) returns (status: int, ids: seq<Id>)
    ensures status == BadRequest <==> date == "" || Parse(date).None?
    ensures status == OK <==> status != BadRequest
    ensures status != OK ==> ids == []
    ensures status == OK ==> Distinct(ids) && forall id :: id in ids <==> id in SchedulesOn(db.tables, Parse(date).value)
  {
    if date == "" {
      return BadRequest, [];
    }
    var d := Parse(date);
    if d.None? {
      return BadRequest, [];
    }
    StrLeIsTotalPreorder();
    ids := Enumerate(SchedulesOn(db.tables, d.value), ByText());
    status := OK;
  }

  // ---------------------------------------------------------------- GET /admin/reservations

  /** `ORDER BY created_at DESC` over reservation ids. */
  function NewestFirst(t: Tables): (Id, Id) -> bool {
    DescendingBy(CreatedAt(t))
  }

  /**
   * The reservations whose stored status text equals `status`, all of them when it is empty:
   * the optional WHERE clause written as a set, which GetAllReservations is proved against.
   */
  function WithStatus(t: Tables, status: string): (s: set<Id>)
    ensures status == "" ==> s == t.reservations.Keys
    ensures forall id :: id in s <==> id in t.reservations && (status == "" || R.Name(t.reservations[id].status) == status)
  {
    set id | id in t.reservations && (status == "" || R.Name(t.reservations[id].status) == status)
  }

  /**
   * `GET /admin/reservations?status=`: every reservation, or those with the
   * given status text, newest first; a status outside the domain lists none.
   */
  method GetAllReservations(db: Database, status: string) returns (ids: seq<Id>)
    ensures forall id :: id in ids <==> id in WithStatus(db.tables, status)
    ensures Distinct(ids) && SortedBy(ids, NewestFirst(db.tables))
  {
    DescendingByIsTotalPreorder(CreatedAt(db.tables));
    ids := Enumerate(WithStatus(db.tables, status), NewestFirst(db.tables));
  }

  /** A status text that names no reservation status, "failed" among them, selects nothing. */
  lemma UnknownStatusListsNothing(t: Tables, status: string)
    requires status != "" && R.Stored(status).None?
    ensures WithStatus(t, status) == {}
  {
    forall id | id in t.reservations ensures R.Name(t.reservations[id].status) != status {
      R.StoredName(t.reservations[id].status);
    }
  }
}
