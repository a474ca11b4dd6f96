/**
 * The admin schedule endpoints (backend/controllers/schedule.go): the
 * filtered schedule list, the generation of one slot per day over a date
 * range, and the availability toggle.
 */
module ScheduleController {
  import opened Wrappers
  import opened Columns
  import opened Strings
  import opened Calendar
  import opened Ordering
  import opened Http
  import opened ScheduleModel
  import opened Store

  // ---------------------------------------------------------------- GET /admin/schedules

  /** The date condition the query parameters select. */
  datatype DateFilter = AnyDate | OnDate(day: Date) | Between(lo: Date, hi: Date)

  /**
   * The date condition of `start_date`/`end_date`: a range with both, an
   * exact day with the start alone, none otherwise (the end alone is never
   * read). The texts go to the database unchecked and are read as `dbDate`
   * says; None: the database refuses one of them.
   */
  function DateFilterOf(startDate: string, endDate: string, dbDate: string -> Option<Date>): (f: Option<DateFilter>)
    ensures startDate == "" ==> f == Some(AnyDate)
    ensures startDate != "" && endDate == "" ==>
      (f.Some? <==> dbDate(startDate).Some?) && (f.Some? ==> f.value == OnDate(dbDate(startDate).value))
    ensures startDate != "" && endDate != "" ==>
      (f.Some? <==> dbDate(startDate).Some? && dbDate(endDate).Some?)
      && (f.Some? ==> f.value == Between(dbDate(startDate).value, dbDate(endDate).value))
  {
    if startDate != "" && endDate != "" then
      match (dbDate(startDate), dbDate(endDate))
      case (Some(lo), Some(hi)) => Some(Between(lo, hi))
      case _ => None
    else if startDate != "" then
      match dbDate(startDate)
      case Some(d) => Some(OnDate(d))
      case None => None
    else Some(AnyDate)
  }

  /** Two "YYYY-MM-DD" texts select the range between their days, whatever else the database accepts. */
  lemma IsoRangeFilter(startDate: string, endDate: string, dbDate: string -> Option<Date>)
    requires ReadsIsoDates(dbDate)
    requires Parse(startDate).Some? && Parse(endDate).Some?
    ensures DateFilterOf(startDate, endDate, dbDate) == Some(Between(Parse(startDate).value, Parse(endDate).value))
  {
    assert startDate != "" && endDate != "" by {
      assert Parse(startDate).Some? && Parse(endDate).Some?;
    }
  }

  /**
   * The court condition of `court_id`: none when it is empty, else the
   * court the database reads the text as (`dbUuid`); None: the database
   * refuses the text, since the column is a `uuid`.
   */
  function CourtFilterOf(courtId: string, dbUuid: string -> Option<Id>): (f: Option<Option<Id>>)
    ensures courtId == "" ==> f == Some(None)
    ensures courtId != "" ==> (f.Some? <==> dbUuid(courtId).Some?) && (f.Some? ==> f.value == dbUuid(courtId))
  {
    if courtId == "" then Some(None)
    else match dbUuid(courtId)
      case Some(c) => Some(Some(c))
      case None => None
  }

  /** A canonical court id filters on that court; any other text the database cannot read fails the query. */
  lemma CanonicalCourtFilter(courtId: string, dbUuid: string -> Option<Id>)
    requires ReadsCanonicalUuids(dbUuid) && IsUuid(courtId)
    ensures CourtFilterOf(courtId, dbUuid) == Some(Some(courtId))
  {
    assert courtId != "";
  }

  /** `date BETWEEN lo AND hi` is inclusive at both ends; `date = d` is exact. */
  predicate Matches(f: DateFilter, d: Date) {
    match f
    case AnyDate => true
    case OnDate(x) => d == x
    case Between(lo, hi) => DateLe(lo, d) && DateLe(d, hi)
  }

  /** The schedules the list selects: of the court when one is given, and matching the date condition. */
  function Selected(t: Tables, court: Option<Id>, f: DateFilter): (ids: set<Id>)
    ensures forall id :: id in ids <==>
      id in t.schedules && (court.None? || t.schedules[id].courtId == court.value) && Matches(f, t.schedules[id].date)
  {
    set id | id in t.schedules && (court.None? || t.schedules[id].courtId == court.value) && Matches(f, t.schedules[id].date)
  }

  /** `date ASC, start_time ASC` on two rows. */
  predicate DateThenTime(x: Schedule, y: Schedule) {
    DateLt(x.date, y.date) || (x.date == y.date && StrLe(x.startTime, y.startTime))
  }

  /** The row of a schedule id, for ordering; ids outside the table never occur in a listing. */
  function RowOf(t: Tables, id: Id): Schedule {
    if id in t.schedules then t.schedules[id] else ScheduleModel.Schedule("", ZeroDate, "", "", false)
  }

  /** `ORDER BY date ASC, start_time ASC` over schedule ids. */
  function ByDateThenTime(t: Tables): (Id, Id) -> bool {
    (a: Id, b: Id) => DateThenTime(RowOf(t, a), RowOf(t, b))
  }

  lemma DateThenTimeTotal(x: Schedule, y: Schedule)
    ensures DateThenTime(x, y) || DateThenTime(y, x)
  {
    if x.date == y.date {
      StrLeTotal(x.startTime, y.startTime);
    }
  }

  lemma DateThenTimeTransitive(x: Schedule, y: Schedule, z: Schedule)
    requires DateThenTime(x, y) && DateThenTime(y, z)
    ensures DateThenTime(x, z)
  {
    if x.date == y.date && y.date == z.date {
      StrLeTransitive(x.startTime, y.startTime, z.startTime);
    }
  }

  lemma ByDateThenTimeIsTotalPreorder(t: Tables)
    ensures TotalPreorder(ByDateThenTime(t))
  {
    forall a: Id, b: Id ensures ByDateThenTime(t)(a, b) || ByDateThenTime(t)(b, a) {
      DateThenTimeTotal(RowOf(t, a), RowOf(t, b));
    }
    forall a: Id, b: Id, c: Id | ByDateThenTime(t)(a, b) && ByDateThenTime(t)(b, c) ensures ByDateThenTime(t)(a, c) {
      DateThenTimeTransitive(RowOf(t, a), RowOf(t, b), RowOf(t, c));
    }
  }

  /**
   * `GET /admin/schedules?court_id=&start_date=&end_date=`: 500 when the
   * database refuses the court id or a date text, else 200 and the selected
   * schedules ordered by date, then start time.
   */
  method GetAdminSchedules(
    db: Database, courtId: string, startDate: string, endDate: string,
    dbDate: string -> Option<Date>, dbUuid: string -> Option<Id>)
    returns (status: int, ids: seq<Id>)
    ensures status == InternalError <==>
      CourtFilterOf(courtId, dbUuid).None? || DateFilterOf(startDate, endDate, dbDate).None?
    ensures status == OK <==> status != InternalError
    ensures status != OK ==> ids == []
    ensures status == OK ==>
      (forall id :: id in ids <==>
         id in Selected(db.tables, CourtFilterOf(courtId, dbUuid).value, DateFilterOf(startDate, endDate, dbDate).value))
      && Distinct(ids) && SortedBy(ids, ByDateThenTime(db.tables))
  {
    var court := CourtFilterOf(courtId, dbUuid);
    var f := DateFilterOf(startDate, endDate, dbDate);
    if court.None? || f.None? {
      return InternalError, [];
    }
    ByDateThenTimeIsTotalPreorder(db.tables);
    ids := Enumerate(Selected(db.tables, court.value, f.value), ByDateThenTime(db.tables));
    status := OK;
  }

  /** In the list, dates never go down, and within one date start times never go down. */
  lemma ListedInOrder(t: Tables, ids: seq<Id>, i: int, j: int)
    requires SortedBy(ids, ByDateThenTime(t)) && 0 <= i < j < |ids|
    requires ids[i] in t.schedules && ids[j] in t.schedules
    ensures DateLe(t.schedules[ids[i]].date, t.schedules[ids[j]].date)
    ensures t.schedules[ids[i]].date == t.schedules[ids[j]].date ==>
      StrLe(t.schedules[ids[i]].startTime, t.schedules[ids[j]].startTime)
  {
    assert ByDateThenTime(t)(ids[i], ids[j]);
    if t.schedules[ids[i]].date == t.schedules[ids[j]].date {
      assert !DateLt(t.schedules[ids[i]].date, t.schedules[ids[j]].date);
    }
  }

  /** A range of one day selects exactly what that day alone selects. */
  lemma OneDayRangeIsExactDay(t: Tables, court: Option<Id>, d: Date)
    ensures Selected(t, court, Between(d, d)) == Selected(t, court, OnDate(d))
  {
  }

  /** A range whose end comes before its start selects nothing. */
  lemma ReversedRangeSelectsNothing(t: Tables, court: Option<Id>, lo: Date, hi: Date)
    requires DateLt(hi, lo)
    ensures Selected(t, court, Between(lo, hi)) == {}
  {
  }

  // ---------------------------------------------------------------- POST /admin/schedules/bulk

  /** The body of `POST /admin/schedules/bulk`; the duration is read but unused. */
  datatype BulkInput = BulkInput(
    courtId: Id, startDate: string, endDate: string, startTime: string, endTime: string, duration: int)

  /** The number of days from `start` through `end`, both included; none when `end` comes first. */
  function DaysThrough(start: Date, end: Date): (n: nat)
    requires ValidDate(start) && ValidDate(end)
    ensures n > 0 <==> DateLe(start, end)
  {
    DateLeIffDayNumberLe(start, end);
    if DateLe(start, end) then DayNumber(end) - DayNumber(start) + 1 else 0
  }

  /** The slot generated for the k-th day of the range. */
  function SlotOn(input: BulkInput, d: Date): Schedule {
    Schedule(input.courtId, d, input.startTime, input.endTime, true)
  }

  /** The rows of one bulk request: one slot per day from the start date through the end date. */
  function BulkRows(input: BulkInput): (rows: seq<Schedule>)
    ensures var start := ParseOrZero(input.startDate);
      var end := ParseOrZero(input.endDate);
      |rows| == DaysThrough(start, end)
      && forall k :: 0 <= k < |rows| ==> rows[k] == SlotOn(input, FromDayNumber(DayNumber(start) + k))
  {
    var start := ParseOrZero(input.startDate);
    SlotsFrom(input, DayNumber(start), DaysThrough(start, ParseOrZero(input.endDate)))
  }

  /** The slots of n consecutive days from day number `base`. */
  function SlotsFrom(input: BulkInput, base: nat, n: nat): (rows: seq<Schedule>)
    ensures |rows| == n && forall k :: 0 <= k < n ==> rows[k] == SlotOn(input, FromDayNumber(base + k))
  {
    seq(n, k requires 0 <= k < n => SlotOn(input, FromDayNumber(base + k)))
  }

  /**
   * The outcome of a bulk request: 400 when the body does not parse, 500
   * when the insert fails (a court id the `uuid` column refuses, an empty
   * range or one too long for a single statement among the causes), else 200
   * with the new rows added under the fresh ids, each carrying the court id
   * as the database reads it.
   */
  function BulkOutcome(t: Tables, body: Option<BulkInput>, newId: nat -> Id, dbUuid: string -> Option<Id>): (o: Outcome)
    ensures o.status in {OK, BadRequest, InternalError}
    ensures o.status == BadRequest <==> body.None?
    ensures o.status == InternalError <==>
      body.Some?
      && (dbUuid(body.value.courtId).None?
          || InsertSchedules(t, BulkRows(body.value.(courtId := dbUuid(body.value.courtId).value)), newId).None?)
    ensures o.status != OK ==> o.tables == t
    ensures o.status == OK ==>
      o.tables == t.(schedules := t.schedules
                     + NewSchedules(BulkRows(body.value.(courtId := dbUuid(body.value.courtId).value)), newId))
  {
    match body
    case None => Outcome(t, BadRequest)
    case Some(input) =>
      match dbUuid(input.courtId)
      case None => Outcome(t, InternalError)
      case Some(c) =>
        match InsertSchedules(t, BulkRows(input.(courtId := c)), newId)
        case None => Outcome(t, InternalError)
        case Some(u) => Outcome(u, OK)
  }

  /** The day loop of the handler: `for d := start; !d.After(end); d = d.AddDate(0, 0, 1)`. */
  method GenerateSlots(input: BulkInput) returns (rows: seq<Schedule>)
    ensures rows == BulkRows(input)
  {
    var start := ParseOrZero(input.startDate);
    var end := ParseOrZero(input.endDate);
    DateLeIffDayNumberLe(start, end);
    var base := DayNumber(start);
    rows := [];
    var d := start;
    while DateLe(d, end)
      invariant ValidDate(d) && DayNumber(d) == base + |rows|
      invariant |rows| <= DaysThrough(start, end)
      invariant rows == SlotsFrom(input, base, |rows|)
      decreases DayNumber(end) + 1 - DayNumber(d)
    {
      DateLeIffDayNumberLe(d, end);
      FromDayNumberOfDayNumber(d);
      SlotsFromStep(input, base, |rows|);
      rows := rows + [SlotOn(input, d)];
      d := NextDay(d);
    }
    DateLeIffDayNumberLe(d, end);
    assert |rows| == DaysThrough(start, end);
  }

  lemma SlotsFromStep(input: BulkInput, base: nat, n: nat)
    ensures SlotsFrom(input, base, n + 1) == SlotsFrom(input, base, n) + [SlotOn(input, FromDayNumber(base + n))]
  {
    var longer := SlotsFrom(input, base, n + 1);
    var shorter := SlotsFrom(input, base, n);
    forall k | 0 <= k < n ensures longer[k] == shorter[k] {
    }
    assert longer == shorter + [longer[n]];
  }

  /**
   * `POST /admin/schedules/bulk`: returns the status and the count of
   * schedules created; one multi-row insert, all or nothing.
   */
  method CreateScheduleBulk(db: Database, body: Option<BulkInput>, newId: nat -> Id, dbUuid: string -> Option<Id>)
    returns (status: int, count: nat)
    modifies db
    ensures Outcome(db.tables, status) == BulkOutcome(old(db.tables), body, newId, dbUuid)
    ensures status == OK ==> count == |BulkRows(body.value)|
  {
    if body.None? {
      return BadRequest, 0;
    }
    // The insert binds the court id text to a `uuid` column, which reads it or refuses the statement.
    var court := dbUuid(body.value.courtId);
    if court.None? {
      return InternalError, 0;
    }
    var schedules := GenerateSlots(body.value.(courtId := court.value));
    var inserted := InsertSchedules(db.tables, schedules, newId);
    if inserted.None? {
      return InternalError, 0;
    }
    db.tables := inserted.value;
    return OK, |schedules|;
  }

  /**
   * The range is covered exactly: a date gets a slot if and only if it lies
   * between the start and the end date, both included, and no date gets two.
   */
  lemma BulkCoversRange(input: BulkInput, d: Date)
    requires ValidDate(d)
    ensures var start := ParseOrZero(input.startDate);
      var end := ParseOrZero(input.endDate);
      var rows := BulkRows(input);
      (exists k :: 0 <= k < |rows| && rows[k].date == d) <==> DateLe(start, d) && DateLe(d, end)
    ensures var rows := BulkRows(input);
      forall j, k :: 0 <= j < k < |rows| ==> rows[j].date != rows[k].date
  {
    var start := ParseOrZero(input.startDate);
    var end := ParseOrZero(input.endDate);
    var rows := BulkRows(input);
    DateLeIffDayNumberLe(start, d);
    DateLeIffDayNumberLe(d, end);
    if DateLe(start, d) && DateLe(d, end) {
      var k := DayNumber(d) - DayNumber(start);
      FromDayNumberOfDayNumber(d);
      assert rows[k].date == d;
    }
    if exists k :: 0 <= k < |rows| && rows[k].date == d {
      var k :| 0 <= k < |rows| && rows[k].date == d;
      assert DayNumber(d) == DayNumber(start) + k;
    }
    forall j, k | 0 <= j < k < |rows| ensures rows[j].date != rows[k].date {
      assert DayNumber(rows[j].date) != DayNumber(rows[k].date);
    }
  }

  /** A range whose end comes before its start generates no row, so the insert and the request fail. */
  lemma ReversedRangeFails(t: Tables, input: BulkInput, newId: nat -> Id, dbUuid: string -> Option<Id>)
    requires DateLt(ParseOrZero(input.endDate), ParseOrZero(input.startDate))
    ensures BulkOutcome(t, Some(input), newId, dbUuid) == Outcome(t, InternalError)
  {
    assert !DateLe(ParseOrZero(input.startDate), ParseOrZero(input.endDate));
  }

  /** The most days one bulk request can cover: one more row would bind more parameters than a statement may. */
  const MaxBulkDays := MaxBindParameters / ScheduleInsertColumns

  /** A range of more than 9362 days is one statement with too many bind parameters: the request fails. */
  lemma OversizedRangeFails(t: Tables, input: BulkInput, newId: nat -> Id, dbUuid: string -> Option<Id>)
    requires DaysThrough(ParseOrZero(input.startDate), ParseOrZero(input.endDate)) > MaxBulkDays
    ensures MaxBulkDays == 9362
    ensures BulkOutcome(t, Some(input), newId, dbUuid) == Outcome(t, InternalError)
  {
  }

  /** Each year before `y` has at least 365 days. */
  lemma {:induction false} DaysBeforeYearAtLeast(y: int)
    requires y >= 1
    ensures DaysBeforeYear(y) >= 365 * (y - 1)
    decreases y
  {
    if y > 1 {
      DaysBeforeYearAtLeast(y - 1);
    }
  }

  /**
   * A start date that does not parse falls back to 0001-01-01, so any end
   * date from year 27 on asks for more days than one statement can insert:
   * the request fails.
   */
  lemma UnparsedStartFails(t: Tables, input: BulkInput, newId: nat -> Id, dbUuid: string -> Option<Id>)
    requires Parse(input.startDate).None?
    requires Parse(input.endDate).Some? && Parse(input.endDate).value.year >= 27
    ensures BulkOutcome(t, Some(input), newId, dbUuid) == Outcome(t, InternalError)
  {
    var end := ParseOrZero(input.endDate);
    DaysBeforeYearAtLeast(end.year);
    DateLeIffDayNumberLe(ZeroDate, end);
    assert DayNumber(ZeroDate) == 0;
    OversizedRangeFails(t, input, newId, dbUuid);
  }

  /** A canonical court id is stored as written: the request inserts exactly the generated rows. */
  lemma CanonicalCourtBulk(t: Tables, input: BulkInput, newId: nat -> Id, dbUuid: string -> Option<Id>)
    requires ReadsCanonicalUuids(dbUuid) && IsUuid(input.courtId)
    ensures BulkOutcome(t, Some(input), newId, dbUuid)
            == match InsertSchedules(t, BulkRows(input), newId)
               case None => Outcome(t, InternalError)
               case Some(u) => Outcome(u, OK)
  {
    assert input.(courtId := input.courtId) == input;
  }

  /** Every generated slot is open and carries the request's court and times, whatever the duration. */
  lemma BulkRowsCarryInput(input: BulkInput, duration: int)
    ensures var rows := BulkRows(input);
      forall k :: 0 <= k < |rows| ==>
        rows[k].courtId == input.courtId && rows[k].startTime == input.startTime
        && rows[k].endTime == input.endTime && rows[k].isAvailable
    ensures BulkRows(input.(duration := duration)) == BulkRows(input)
  {
    assert SlotOn(input.(duration := duration), ZeroDate) == SlotOn(input, ZeroDate);
  }

  /** A committed bulk insert keeps every table constraint. */
  lemma BulkPreservesValid(t: Tables, body: Option<BulkInput>, newId: nat -> Id, dbUuid: string -> Option<Id>)
    requires Valid(t)
    ensures Valid(BulkOutcome(t, body, newId, dbUuid).tables)
  {
    if body.Some? && dbUuid(body.value.courtId).Some? {
      var rows := BulkRows(body.value.(courtId := dbUuid(body.value.courtId).value));
      if InsertSchedules(t, rows, newId).Some? {
        InsertSchedulesKeepsValid(t, rows, newId);
      }
    }
  }

  // ---------------------------------------------------------------- PUT /admin/schedules/:id

  /**
   * `PUT /admin/schedules/:id`: 404 for an unknown schedule, then 400 when
   * the body does not parse; otherwise the schedule's `is_available` takes
   * the body's value (false when the field is missing) and nothing else changes.
   * `body` is the parsed `is_available`.
   */
  function UpdateOutcome(t: Tables, id: Id, body: Option<bool>): (o: Outcome)
    ensures o.status in {OK, NotFound, BadRequest}
    ensures o.status == NotFound <==> id !in t.schedules
    ensures o.status == BadRequest <==> id in t.schedules && body.None?
    ensures o.status != OK ==> o.tables == t
    ensures o.status == OK ==>
      o.tables.schedules == t.schedules[id := t.schedules[id].(isAvailable := body.value)]
      && o.tables.users == t.users && o.tables.courts == t.courts
      && o.tables.reservations == t.reservations && o.tables.payments == t.payments
  {
    if id !in t.schedules then Outcome(t, NotFound)
    else if body.None? then Outcome(t, BadRequest)
    else Outcome(SetAvailability(t, id, body.value), OK)
  }

  /** The path text is read by the database as the `uuid` key: one it cannot read finds no row. */
  method UpdateSchedule(db: Database, pathId: string, body: Option<bool>, dbUuid: string -> Option<Id>)
    returns (status: int, schedule: Schedule)
    modifies db
    ensures dbUuid(pathId).None? ==> status == NotFound && db.tables == old(db.tables)
    ensures dbUuid(pathId).Some? ==> Outcome(db.tables, status) == UpdateOutcome(old(db.tables), dbUuid(pathId).value, body)
    ensures status == OK ==> dbUuid(pathId).Some? && schedule == db.tables.schedules[dbUuid(pathId).value]
  {
    var key := dbUuid(pathId);
    if key.None? {
      return NotFound, ScheduleModel.Schedule("", ZeroDate, "", "", false);
    }
    var id := key.value;
    if id !in db.tables.schedules {
      return NotFound, ScheduleModel.Schedule("", ZeroDate, "", "", false);
    }
    schedule := db.tables.schedules[id];
    if body.None? {
      return BadRequest, schedule;
    }
    schedule := schedule.(isAvailable := body.value);
    db.tables := db.tables.(schedules := db.tables.schedules[id := schedule]);
    status := OK;
  }

  /** Sending the same value twice changes nothing the second time. */
  lemma UpdateIdempotent(t: Tables, id: Id, b: bool)
    requires UpdateOutcome(t, id, Some(b)).status == OK
    ensures var u := UpdateOutcome(t, id, Some(b)).tables;
      UpdateOutcome(u, id, Some(b)) == Outcome(u, OK)
  {
    var u := UpdateOutcome(t, id, Some(b)).tables;
    assert u.schedules[id := u.schedules[id].(isAvailable := b)] == u.schedules;
  }

  lemma UpdatePreservesValid(t: Tables, id: Id, body: Option<bool>)
    requires Valid(t)
    ensures Valid(UpdateOutcome(t, id, body).tables)
  {
    if id in t.schedules && body.Some? {
      SetAvailabilityKeepsValid(t, id, body.value);
    }
  }
}
