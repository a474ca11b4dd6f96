/**
 * The admin's weekly schedule grid (frontend/src/app/admin/schedules/page.tsx):
 * a week of seven days starting on a Monday, fifteen hourly rows, and in each
 * cell the first listed schedule of that day and hour. A calendar day is its
 * day number (`Calendar.DayNumber`, 0001-01-01 is 0 and a Monday); the
 * browser's local day is taken to be the day `toISOString` prints.
 */
module ScheduleGrid {
  import opened Wrappers
  import opened Strings
  import opened Calendar
  import opened Http
  import opened Store
  import opened ScheduleController

  /** One row of `GET /admin/schedules` as the page reads it. */
  datatype GridSchedule = GridSchedule(id: string, date: string, startTime: string, endTime: string, isAvailable: bool, courtName: string)

  /** The row labels of the grid. */
  const TimeSlots: seq<string> := [
    "07:00", "08:00", "09:00", "10:00", "11:00", "12:00",
    "13:00", "14:00", "15:00", "16:00", "17:00", "18:00",
    "19:00", "20:00", "21:00"
  ]

  /** The rows are the fifteen full hours from 07:00 to 21:00, in order. */
  lemma TimeSlotsAreHours()
    ensures |TimeSlots| == 15
    ensures forall i :: 0 <= i < |TimeSlots| ==> TimeSlots[i] == Digits2(7 + i) + ":00"
  {
  }

  // ---------------------------------------------------------------- weeks

  /**
   * The Monday `getWeekDates` starts from: `date - day + (day == 0 ? -6 : 1)`
   * with `day` the JavaScript weekday (0 is Sunday).
   */
  function MondayOf(n: int): (m: int)
    ensures m <= n < m + 7
    ensures JsWeekday(m) == 1
    ensures JsWeekday(n) == 0 ==> m == n - 6
  {
    var day := JsWeekday(n);
    n - day + (if day == 0 then -6 else 1)
  }

  /** The seven days of the week holding day n, Monday first. */
  function WeekOf(n: int): (week: seq<int>)
    ensures |week| == 7
    ensures forall i :: 0 <= i < 7 ==> week[i] == MondayOf(n) + i
    ensures n in week
  {
    var w := seq(7, i requires 0 <= i < 7 => MondayOf(n) + i);
    assert w[n - MondayOf(n)] == n;
    w
  }

  /** Every day of a shown week shows that same week. */
  lemma WeekOfItsDays(n: int, i: int)
    requires 0 <= i < 7
    ensures WeekOf(WeekOf(n)[i]) == WeekOf(n)
  {
    var m := MondayOf(n);
    var k := m + i;
    assert JsWeekday(k) == (i + 1) % 7;
    assert MondayOf(k) == m;
  }

  /** Shifting the day by a week shifts the shown week by a week. */
  lemma ShiftedWeek(n: int, delta: int)
    requires delta == 7 || delta == -7
    ensures forall i :: 0 <= i < 7 ==> WeekOf(n + delta)[i] == WeekOf(n)[i] + delta
  {
    assert JsWeekday(n + delta) == JsWeekday(n);
  }

  /** A browser `Date`, reduced to its local calendar day. */
  class JsDate {
    var day: int

    constructor (day: int)
      ensures this.day == day
    {
      this.day := day;
    }
  }

  /**
   * `getWeekDates(startDate)`: moves `startDate` back to its Monday (the
   * `setDate` call changes the argument) and lists seven days from it.
   */
  method GetWeekDates(startDate: JsDate) returns (dates: seq<int>)
    modifies startDate
    ensures startDate.day == MondayOf(old(startDate.day))
    ensures dates == WeekOf(old(startDate.day))
  {
    var day := JsWeekday(startDate.day);
    var diff := startDate.day - day + (if day == 0 then -6 else 1);
    startDate.day := diff;
    var monday := startDate.day;
    dates := [];
    var i := 0;
    while i < 7
      invariant 0 <= i <= 7 && |dates| == i
      invariant forall k :: 0 <= k < i ==> dates[k] == monday + k
    {
      dates := dates + [monday + i];
      i := i + 1;
    }
  }

  // ---------------------------------------------------------------- cells

  /**
   * `getSlot(date, time)`: the first schedule whose date part is the day's
   * "YYYY-MM-DD" and whose start time begins with the row hour.
   */
  function SlotAt(schedules: seq<GridSchedule>, dayText: string, hour: string): (r: Option<GridSchedule>)
    ensures r.None? <==> forall i :: 0 <= i < |schedules| ==> !InCell(schedules[i], dayText, hour)
    ensures r.Some? ==> exists i :: 0 <= i < |schedules| && schedules[i] == r.value && InCell(r.value, dayText, hour)
                          && forall k :: 0 <= k < i ==> !InCell(schedules[k], dayText, hour)
  {
    if schedules == [] then None
    else if InCell(schedules[0], dayText, hour) then Some(schedules[0])
    else
      var r := SlotAt(schedules[1..], dayText, hour);
      SlotLater(schedules, dayText, hour, r);
      r
  }

  predicate InCell(s: GridSchedule, dayText: string, hour: string) {
    BeforeFirst(s.date, 'T') == dayText && Take(s.startTime, 5) == hour
  }

  lemma SlotLater(schedules: seq<GridSchedule>, dayText: string, hour: string, r: Option<GridSchedule>)
    requires schedules != [] && !InCell(schedules[0], dayText, hour)
    requires r == SlotAt(schedules[1..], dayText, hour)
    ensures r.None? <==> forall i :: 0 <= i < |schedules| ==> !InCell(schedules[i], dayText, hour)
    ensures r.Some? ==> exists i :: 0 <= i < |schedules| && schedules[i] == r.value && InCell(r.value, dayText, hour)
                          && forall k :: 0 <= k < i ==> !InCell(schedules[k], dayText, hour)
  {
    if r.Some? {
      var i :| 0 <= i < |schedules[1..]| && schedules[1..][i] == r.value && InCell(r.value, dayText, hour)
               && forall k :: 0 <= k < i ==> !InCell(schedules[1..][k], dayText, hour);
      assert schedules[i + 1] == r.value;
      forall k | 0 <= k < i + 1 ensures !InCell(schedules[k], dayText, hour) {
        if k > 0 { assert schedules[k] == schedules[1..][k - 1]; }
      }
    } else {
      forall i | 0 <= i < |schedules| ensures !InCell(schedules[i], dayText, hour) {
        if i > 0 { assert schedules[i] == schedules[1..][i - 1]; }
      }
    }
  }

  /** A schedule starting at "09:30" shows in no row: a cell matches the start's HH:MM exactly. */
  lemma HalfHourInNoRow(s: GridSchedule, dayText: string)
    requires Take(s.startTime, 5) == "09:30"
    ensures forall i :: 0 <= i < |TimeSlots| ==> !InCell(s, dayText, TimeSlots[i])
  {
  }

  // ---------------------------------------------------------------- fetch range and toggle

  /** The day text `toISOString().split('T')[0]` gives for day n. */
  function DayText(n: nat): string {
    Format(FromDayNumber(n))
  }

  /**
   * The range `fetchSchedules` asks for, `start_date` = the week's Monday and
   * `end_date` = its Sunday, selects on the backend exactly the dates of the
   * week shown.
   */
  lemma FetchRangeIsWeek(n: int, dbDate: string -> Option<Date>)
    requires ReadsIsoDates(dbDate)
    requires MondayOf(n) >= 0 && FromDayNumber(MondayOf(n) + 6).year <= 9999
    ensures var week := WeekOf(n);
      DateFilterOf(DayText(week[0]), DayText(week[6]), dbDate) == Some(Between(FromDayNumber(week[0]), FromDayNumber(week[6])))
      && forall d :: ValidDate(d) ==>
           (Matches(Between(FromDayNumber(week[0]), FromDayNumber(week[6])), d) <==> DayNumber(d) in week)
  {
    var week := WeekOf(n);
    var lo := FromDayNumber(week[0]);
    var hi := FromDayNumber(week[6]);
    assert lo.year <= hi.year <= 9999 by {
      DateLeIffDayNumberLe(lo, hi);
    }
    ParseFormat(lo);
    ParseFormat(hi);
    IsoRangeFilter(DayText(week[0]), DayText(week[6]), dbDate);
    forall d | ValidDate(d)
      ensures Matches(Between(lo, hi), d) <==> DayNumber(d) in week
    {
      DateLeIffDayNumberLe(lo, d);
      DateLeIffDayNumberLe(d, hi);
      if week[0] <= DayNumber(d) <= week[6] {
        assert week[DayNumber(d) - week[0]] == DayNumber(d);
      }
    }
  }

  /** The body the toggle button sends: `is_available` negated. */
  function ToggleBody(s: GridSchedule): (b: Option<bool>)
    ensures b.Some? && b.value != s.isAvailable
  {
    Some(!s.isAvailable)
  }

  /**
   * When the grid shows the stored flag, the toggle request flips it on the
   * backend, and a second toggle of the refreshed row restores the table.
   */
  lemma ToggleFlipsStoredFlag(t: Tables, s: GridSchedule)
    requires s.id in t.schedules && s.isAvailable == t.schedules[s.id].isAvailable
    ensures var o := UpdateOutcome(t, s.id, ToggleBody(s));
      o.status == OK && o.tables.schedules[s.id].isAvailable == !s.isAvailable
      && UpdateOutcome(o.tables, s.id, ToggleBody(s.(isAvailable := !s.isAvailable))).tables == t
  {
    var o := UpdateOutcome(t, s.id, ToggleBody(s));
    var back := UpdateOutcome(o.tables, s.id, ToggleBody(s.(isAvailable := !s.isAvailable))).tables;
    assert back.schedules == t.schedules;
  }

  // ---------------------------------------------------------------- the page

  class ScheduleManager {
    var currentDate: int
    var weekDates: seq<int>
    /** The ids of the courts the selector offers. */
    var courts: seq<string>
    var selectedCourtId: string
    var schedules: seq<GridSchedule>
    /** The (court_id, start_date, end_date) queries sent, in order. */
    var queries: seq<(string, string, string)>

    /** The page on day `today`, before the courts have loaded. */
    constructor (today: int)
      ensures currentDate == today && weekDates == WeekOf(today)
      ensures courts == [] && selectedCourtId == "" && schedules == [] && queries == []
    {
      currentDate := today;
      courts := [];
      selectedCourtId := "";
      schedules := [];
      queries := [];
      new;
      var copy := new JsDate(today);
      weekDates := GetWeekDates(copy);
    }

    /** `handlePrevWeek` with the effect that recomputes the week from a copy of the new current date. */
    method PrevWeek()
      modifies this
      ensures currentDate == old(currentDate) - 7
      ensures weekDates == WeekOf(currentDate)
      ensures courts == old(courts) && selectedCourtId == old(selectedCourtId)
      ensures schedules == old(schedules) && queries == old(queries)
    {
      currentDate := currentDate - 7;
      var copy := new JsDate(currentDate);
      weekDates := GetWeekDates(copy);
    }

    /** `handleNextWeek`, likewise. */
    method NextWeek()
      modifies this
      ensures currentDate == old(currentDate) + 7
      ensures weekDates == WeekOf(currentDate)
      ensures courts == old(courts) && selectedCourtId == old(selectedCourtId)
      ensures schedules == old(schedules) && queries == old(queries)
    {
      currentDate := currentDate + 7;
      var copy := new JsDate(currentDate);
      weekDates := GetWeekDates(copy);
    }

    /**
     * `fetchSchedules`: nothing without a court or a week; otherwise the
     * week's range is queried and, when `answer` holds rows, they replace
     * the shown schedules (a failed request leaves them).
     */
    method FetchSchedules(answer: Option<seq<GridSchedule>>)
      requires forall i :: 0 <= i < |weekDates| ==> weekDates[i] >= 0
      modifies this
      ensures currentDate == old(currentDate) && weekDates == old(weekDates)
      ensures courts == old(courts) && selectedCourtId == old(selectedCourtId)
      ensures selectedCourtId == "" || |weekDates| == 0 ==> schedules == old(schedules) && queries == old(queries)
      ensures selectedCourtId != "" && |weekDates| > 6 ==>
        queries == old(queries) + [(selectedCourtId, DayText(weekDates[0]), DayText(weekDates[6]))]
        && schedules == (if answer.Some? then answer.value else old(schedules))
    {
      if selectedCourtId == "" || |weekDates| == 0 {
        return;
      }
      if |weekDates| > 6 {
        queries := queries + [(selectedCourtId, DayText(weekDates[0]), DayText(weekDates[6]))];
        if answer.Some? {
          schedules := answer.value;
        }
      }
    }

    /**
     * `fetchCourts`: the listed courts replace the selector's options, and the
     * first of them is selected when none is yet; a failed request changes nothing.
     */
    method FetchCourts(answer: Option<seq<string>>)
      modifies this
      ensures currentDate == old(currentDate) && weekDates == old(weekDates)
      ensures schedules == old(schedules) && queries == old(queries)
      ensures answer.None? ==> courts == old(courts) && selectedCourtId == old(selectedCourtId)
      ensures answer.Some? ==> courts == answer.value
      ensures answer.Some? && |answer.value| > 0 && old(selectedCourtId) == "" ==> selectedCourtId == answer.value[0]
      ensures answer.Some? && (|answer.value| == 0 || old(selectedCourtId) != "") ==> selectedCourtId == old(selectedCourtId)
    {
      if answer.Some? {
        courts := answer.value;
        if |answer.value| > 0 && selectedCourtId == "" {
          selectedCourtId := answer.value[0];
        }
      }
    }

    /** The court selector's `onChange`: the chosen court becomes the selected one. */
    method ChooseCourt(id: string)
      modifies this
      ensures selectedCourtId == id
      ensures currentDate == old(currentDate) && weekDates == old(weekDates) && courts == old(courts)
      ensures schedules == old(schedules) && queries == old(queries)
    {
      selectedCourtId := id;
    }
  }
}
