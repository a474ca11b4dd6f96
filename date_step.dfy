/**
 * The first wizard step (frontend/src/components/wizard/DateStep.tsx): the
 * open dates the backend lists are read back from their "YYYY-MM-DD" texts
 * into local dates, and the date picker lets the member choose one of them
 * between today and thirty days ahead.
 */
module DateStep {
  import opened Wrappers
  import opened Strings
  import opened Calendar
  import opened Store
  import opened ReservationQueries

  /**
   * A JavaScript `Date` built from year, month and day fields: the calendar
   * day when every field is in range, Rolled when a field is out of range
   * (the browser carries it into the next month or year; not followed here),
   * Invalid when a field is NaN.
   */
  datatype JsDay = Exact(date: Date) | Rolled | Invalid

  /** JavaScript `Number(s)` of a text of decimal digits: the empty text is 0, any other text is NaN (None). */
  function JsNumber(s: string): (r: Option<nat>)
    ensures AllDigits(s) <==> r.Some?
    ensures r.Some? ==> r.value == DigitsValue(s)
  {
    if AllDigits(s) then Some(DigitsValue(s)) else None
  }

  /** `new Date(year, monthIndex, day)`: years 0 to 99 are taken as 1900 to 1999. */
  function NewDate(year: nat, monthIndex: int, day: nat): (d: JsDay)
    ensures d.Exact? ==> ValidDate(d.date) && d.date.month == monthIndex + 1 && d.date.day == day
    ensures d.Exact? ==> d.date.year == if year < 100 then 1900 + year else year
  {
    var y := if year < 100 then 1900 + year else year;
    if 0 <= monthIndex < 12 && ValidDate(Date(y, monthIndex + 1, day)) then Exact(Date(y, monthIndex + 1, day))
    else Rolled
  }

  /** One text of the list: split on '-', each part read by `Number`, month less one. */
  function ParseDay(s: string): (d: JsDay)
    ensures d.Exact? ==> |Split(s, '-')| >= 3
  {
    var parts := Split(s, '-');
    if |parts| < 3 then Invalid
    else match (JsNumber(parts[0]), JsNumber(parts[1]), JsNumber(parts[2]))
      case (Some(y), Some(m), Some(day)) => NewDate(y, m as int - 1, day)
      case _ => Invalid
  }

  /** The date texts of the answer, read one by one; a missing `dates` field gives none. */
  function ParseAll(dates: Option<seq<string>>): (days: seq<JsDay>)
    ensures dates.None? ==> days == []
    ensures dates.Some? ==> |days| == |dates.value| && forall i :: 0 <= i < |days| ==> days[i] == ParseDay(dates.value[i])
  {
    match dates
    case None => []
    case Some(ds) => seq(|ds|, i requires 0 <= i < |ds| => ParseDay(ds[i]))
  }

  lemma NoDashInDigits(s: string)
    requires AllDigits(s)
    ensures '-' !in s
  {
  }

  /** A date the backend formats splits back into its three number fields. */
  lemma SplitOfFormat(d: Date)
    requires ValidDate(d) && d.year <= 9999
    ensures Split(Format(d), '-') == [Digits4(d.year), Digits2(d.month), Digits2(d.day)]
  {
    var fields := [Digits4(d.year), Digits2(d.month), Digits2(d.day)];
    NoDashInDigits(fields[0]);
    NoDashInDigits(fields[1]);
    NoDashInDigits(fields[2]);
    assert Join(fields, '-') == Format(d) by {
      assert Join(fields[1..], '-') == fields[1] + ['-'] + fields[2];
    }
    JoinThenSplit(fields, '-');
  }

  /**
   * The texts the backend writes for dates from year 100 on read back as the
   * same dates; those of years 1 to 99 come back 1900 years later.
   */
  lemma ParseDayOfFormat(d: Date)
    requires ValidDate(d) && d.year <= 9999
    ensures d.year >= 100 ==> ParseDay(Format(d)) == Exact(d)
    ensures d.year < 100 ==> ParseDay(Format(d)) == Exact(d.(year := 1900 + d.year))
  {
    SplitOfFormat(d);
    var parts := Split(Format(d), '-');
    assert JsNumber(parts[0]) == Some(d.year);
    assert JsNumber(parts[1]) == Some(d.month);
    assert JsNumber(parts[2]) == Some(d.day);
    assert ParseDay(Format(d)) == NewDate(d.year, d.month - 1, d.day);
    if d.year < 100 {
      ShiftedYearIsValid(d);
    }
  }

  /** Moving a date of years 1 to 99 by 1900 years keeps it valid: the leap years line up. */
  lemma ShiftedYearIsValid(d: Date)
    requires ValidDate(d) && d.year < 100
    ensures ValidDate(d.(year := 1900 + d.year))
  {
    assert IsLeapYear(1900 + d.year) == IsLeapYear(d.year);
  }

  /**
   * A day the picker lets the member choose: from today through today + 30
   * (`minDate`/`maxDate`, compared by day) and among `includeDates`.
   */
  predicate Selectable(d: Date, today: Date, includeDates: seq<JsDay>)
    requires ValidDate(today)
  {
    ValidDate(d) && DateLe(today, d) && DayNumber(d) <= DayNumber(today) + 30 && Exact(d) in includeDates
  }

  /** The texts of dates from year 100 to 9999 read back as exactly those dates. */
  lemma ParsedTextsAreDays(days: seq<Date>, texts: seq<string>)
    requires |texts| == |days|
    requires forall i :: 0 <= i < |days| ==> ValidDate(days[i]) && 100 <= days[i].year <= 9999 && texts[i] == Format(days[i])
    ensures forall x :: Exact(x) in ParseAll(Some(texts)) <==> x in days
  {
    var parsed := ParseAll(Some(texts));
    forall i | 0 <= i < |days| ensures parsed[i] == Exact(days[i]) {
      ParseDayOfFormat(days[i]);
    }
    forall x ensures Exact(x) in parsed <==> x in days {
      if Exact(x) in parsed {
        var i :| 0 <= i < |parsed| && parsed[i] == Exact(x);
        assert x == days[i];
      }
      if x in days {
        var i :| 0 <= i < |days| && days[i] == x;
        assert parsed[i] == Exact(x);
      }
    }
  }

  /**
   * Fed with the backend's list of open dates (years 100 to 9999), the
   * picker offers exactly the open dates of the next thirty days.
   */
  lemma SelectableAreOpenDates(t: Tables, today: Date, days: seq<Date>, texts: seq<string>, d: Date)
    requires ValidDate(today)
    requires forall x :: x in days <==> x in OpenDates(t, today)
    requires |texts| == |days|
    requires forall i :: 0 <= i < |days| ==> ValidDate(days[i]) && 100 <= days[i].year <= 9999 && texts[i] == Format(days[i])
    ensures Selectable(d, today, ParseAll(Some(texts))) <==>
      ValidDate(d) && d in OpenDates(t, today) && DayNumber(d) <= DayNumber(today) + 30
  {
    ParsedTextsAreDays(days, texts);
  }

  /** The picker's `onChange`: only a picked date reaches `onSelect`; clearing the picker keeps the selection. */
  function OnChange(picked: Option<Date>, selected: Option<Date>): (r: Option<Date>)
    ensures picked.Some? ==> r == picked
    ensures picked.None? ==> r == selected
  {
    if picked.Some? then picked else selected
  }

  /** "Next Step" is disabled while no date is selected. */
  predicate NextDisabled(selected: Option<Date>) {
    selected.None?
  }

  /** Once a date is chosen the step can be left: a later `onChange` never disables Next again. */
  lemma ChosenDateStays(picked: Option<Date>, selected: Option<Date>)
    requires !NextDisabled(selected)
    ensures !NextDisabled(OnChange(picked, selected))
  {
  }

  /** What the backend answered `GET /dates/available`: a failure, or a body whose `dates` may be missing. */
  datatype DatesAnswer = DatesFailed | DatesBody(dates: Option<seq<string>>)

  class DatePickerStep {
    var availableDates: seq<JsDay>
    var loading: bool

    /** The step as first shown: no dates yet, loading. */
    constructor ()
      ensures availableDates == [] && loading
    {
      availableDates := [];
      loading := true;
    }

    /** `fetchDates`: the read dates replace the list; a failed request leaves it. Loading ends either way. */
    method FetchDates(answer: DatesAnswer)
      modifies this
      ensures !loading
      ensures answer.DatesFailed? ==> availableDates == old(availableDates)
      ensures answer.DatesBody? ==> availableDates == ParseAll(answer.dates)
    {
      if answer.DatesBody? {
        availableDates := ParseAll(answer.dates);
      }
      loading := false;
    }
  }
}
