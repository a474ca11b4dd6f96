/** The `schedules` table row (backend/models/schedule.go). */
module ScheduleModel {
  import opened Columns
  import opened Calendar

  /** One bookable slot of a court on a date (a date-only column); start and end are `varchar(10)`. */
  datatype Schedule = Schedule(courtId: Id, date: Date, startTime: string, endTime: string, isAvailable: bool)

  /** The row an insert stores: a zero (false) `is_available` is left to the column default, true. */
  function WithDefaults(s: Schedule): (r: Schedule)
    ensures r.isAvailable
    ensures r.courtId == s.courtId && r.date == s.date && r.startTime == s.startTime && r.endTime == s.endTime
  {
    s.(isAvailable := true)
  }

  /** The column constraints: a real calendar date and start/end times that fit `varchar(10)`. */
  predicate Fits(s: Schedule) {
    ValidDate(s.date) && FitsVarchar10(s.startTime) && FitsVarchar10(s.endTime)
  }
}
