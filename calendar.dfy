/**
 * Calendar arithmetic the storefront gets from JavaScript's `Date`: day numbers
 * (days since 1970-01-01) to civil dates, the `YYYY-MM-DD` string that
 * `toISOString().split('T')[0]` yields, and the local date-time value that
 * `new Date(year, monthIndex, day, hour, minute)` builds.
 */
module Calendar {
  import opened JsText
  import opened ScheduleTypes

  datatype CivilDate = CivilDate(year: int, month: int, day: int)

  /** The proleptic Gregorian date of day number `z` (days since 1970-01-01). */
  function CivilFromDays(z: int): CivilDate {
    var z' := z + 719468;
    var era := z' / 146097;
    var doe := z' - era * 146097;
    var yoe := (doe - doe / 1460 + doe / 36524 - doe / 146096) / 365;
    var doy := doe - (365 * yoe + yoe / 4 - yoe / 100);
    var mp := (5 * doy + 2) / 153;
    var d := doy - (153 * mp + 2) / 5 + 1;
    var m := if mp < 10 then mp + 3 else mp - 9;
    var y := yoe + era * 400;
    CivilDate(if m <= 2 then y + 1 else y, m, d)
  }

  /** The weekday of a day number: 1970-01-01 was a Thursday. */
  function EpochWeekday(z: int): Weekday {
    match z % 7
    case 0 => Thursday
    case 1 => Friday
    case 2 => Saturday
    case 3 => Sunday
    case 4 => Monday
    case 5 => Tuesday
    case _ => Wednesday
  }

  /** The year field of the ECMAScript date-time string format (extended years beyond 0000..9999). */
  function YearString(y: int): string {
    if 0 <= y <= 9999 then PadStart(Digits(y), 4, '0')
    else if y > 9999 then "+" + PadStart(Digits(y), 6, '0')
    else "-" + PadStart(Digits(-y), 6, '0')
  }

  /** `YYYY-MM-DD`. */
  function IsoDate(c: CivilDate): string {
    YearString(c.year) + "-" + Pad2(c.month) + "-" + Pad2(c.day)
  }

  /** The capacity-ledger key of a day number. */
  function DateKey(z: int): string {
    IsoDate(CivilFromDays(z))
  }

  /**
   * A JavaScript `Date` built from local components (the month 0-based), kept
   * as given; `InvalidDate` is the object a NaN component produces, which is
   * still a `Date` and not null.
   */
  datatype Timestamp =
    | LocalDateTime(year: int, monthIndex: int, day: int, hour: int, minute: int)
    | InvalidDate
}
