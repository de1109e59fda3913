/**
 * Calendar vocabulary shared by the date-only parsers and the formatters:
 * the proleptic Gregorian calendar that JavaScript's `Date` follows, and a
 * `Date` value described by its calendar fields instead of by time-zone
 * arithmetic.
 */
module Calendar {

  /** A calendar day: `month` counts from 1 as the strings do (`getMonth() + 1`). */
  datatype Ymd = Ymd(year: int, month: int, day: int)

  predicate IsLeapYear(y: int)
  {
    (y % 4 == 0 && y % 100 != 0) || y % 400 == 0
  }

  function DaysInMonth(y: int, m: int): (n: int)
    requires 1 <= m <= 12
    ensures 28 <= n <= 31
    ensures m == 2 ==> (n == 29 <==> IsLeapYear(y))
  {
    if m == 2 then (if IsLeapYear(y) then 29 else 28)
    else if m == 4 || m == 6 || m == 9 || m == 11 then 30
    else 31
  }

  /** A day that exists in the calendar. */
  predicate ValidYmd(y: int, m: int, d: int)
  {
    1 <= m <= 12 && 1 <= d <= DaysInMonth(y, m)
  }

  /**
   * The fields of a `Date` as its getters report them (`getFullYear`,
   * `getMonth() + 1`, `getDate`, `getHours`, `getMinutes`, `getSeconds`),
   * either in UTC or in the server's local time zone.
   */
  datatype DateFields = DateFields(year: int, month: int, day: int, hour: int, minute: int, second: int)

  /** Fields in the ranges the `Date` getters return. */
  predicate FieldsInRange(f: DateFields)
  {
    ValidYmd(f.year, f.month, f.day) && 0 <= f.hour < 24 && 0 <= f.minute < 60 && 0 <= f.second < 60
  }

  /**
   * A JavaScript `Date`: an invalid one (`getTime()` is NaN), or an instant in
   * epoch milliseconds with its UTC and local calendar fields. How the fields
   * follow from the instant and the time zone is not part of this model.
   */
  datatype JsDate = InvalidDate | ValidDate(ms: int, utc: DateFields, local: DateFields)
}
