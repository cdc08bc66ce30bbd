/** Calendar dates as JavaScript's `Date` getters report them. */
module Calendar {

  /** `getFullYear()`, the zero-based `getMonth()` and `getDate()` of one instant. */
  datatype DateParts = DateParts(year: int, month: int, day: int)

  predicate InRange(d: DateParts) { 0 <= d.month <= 11 && 1 <= d.day <= 31 }

  /** What the getters of a valid `Date` can return. */
  type CalendarDate = d: DateParts | InRange(d) witness DateParts(1970, 0, 1)
}
