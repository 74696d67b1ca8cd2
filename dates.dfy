/** JavaScript `Date` values as the browser's local calendar reads them. */
module Dates {

  /** A point in local time: the year, the month counted from 0 as `getMonth()`
      returns it, the day of the month as `getDate()` returns it, and the
      milliseconds since local midnight. */
  datatype DateTime = DateTime(year: int, month: int, day: int, millis: int)

  /** The ranges a `Date` built by JavaScript always normalises its fields into. */
  predicate IsNormalised(d: DateTime) {
    0 <= d.month < 12 && 1 <= d.day <= 31 && 0 <= d.millis < 86400000
  }

  /** a is strictly earlier than b (`a < b` on two dates). */
  predicate Before(a: DateTime, b: DateTime) {
    a.year < b.year ||
    (a.year == b.year && (a.month < b.month ||
    (a.month == b.month && (a.day < b.day ||
    (a.day == b.day && a.millis < b.millis)))))
  }

  /** Two dates are never each before the other. */
  lemma BeforeAsymmetric(a: DateTime, b: DateTime)
    ensures !(Before(a, b) && Before(b, a))
  {
  }

  /** "Not before" is transitive, as `>=` on timestamps is. */
  lemma NotBeforeTransitive(a: DateTime, b: DateTime, c: DateTime)
    requires !Before(a, b) && !Before(b, c)
    ensures !Before(a, c)
  {
  }
}
