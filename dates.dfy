/**
 * Calendar positions as far as the order store looks at them. A timestamp is only ever
 * inspected through its year and its zero-based month (`getFullYear`, `getMonth`), so a
 * timestamp is modelled by that pair.
 */
module Dates {

  datatype YearMonth = YearMonth(year: int, month: int)

  /** Both the month and the year agree: the test of the statistics handler. */
  predicate SameMonth(a: YearMonth, b: YearMonth) {
    a.month == b.month && a.year == b.year
  }
}
