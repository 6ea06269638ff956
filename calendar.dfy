/**
 * Dates. The engine keeps dates as "YYYY-MM-DD" strings and compares them as strings,
 * which orders them like the days they name; here a date is its day number counted
 * from 1970-01-01, so "today - 7 days" is `today - 7` and string comparison is `<=`.
 */
module Calendar {

  type Day = int

  /** Year and month of a day number (civil_from_days), as the number `year * 100 + month`. */
  function MonthKey(d: Day): int
  {
    var z := d + 719468;
    var era := z / 146097;
    var doe := z - era * 146097;
    var yoe := (doe - doe / 1460 + doe / 36524 - doe / 146096) / 365;
    var doy := doe - (365 * yoe + yoe / 4 - yoe / 100);
    var mp := (5 * doy + 2) / 153;
    var month := if mp < 10 then mp + 3 else mp - 9;
    var year := yoe + era * 400 + (if month <= 2 then 1 else 0);
    year * 100 + month
  }

  /** The date the atom migration falls back to when an atom has none: 2026-01-01. */
  const DefaultAtomDate: Day := 20454
}
