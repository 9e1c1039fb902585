/**
 * The date helper the calendar navigator uses: a table of the Indonesian month names
 * and the decomposition of a date into year, 1-based month, month name and day.
 */
module Helper {
  import opened Wrappers

  /** The twelve month names as the portal's date picker renders them. */
  const MonthsIdn: seq<string> := [
    "Januari", "Februari", "Maret", "April", "Mei", "Juni",
    "Juli", "Agustus", "September", "Oktober", "November", "Desember"
  ]

  /**
   * A calendar date as the JavaScript `Date` getters see it: the full year,
   * the 0-based month of `getMonth()` and the day of `getDate()`.
   */
  datatype Date = Date(year: int, month0: int, day: int)

  /** What a JavaScript `Date` always satisfies. */
  predicate ValidDate(d: Date)
  {
    0 <= d.month0 < 12 && 1 <= d.day <= 31
  }

  /** The record `decomposeDate` returns. */
  datatype DecomposedDate = DecomposedDate(year: int, month: int, monthName: string, day: int)

  function DecomposeDate(d: Date): (r: DecomposedDate)
    requires ValidDate(d)
    ensures 1 <= r.month <= 12
    ensures r.monthName == MonthsIdn[r.month - 1]
  {
    DecomposedDate(d.year, d.month0 + 1, MonthsIdn[d.month0], d.day)
  }

  lemma MonthsIdnDistinct()
    ensures |MonthsIdn| == 12
    ensures forall i, j :: 0 <= i < j < 12 ==> MonthsIdn[i] != MonthsIdn[j]
  {
  }

  /** The 1-based number of a month name, the inverse of the table lookup. */
  function MonthNumber(name: string): (r: Option<int>)
    ensures r.Some? ==> 1 <= r.value <= 12 && MonthsIdn[r.value - 1] == name
    ensures r.None? ==> name !in MonthsIdn
  {
    MonthNumberFrom(name, 0)
  }

  function MonthNumberFrom(name: string, i: nat): (r: Option<int>)
    requires i <= 12
    ensures r.Some? ==> i + 1 <= r.value <= 12 && MonthsIdn[r.value - 1] == name
    ensures r.None? ==> forall j :: i <= j < 12 ==> MonthsIdn[j] != name
    decreases 12 - i
  {
    if i == 12 then None
    else if MonthsIdn[i] == name then Some(i + 1)
    else MonthNumberFrom(name, i + 1)
  }

  /** The decomposition keeps the year and day and names the month it numbers. */
  lemma DecomposeDateSpec(d: Date)
    requires ValidDate(d)
    ensures DecomposeDate(d).year == d.year && DecomposeDate(d).day == d.day
    ensures DecomposeDate(d).month == d.month0 + 1
    ensures MonthNumber(DecomposeDate(d).monthName) == Some(DecomposeDate(d).month)
  {
    MonthsIdnDistinct();
  }

  /** Because the names are distinct, the month name determines the month. */
  lemma MonthNameDeterminesMonth(d1: Date, d2: Date)
    requires ValidDate(d1) && ValidDate(d2)
    requires DecomposeDate(d1).monthName == DecomposeDate(d2).monthName
    ensures DecomposeDate(d1).month == DecomposeDate(d2).month
  {
    DecomposeDateSpec(d1);
    DecomposeDateSpec(d2);
  }
}
