/**
 * The date picker of the statement page, as values: a list of year-range pages with a
 * label such as "2016 - 2027" and a grid of year cells, the page shown when the year view
 * opens, and the month and day grids. The functions here are what `chooseDate` computes
 * from the widget: the label's two bounds, the year-range pagination and the first
 * matching cell of a grid in row-major order.
 */
module Calendar {
  import opened Wrappers
  import opened JsText

  /**
   * A `td` of a picker grid: its text, whether it is marked disabled (a month cell by
   * its class `disabled`, a day cell by a `span.disabled` inside it) and whether it holds
   * a `span`, which is what a day pick clicks.
   */
  datatype GridCell = GridCell(text: string, disabled: bool, hasSpan: bool)

  /** The `tbody` rows of a picker table. */
  type Grid = seq<seq<GridCell>>

  datatype YearPage = YearPage(rangeLabel: string, years: Grid)

  /**
   * `pages` in chronological order; "previous" is disabled on the first page and
   * "next" on the last one.
   */
  datatype Widget = Widget(pages: seq<YearPage>, home: nat, months: Grid, days: Grid)

  predicate WellFormed(w: Widget)
  {
    0 < |w.pages| && w.home < |w.pages|
  }

  const RangeSeparator: string := " - "

  /**
   * `parseInt(label.split(" - ")[0])`: a number only when the label has a digit.
   */
  function LabelStart(text: string): (r: Option<int>)
    ensures r.Some? ==> HasDigit(text)
  {
    var piece := Split(text, RangeSeparator)[0];
    assert piece <= text;
    var v := ParseInt(piece);
    assert v.Some? ==> HasDigit(text) by {
      if v.Some? {
        var i :| 0 <= i < |piece| && IsDigit(piece[i]);
        assert text[i] == piece[i];
      }
    }
    v
  }

  /**
   * `parseInt(label.split(" - ")[1])`, NaN when there is no second piece: a label
   * without the separator has no end year.
   */
  function LabelEnd(text: string): (r: Option<int>)
    ensures (forall j: nat :: !OccursAt(text, RangeSeparator, j)) ==> r.None?
  {
    var parts := Split(text, RangeSeparator);
    if |parts| > 1 then ParseInt(parts[1]) else None
  }

  lemma NoSpaceInDigits(s: string)
    requires AllDigits(s)
    ensures ' ' !in s
  {

  }

  /** A label "<a> - <b>" of two decimal numbers reads back as the range a..b. */
  lemma LabelOfRange(a: nat, b: nat)
    ensures LabelStart(NatToString(a) + RangeSeparator + NatToString(b)) == Some(a)
    ensures LabelEnd(NatToString(a) + RangeSeparator + NatToString(b)) == Some(b)
  {
    NoSpaceInDigits(NatToString(a));
    NoSpaceInDigits(NatToString(b));
    SplitAtFirst(NatToString(a), RangeSeparator, NatToString(b));
    SplitOfNoSeparatorChar(NatToString(b), RangeSeparator);
    ParseIntOfNatToString(a);
    ParseIntOfNatToString(b);
  }

  /** `v <= y` where `v` may be NaN, which compares false. */
  predicate AtMost(v: Option<int>, y: int) { v.Some? && v.value <= y }

  /** `v >= y` where `v` may be NaN, which compares false. */
  predicate AtLeast(v: Option<int>, y: int) { v.Some? && v.value >= y }

  /** The start year each page's label reads as, page by page. */
  function StartYears(pages: seq<YearPage>): (starts: seq<Option<int>>)
    ensures |starts| == |pages|
  {
    if pages == [] then [] else [LabelStart(pages[0].rangeLabel)] + StartYears(pages[1..])
  }

  lemma {:induction false} StartYearsAt(pages: seq<YearPage>, i: nat)
    requires i < |pages|
    ensures StartYears(pages)[i] == LabelStart(pages[i].rangeLabel)
  {
    if i > 0 {
      StartYearsAt(pages[1..], i - 1);
    }
  }

  /** The end year each page's label reads as, page by page. */
  function EndYears(pages: seq<YearPage>): (ends: seq<Option<int>>)
    ensures |ends| == |pages|
  {
    if pages == [] then [] else [LabelEnd(pages[0].rangeLabel)] + EndYears(pages[1..])
  }

  lemma {:induction false} EndYearsAt(pages: seq<YearPage>, i: nat)
    requires i < |pages|
    ensures EndYears(pages)[i] == LabelEnd(pages[i].rangeLabel)
  {
    if i > 0 {
      EndYearsAt(pages[1..], i - 1);
    }
  }

  /** Why the year-range loop stopped without reaching its target. */
  datatype TurnFailure =
    | ButtonMissing   // the navigation button never appeared
    | ButtonDisabled  // the button was disabled: "Cannot find previous year button"

  /**
   * Whether the button that `isStart` selects is enabled on page `idx` of `n` pages:
   * "previous" everywhere but on the first page, "next" everywhere but on the last.
   */
  predicate CanTurn(n: nat, idx: nat, isStart: bool)
  {
    if isStart then idx > 0 else idx + 1 < n
  }

  /**
   * The year-range loop of `chooseDate` as it is written, over the start years `starts`
   * the pages' labels read as: a start bound stops once the shown range starts at or
   * before `year`; an end bound stops once `curYearEnd`, the end year read BEFORE the loop
   * and never read again, is at or after `year`. Otherwise the button is clicked (or the
   * loop fails) and the start year of the new page is read.
   */
  function Paginate(starts: seq<Option<int>>, idx: nat, isStart: bool, year: int,
                    curYearEnd: Option<int>, buttonPresent: bool): (r: Result<nat, TurnFailure>)
    requires idx < |starts|
    ensures r.Success? ==> r.value < |starts|
    decreases if isStart then idx else |starts| - idx
  {
    if isStart && AtMost(starts[idx], year) then Success(idx)
    else if !isStart && AtLeast(curYearEnd, year) then Success(idx)
    else if !buttonPresent then Failure(ButtonMissing)
    else if !CanTurn(|starts|, idx, isStart) then Failure(ButtonDisabled)
    else Paginate(starts, if isStart then idx - 1 else idx + 1, isStart, year, curYearEnd, buttonPresent)
  }

  /**
   * For a start bound the loop lands on the nearest page at or before `idx` whose range
   * starts at or before `year`.
   */
  lemma {:induction false} PaginateStartLands(starts: seq<Option<int>>, idx: nat, year: int,
                                               e: Option<int>, present: bool)
    requires idx < |starts|
    ensures var r := Paginate(starts, idx, true, year, e, present);
      r.Success? ==> r.value <= idx && AtMost(starts[r.value], year)
                     && (forall k :: r.value < k <= idx ==> !AtMost(starts[k], year))
                     && (r.value < idx ==> present)
    decreases idx
  {
    if !AtMost(starts[idx], year) && present && idx > 0 {
      PaginateStartLands(starts, idx - 1, year, e, present);
    }
  }

  /**
   * For a start bound the loop fails with a disabled button exactly when no page at or
   * before `idx` starts at or before `year` (and the button was there to be clicked).
   */
  lemma {:induction false} PaginateStartFails(starts: seq<Option<int>>, idx: nat, year: int,
                                               e: Option<int>, present: bool)
    requires idx < |starts|
    ensures Paginate(starts, idx, true, year, e, present) == Failure(ButtonDisabled) <==>
      present && forall k :: 0 <= k <= idx ==> !AtMost(starts[k], year)
    ensures Paginate(starts, idx, true, year, e, present) == Failure(ButtonMissing) <==>
      !present && !AtMost(starts[idx], year)
    decreases idx
  {
    if !AtMost(starts[idx], year) && present && idx > 0 {
      PaginateStartFails(starts, idx - 1, year, e, present);
    }
  }

  /**
   * For an end bound the loop never moves: it stops at once when the end year read
   * before the loop covers `year`, and otherwise clicks "next" until the button is
   * disabled and fails, whatever the later pages show.
   */
  lemma {:induction false} PaginateEndBound(starts: seq<Option<int>>, idx: nat, year: int,
                                             e: Option<int>, present: bool)
    requires idx < |starts|
    ensures AtLeast(e, year) ==> Paginate(starts, idx, false, year, e, present) == Success(idx)
    ensures !AtLeast(e, year) ==>
      Paginate(starts, idx, false, year, e, present) == Failure(if present then ButtonDisabled else ButtonMissing)
    decreases |starts| - idx
  {
    if !AtLeast(e, year) && present && idx + 1 < |starts| {
      PaginateEndBound(starts, idx + 1, year, e, present);
    }
  }

  /** A start bound after the shown range still stops at once: the end year is not consulted. */
  lemma PaginateStartIgnoresEnd(starts: seq<Option<int>>, idx: nat, year: int, e: Option<int>, present: bool)
    requires idx < |starts| && AtMost(starts[idx], year) && !AtLeast(e, year)
    ensures Paginate(starts, idx, true, year, e, present) == Success(idx)
  {
  }

  /**
   * The intended loop: the label is re-read after every click and BOTH bounds are taken
   * from the page now shown, so an end bound pages forward to the range covering `year`.
   */
  function PaginateCorrected(starts: seq<Option<int>>, ends: seq<Option<int>>, idx: nat,
                             isStart: bool, year: int, buttonPresent: bool): (r: Result<nat, TurnFailure>)
    requires idx < |starts| == |ends|
    ensures r.Success? ==> r.value < |starts|
    decreases if isStart then idx else |starts| - idx
  {
    if isStart && AtMost(starts[idx], year) then Success(idx)
    else if !isStart && AtLeast(ends[idx], year) then Success(idx)
    else if !buttonPresent then Failure(ButtonMissing)
    else if !CanTurn(|starts|, idx, isStart) then Failure(ButtonDisabled)
    else PaginateCorrected(starts, ends, if isStart then idx - 1 else idx + 1, isStart, year, buttonPresent)
  }

  /** For the start bound the correction changes nothing. */
  lemma {:induction false} PaginateCorrectedStart(starts: seq<Option<int>>, ends: seq<Option<int>>,
                                                   idx: nat, year: int, e: Option<int>, present: bool)
    requires idx < |starts| == |ends|
    ensures PaginateCorrected(starts, ends, idx, true, year, present) == Paginate(starts, idx, true, year, e, present)
    decreases idx
  {
    if !AtMost(starts[idx], year) && present && idx > 0 {
      PaginateCorrectedStart(starts, ends, idx - 1, year, e, present);
    }
  }

  /**
   * The corrected end-bound loop lands on the nearest page at or after `idx` whose range
   * ends at or after `year`, and fails with a disabled button exactly when there is none.
   */
  lemma {:induction false} PaginateCorrectedEndBound(starts: seq<Option<int>>, ends: seq<Option<int>>,
                                                      idx: nat, year: int, present: bool)
    requires idx < |starts| == |ends|
    ensures var r := PaginateCorrected(starts, ends, idx, false, year, present);
      r.Success? ==> idx <= r.value && AtLeast(ends[r.value], year)
                     && forall k :: idx <= k < r.value ==> !AtLeast(ends[k], year)
    ensures PaginateCorrected(starts, ends, idx, false, year, present) == Failure(ButtonDisabled) <==>
      present && forall k :: idx <= k < |ends| ==> !AtLeast(ends[k], year)
    decreases |starts| - idx
  {
    if !AtLeast(ends[idx], year) && present && idx + 1 < |starts| {
      PaginateCorrectedEndBound(starts, ends, idx + 1, year, present);
    }
  }

  /**
   * Two year pages, "2016 - 2027" then "2028 - 2039" (read as those bounds, see
   * `LabelOfRange`), and an end date in 2030 with the first page shown: the second page
   * covers 2030, yet the loop as written fails with the disabled "next" button, while
   * the corrected loop lands on the second page.
   */
  lemma EndBoundDefectExample()
    ensures Paginate([Some(2016), Some(2028)], 0, false, 2030, Some(2027), true) == Failure(ButtonDisabled)
    ensures PaginateCorrected([Some(2016), Some(2028)], [Some(2027), Some(2039)], 0, false, 2030, true) == Success(1)
  {
    PaginateEndBound([Some(2016), Some(2028)], 0, 2030, Some(2027), true);
  }

  // ---------------------------------------------------------------------------
  // Grid search: `flatTds.find(...)` over the rows of a picker table

  /** `rows.map(tr => tds).flat()`: the cells in row-major order, every one of them kept. */
  function Flatten(g: Grid): (f: seq<GridCell>)
    ensures |g| > 0 ==> g[0] <= f
  {
    if g == [] then [] else g[0] + Flatten(g[1..])
  }

  /** Where row `r` starts in the flattened grid. */
  function Offset(g: Grid, r: nat): nat
    requires r <= |g|
  {
    |Flatten(g[..r])|
  }

  /** Cell `c` of row `r` sits at position `Offset(g, r) + c` of the flattened grid. */
  lemma {:induction false} FlattenAt(g: Grid, r: nat, c: nat)
    requires r < |g| && c < |g[r]|
    ensures Offset(g, r) + c < |Flatten(g)| && Flatten(g)[Offset(g, r) + c] == g[r][c]
  {
    if r == 0 {
      assert g[..0] == [];
    } else {
      assert g[..r][1..] == g[1..][..r - 1];
      assert g[..r] != [] && g[..r][0] == g[0];
      FlattenAt(g[1..], r - 1, c);
    }
  }

  /** Every cell of the grid is in the flattened grid. */
  lemma FlattenContains(g: Grid)
    ensures forall r, c :: 0 <= r < |g| && 0 <= c < |g[r]| ==> g[r][c] in Flatten(g)
  {
    forall r, c | 0 <= r < |g| && 0 <= c < |g[r]| ensures g[r][c] in Flatten(g) {
      FlattenAt(g, r, c);
    }
  }

  /** Offsets grow with the row number: earlier rows come first. */
  lemma {:induction false} OffsetMonotone(g: Grid, r: nat)
    requires r < |g|
    ensures Offset(g, r) + |g[r]| == Offset(g, r + 1)
  {
    if r == 0 {
      assert g[..1] == [g[0]] && g[..0] == [];
      assert Flatten(g[..1]) == g[0] + Flatten([]);
    } else {
      assert g[..r][1..] == g[1..][..r - 1];
      assert g[..r + 1][1..] == g[1..][..r];
      assert g[..r][0] == g[0] && g[..r + 1][0] == g[0];
      OffsetMonotone(g[1..], r - 1);
    }
  }

  /** What a cell must show to be picked for a year, a month or a day. */
  datatype Criterion = YearNumber(year: int) | MonthName(name: string) | DayNumber(day: nat)

  /**
   * Years compare `parseInt(text) === year` and ignore `disabled`; months compare the
   * trimmed text with the month name and days with `day.toString()`, and both skip
   * disabled cells.
   */
  predicate Matches(k: Criterion, c: GridCell)
    ensures Matches(k, c) ==> k.YearNumber? || !c.disabled
  {
    match k
    case YearNumber(y) => ParseInt(c.text) == Some(y)
    case MonthName(n) => Trim(c.text) == n && !c.disabled
    case DayNumber(d) => Trim(c.text) == NatToString(d) && !c.disabled
  }

  /** `xs.find(p)`: the position of the first element that satisfies `p`, if any. */
  function FindFirst<T>(xs: seq<T>, p: T -> bool): (r: Option<nat>)
    ensures r.Some? ==> r.value < |xs|
  {
    if xs == [] then None
    else if p(xs[0]) then Some(0)
    else match FindFirst(xs[1..], p)
         case None => None
         case Some(i) => Some(i + 1)
  }

  /** The position found satisfies `p`, no earlier one does, and none does when nothing is found. */
  lemma {:induction false} FindFirstSpec<T>(xs: seq<T>, p: T -> bool)
    ensures var r := FindFirst(xs, p);
      (r.Some? ==> p(xs[r.value]) && forall j :: 0 <= j < r.value ==> !p(xs[j]))
      && (r.None? ==> forall j :: 0 <= j < |xs| ==> !p(xs[j]))
  {
    if xs != [] && !p(xs[0]) {
      FindFirstSpec(xs[1..], p);
      assert forall j :: 1 <= j < |xs| ==> xs[j] == xs[1..][j - 1];
    }
  }

  /** The first cell of the flattened grid that shows what `k` asks for. */
  function FindCell(g: Grid, k: Criterion): (r: Option<nat>)
    ensures r.Some? ==> r.value < |Flatten(g)| && Matches(k, Flatten(g)[r.value])
  {
    var p := c => Matches(k, c);
    FindFirstSpec(Flatten(g), p);
    FindFirst(Flatten(g), p)
  }

  /** The cell found is the first that matches; when none is found, no cell matches. */
  lemma FindCellFirst(g: Grid, k: Criterion)
    ensures var r := FindCell(g, k);
      (r.Some? ==> forall j :: 0 <= j < r.value ==> !Matches(k, Flatten(g)[j]))
      && (r.None? ==> forall j :: 0 <= j < |Flatten(g)| ==> !Matches(k, Flatten(g)[j]))
  {
    var p := c => Matches(k, c);
    FindFirstSpec(Flatten(g), p);
  }

  /** Only year cells can be picked while disabled: a disabled year cell is still found. */
  lemma DisabledYearIsFound(text: string, y: int, n: string, d: nat)
    requires ParseInt(text) == Some(y)
    ensures FindCell([[GridCell(text, true, true)]], YearNumber(y)) == Some(0)
    ensures FindCell([[GridCell(text, true, true)]], MonthName(n)) == None
    ensures FindCell([[GridCell(text, true, true)]], DayNumber(d)) == None
  {
    assert Flatten([[GridCell(text, true, true)]]) == [GridCell(text, true, true)];
  }
}
