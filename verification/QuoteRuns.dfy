/**
 Cutting a sheet into quote runs: packages/parser/src/workbook-values.ts, workbook.ts and workbook-lines.ts.

 A row is reduced to what the cut looks at: whether it is a footer, and its SKU cell, `None` when that cell is blank.
 */
module QuoteRuns {
  import opened Prelude

  datatype Row = Row(footer: bool, sku: Option<string>)

  /** Both ends belong to the run. */
  datatype Run = Run(start: nat, end: int)

  /** What the row loop carries: the start of the open run, the blank rows in a row, and the SKUs it remembers. */
  datatype Scan = Scan(start: Option<nat>, blanks: nat, seen: set<string>)

  datatype Transition = Footer | Next(run: Option<Run>, scan: Scan)

  const FRESH := Scan(None, 0, {})

  function ProcessQuoteRow(row: Row, index: nat, scan: Scan): Transition {
    if row.footer then Footer
    else if row.sku.None? then
      var next := scan.blanks + 1;
      if scan.start.Some? && next >= 2
      then Next(Some(Run(scan.start.value, index - next)), Scan(None, next, scan.seen))
      else Next(None, Scan(scan.start, next, scan.seen))
    else
      var sku := row.sku.value;
      if scan.start.Some? && sku in scan.seen
      then Next(Some(Run(scan.start.value, index - 1)), Scan(Some(index), 0, {sku}))
      else Next(None, Scan(if scan.start.Some? then scan.start else Some(index), 0, scan.seen + {sku}))
  }

  /** The run that is still open before row `index`, if any. */
  function Rest(scan: Scan, index: nat): seq<Run> {
    if scan.start.Some? then [Run(scan.start.value, index - 1)] else []
  }

  /** The runs cut from row `i` on. */
  function Segments(rows: seq<Row>, i: nat, scan: Scan): seq<Run>
    requires i <= |rows|
    decreases |rows| - i
  {
    if i == |rows| then Rest(scan, i)
    else
      match ProcessQuoteRow(rows[i], i, scan)
      case Footer => Rest(scan, i)
      case Next(run, scan') => (if run.Some? then [run.value] else []) + Segments(rows, i + 1, scan')
  }

  // ---------------------------------------------------------- what a cut is

  /** The rows `a..b` can form one run: they start on an SKU, repeat none, and hold no two blank rows in a row. */
  ghost predicate CanBeRun(rows: seq<Row>, a: nat, b: nat) {
    && a < b <= |rows|
    && rows[a].sku.Some?
    && (forall k :: a <= k < b ==> !rows[k].footer)
    && (forall k :: a < k < b && rows[k].sku.None? ==> rows[k - 1].sku.Some?)
    && (forall j, k :: a <= j < k < b && rows[j].sku.Some? ==> rows[j].sku != rows[k].sku)
  }

  /** A run ends only at the end of the sheet, at a footer, at two blank rows, or before an SKU that was read before. */
  ghost predicate EndsForAReason(rows: seq<Row>, lo: nat, run: Run) {
    var next := run.end + 1;
    || next == |rows|
    || (0 <= next < |rows| && rows[next].footer)
    || (0 < next < |rows| - 1 && rows[next].sku.None? && rows[next + 1].sku.None? && rows[next - 1].sku.Some?)
    || (0 <= next < |rows| && rows[next].sku.Some? && ReadBefore(rows, lo, next, rows[next].sku.value))
  }

  ghost predicate ReadBefore(rows: seq<Row>, lo: nat, i: nat, sku: string)
    requires i <= |rows|
  {
    exists k :: lo <= k < i && rows[k].sku == Some(sku)
  }

  ghost predicate IsRun(rows: seq<Row>, lo: nat, run: Run) {
    lo <= run.start <= run.end && CanBeRun(rows, run.start, run.end + 1) && EndsForAReason(rows, lo, run)
  }

  ghost predicate Ordered(runs: seq<Run>) {
    forall i, j :: 0 <= i < j < |runs| ==> runs[i].end < runs[j].start
  }

  /** The first footer from row `i` on, or the end of the sheet. */
  function Stop(rows: seq<Row>, i: nat): (stop: nat)
    requires i <= |rows|
    ensures i <= stop <= |rows|
    ensures forall k :: i <= k < stop ==> !rows[k].footer
    ensures stop < |rows| ==> rows[stop].footer
    decreases |rows| - i
  {
    if i == |rows| || rows[i].footer then i else Stop(rows, i + 1)
  }

  /** The rows between `a` and `b` that hold an SKU: each becomes one parsed line. */
  function SkuRows(rows: seq<Row>, a: nat, b: int): seq<nat>
    decreases |rows| - a
  {
    if a >= b || a >= |rows| then []
    else (if rows[a].sku.Some? then [a] else []) + SkuRows(rows, a + 1, b)
  }

  /** The rows that become lines, run by run. */
  function LinesOfRuns(rows: seq<Row>, runs: seq<Run>): seq<nat> {
    if runs == [] then [] else SkuRows(rows, runs[0].start, runs[0].end + 1) + LinesOfRuns(rows, runs[1..])
  }

  ghost predicate IsSegmentation(rows: seq<Row>, lo: nat, runs: seq<Run>)
    requires lo <= |rows|
  {
    && (forall run | run in runs :: IsRun(rows, lo, run))
    && Ordered(runs)
    && LinesOfRuns(rows, runs) == SkuRows(rows, lo, Stop(rows, lo))
  }

  // ------------------------------------------------------------------ proofs

  /** What the loop knows before row `i`. */
  ghost predicate ScanOk(rows: seq<Row>, lo: nat, i: nat, scan: Scan) {
    && lo <= i <= |rows|
    && (forall sku | sku in scan.seen :: ReadBefore(rows, lo, i, sku))
    && (scan.start.Some? ==>
          && lo <= scan.start.value < i
          && CanBeRun(rows, scan.start.value, i)
          && scan.blanks == (if rows[i - 1].sku.None? then 1 else 0)
          && forall k :: scan.start.value <= k < i && rows[k].sku.Some? ==> rows[k].sku.value in scan.seen)
  }

  lemma SeenStays(rows: seq<Row>, lo: nat, i: nat, scan: Scan, sku: string)
    requires ScanOk(rows, lo, i, scan) && i < |rows| && (sku in scan.seen || rows[i].sku == Some(sku))
    ensures ReadBefore(rows, lo, i + 1, sku)
  {
    if sku in scan.seen {
      var k :| lo <= k < i && rows[k].sku == Some(sku);
    } else {
      assert rows[i].sku == Some(sku);
    }
  }

  lemma StepKeepsScan(rows: seq<Row>, lo: nat, i: nat, scan: Scan)
    requires ScanOk(rows, lo, i, scan) && i < |rows| && ProcessQuoteRow(rows[i], i, scan).Next?
    ensures ScanOk(rows, lo, i + 1, ProcessQuoteRow(rows[i], i, scan).scan)
  {
    var scan' := ProcessQuoteRow(rows[i], i, scan).scan;
    forall sku | sku in scan'.seen ensures ReadBefore(rows, lo, i + 1, sku) {
      SeenStays(rows, lo, i, scan, sku);
    }
  }

  lemma StepCutsRun(rows: seq<Row>, lo: nat, i: nat, scan: Scan)
    requires ScanOk(rows, lo, i, scan) && i < |rows|
    requires var next := ProcessQuoteRow(rows[i], i, scan); next.Next? && next.run.Some?
    ensures IsRun(rows, lo, ProcessQuoteRow(rows[i], i, scan).run.value)
  {
  }

  lemma RestIsRun(rows: seq<Row>, lo: nat, i: nat, scan: Scan)
    requires ScanOk(rows, lo, i, scan) && scan.start.Some? && (i == |rows| || rows[i].footer)
    ensures IsRun(rows, lo, Run(scan.start.value, i - 1))
  {
  }

  lemma {:induction false} SegmentsAreRuns(rows: seq<Row>, lo: nat, i: nat, scan: Scan)
    requires ScanOk(rows, lo, i, scan)
    ensures forall run | run in Segments(rows, i, scan) :: IsRun(rows, lo, run)
    decreases |rows| - i
  {
    hide IsRun;
    if i == |rows| || ProcessQuoteRow(rows[i], i, scan).Footer? {
      if scan.start.Some? {
        RestIsRun(rows, lo, i, scan);
      }
    } else {
      StepKeepsScan(rows, lo, i, scan);
      SegmentsAreRuns(rows, lo, i + 1, ProcessQuoteRow(rows[i], i, scan).scan);
      if ProcessQuoteRow(rows[i], i, scan).run.Some? {
        StepCutsRun(rows, lo, i, scan);
      }
    }
  }

  /** Where the next run may start. */
  function From(scan: Scan, i: nat): nat {
    if scan.start.Some? then scan.start.value else i
  }

  lemma StepGoesOn(rows: seq<Row>, lo: nat, i: nat, scan: Scan)
    requires ScanOk(rows, lo, i, scan) && i < |rows| && ProcessQuoteRow(rows[i], i, scan).Next?
    ensures var next := ProcessQuoteRow(rows[i], i, scan);
      && From(scan, i) <= From(next.scan, i + 1)
      && (next.run.Some? ==> From(scan, i) == next.run.value.start <= next.run.value.end < From(next.scan, i + 1))
  {
  }

  /** The rows that a step leaves outside its runs are blank. */
  lemma StepGap(rows: seq<Row>, lo: nat, i: nat, scan: Scan, k: nat)
    requires ScanOk(rows, lo, i, scan) && i < |rows| && ProcessQuoteRow(rows[i], i, scan).Next?
    requires var next := ProcessQuoteRow(rows[i], i, scan);
      (if next.run.Some? then next.run.value.end < k else From(scan, i) <= k) && k < From(next.scan, i + 1)
    ensures k < |rows| && rows[k].sku.None?
  {
  }

  lemma {:induction false} SegmentsAreOrdered(rows: seq<Row>, lo: nat, i: nat, scan: Scan)
    requires ScanOk(rows, lo, i, scan)
    ensures Ordered(Segments(rows, i, scan))
    ensures forall run | run in Segments(rows, i, scan) :: From(scan, i) <= run.start
    decreases |rows| - i
  {
    hide ProcessQuoteRow;
    if i < |rows| && ProcessQuoteRow(rows[i], i, scan).Next? {
      var next := ProcessQuoteRow(rows[i], i, scan);
      StepKeepsScan(rows, lo, i, scan);
      SegmentsAreOrdered(rows, lo, i + 1, next.scan);
      StepGoesOn(rows, lo, i, scan);
    }
  }

  lemma {:induction false} SkuRowsMembers(rows: seq<Row>, a: nat, b: int, k: nat)
    ensures k in SkuRows(rows, a, b) <==> a <= k < b && k < |rows| && rows[k].sku.Some?
    decreases |rows| - a
  {
    if a < b && a < |rows| {
      SkuRowsMembers(rows, a + 1, b, k);
    }
  }

  lemma {:induction false} SkuRowsSplit(rows: seq<Row>, a: nat, b: nat, c: nat)
    requires a <= b <= c <= |rows|
    ensures SkuRows(rows, a, c) == SkuRows(rows, a, b) + SkuRows(rows, b, c)
    decreases b - a
  {
    if a < b {
      SkuRowsSplit(rows, a + 1, b, c);
    }
  }

  lemma {:induction false} NoSkuRows(rows: seq<Row>, a: nat, b: nat)
    requires a <= b <= |rows| && forall k :: a <= k < b ==> rows[k].sku.None?
    ensures SkuRows(rows, a, b) == []
    decreases b - a
  {
    if a < b {
      NoSkuRows(rows, a + 1, b);
    }
  }

  lemma BlankGap(rows: seq<Row>, lo: nat, i: nat, scan: Scan, gap: nat)
    requires ScanOk(rows, lo, i, scan) && i < |rows| && ProcessQuoteRow(rows[i], i, scan).Next?
    requires var next := ProcessQuoteRow(rows[i], i, scan);
      gap == if next.run.Some? then next.run.value.end + 1 else From(scan, i)
    ensures var from := From(ProcessQuoteRow(rows[i], i, scan).scan, i + 1);
      gap <= from <= i + 1 && SkuRows(rows, gap, from) == []
  {
    hide SkuRows;
    var from := From(ProcessQuoteRow(rows[i], i, scan).scan, i + 1);
    forall k | gap <= k < from ensures rows[k].sku.None? {
      StepGap(rows, lo, i, scan, k);
    }
    NoSkuRows(rows, gap, from);
  }

  /** A step drops no SKU row: what it closes, and what it leaves open, hold all the rows from `From` on. */
  lemma {:induction false} StepDropsNothing(rows: seq<Row>, lo: nat, i: nat, scan: Scan, stop: nat)
    requires ScanOk(rows, lo, i, scan) && i < stop <= |rows| && ProcessQuoteRow(rows[i], i, scan).Next?
    ensures var next := ProcessQuoteRow(rows[i], i, scan);
      From(next.scan, i + 1) <= stop &&
      SkuRows(rows, From(scan, i), stop)
      == (if next.run.Some? then SkuRows(rows, next.run.value.start, next.run.value.end + 1) else [])
         + SkuRows(rows, From(next.scan, i + 1), stop)
  {
    hide ProcessQuoteRow, ScanOk, SkuRows;
    var next := ProcessQuoteRow(rows[i], i, scan);
    var from := From(next.scan, i + 1);
    StepGoesOn(rows, lo, i, scan);
    if next.run.Some? {
      var run := next.run.value;
      BlankGap(rows, lo, i, scan, run.end + 1);
      SkuRowsSplit(rows, run.end + 1, from, stop);
      SkuRowsSplit(rows, run.start, run.end + 1, stop);
    } else {
      BlankGap(rows, lo, i, scan, From(scan, i));
      SkuRowsSplit(rows, From(scan, i), from, stop);
    }
  }

  lemma {:induction false} LinesOfOneMore(rows: seq<Row>, run: Run, runs: seq<Run>)
    ensures LinesOfRuns(rows, [run] + runs) == SkuRows(rows, run.start, run.end + 1) + LinesOfRuns(rows, runs)
  {
    assert ([run] + runs)[1..] == runs;
  }

  lemma FooterOrNext(row: Row, i: nat, scan: Scan)
    ensures ProcessQuoteRow(row, i, scan).Footer? <==> row.footer
  {
  }

  lemma {:induction false} SegmentsDropNothing(rows: seq<Row>, lo: nat, i: nat, scan: Scan)
    requires i <= |rows| && ScanOk(rows, lo, i, scan)
    ensures forall run | run in Segments(rows, i, scan) :: IsRun(rows, lo, run)
    ensures From(scan, i) <= Stop(rows, i)
    ensures LinesOfRuns(rows, Segments(rows, i, scan)) == SkuRows(rows, From(scan, i), Stop(rows, i))
    decreases |rows| - i
  {
    hide ProcessQuoteRow, IsRun, SkuRows, CanBeRun;
    SegmentsAreRuns(rows, lo, i, scan);
    if i < |rows| {
      FooterOrNext(rows[i], i, scan);
    }
    if i < |rows| && ProcessQuoteRow(rows[i], i, scan).Next? {
      var next := ProcessQuoteRow(rows[i], i, scan);
      StepKeepsScan(rows, lo, i, scan);
      SegmentsDropNothing(rows, lo, i + 1, next.scan);
      StepDropsNothing(rows, lo, i, scan, Stop(rows, i));
      StepGoesOn(rows, lo, i, scan);
      var rest := Segments(rows, i + 1, next.scan);
      if next.run.Some? {
        LinesOfOneMore(rows, next.run.value, rest);
      } else {
        assert Segments(rows, i, scan) == rest;
      }
    } else if scan.start.Some? {
      LinesOfOneMore(rows, Run(scan.start.value, i - 1), []);
      assert [Run(scan.start.value, i - 1)] + [] == [Run(scan.start.value, i - 1)];
    } else {
      NoSkuRows(rows, i, i);
    }
  }

  /**
   The runs of a sheet cover the rows below its header up to the first footer: no SKU row is lost, moved or read twice.
   */
  lemma SegmentsPartition(rows: seq<Row>, headerRow: nat)
    requires headerRow < |rows|
    ensures IsSegmentation(rows, headerRow + 1, Segments(rows, headerRow + 1, FRESH))
  {
    SegmentsAreRuns(rows, headerRow + 1, headerRow + 1, FRESH);
    SegmentsAreOrdered(rows, headerRow + 1, headerRow + 1, FRESH);
    SegmentsDropNothing(rows, headerRow + 1, headerRow + 1, FRESH);
  }

  /** In particular each SKU row above the first footer is in exactly one run. */
  lemma {:induction false} InExactlyOneRun(rows: seq<Row>, lo: nat, runs: seq<Run>, k: nat)
    requires lo <= |rows| && IsSegmentation(rows, lo, runs)
    requires lo <= k < Stop(rows, lo) && rows[k].sku.Some?
    ensures exists i :: 0 <= i < |runs| && runs[i].start <= k <= runs[i].end
    ensures forall i, j | 0 <= i < |runs| && 0 <= j < |runs| ::
      runs[i].start <= k <= runs[i].end && runs[j].start <= k <= runs[j].end ==> i == j
  {
    SkuRowsMembers(rows, lo, Stop(rows, lo), k);
    LineIsInARun(rows, runs, k);
  }

  lemma {:induction false} LineIsInARun(rows: seq<Row>, runs: seq<Run>, k: nat)
    requires k in LinesOfRuns(rows, runs)
    ensures exists i :: 0 <= i < |runs| && runs[i].start <= k <= runs[i].end
  {
    SkuRowsMembers(rows, runs[0].start, runs[0].end + 1, k);
    if k !in SkuRows(rows, runs[0].start, runs[0].end + 1) {
      LineIsInARun(rows, runs[1..], k);
      var i :| 0 <= i < |runs[1..]| && runs[1..][i].start <= k <= runs[1..][i].end;
      assert runs[i + 1] == runs[1..][i];
    }
  }

  lemma {:induction false} SegmentsUnfold(rows: seq<Row>, i: nat, scan: Scan)
    requires i < |rows|
    ensures Segments(rows, i, scan)
         == match ProcessQuoteRow(rows[i], i, scan)
            case Footer => Rest(scan, i)
            case Next(run, scan') => (if run.Some? then [run.value] else []) + Segments(rows, i + 1, scan')
  {
    hide ProcessQuoteRow;
  }

  /** The row loop. */
  method FindQuoteRuns(rows: seq<Row>, headerRow: nat) returns (runs: seq<Run>)
    requires headerRow < |rows|
    ensures runs == Segments(rows, headerRow + 1, FRESH)
    ensures IsSegmentation(rows, headerRow + 1, runs)
  {
    hide ProcessQuoteRow, IsSegmentation;
    SegmentsPartition(rows, headerRow);
    runs := [];
    var start: Option<nat>, blanks, seen := None, 0, {};
    var index, footer := headerRow + 1, false;
    while index < |rows| && !footer
      invariant headerRow < index <= |rows|
      invariant !footer ==>
        runs + Segments(rows, index, Scan(start, blanks, seen)) == Segments(rows, headerRow + 1, FRESH)
      invariant footer ==> start.None? && runs == Segments(rows, headerRow + 1, FRESH)
      decreases |rows| - index, !footer
    {
      SegmentsUnfold(rows, index, Scan(start, blanks, seen));
      match ProcessQuoteRow(rows[index], index, Scan(start, blanks, seen))
      case Footer =>
        if start.Some? {
          runs := runs + [Run(start.value, index - 1)];
        }
        start, footer := None, true;
      case Next(run, scan) =>
        if run.Some? {
          runs := runs + [run.value];
        }
        start, blanks, seen := scan.start, scan.blanks, scan.seen;
        index := index + 1;
    }
    if start.Some? {
      runs := runs + [Run(start.value, |rows| - 1)];
    }
  }

  // -------------------------------------------------------------- scenarios

  /** A sheet, and the row of its header when one with an SKU column was found. */
  datatype Sheet = Sheet(visible: bool, rows: seq<Row>, header: Option<nat>)

  /** A scenario: its number, and the rows of its lines. */
  datatype Scenario = Scenario(id: nat, lines: seq<nat>)

  ghost predicate SheetOk(sheet: Sheet) {
    sheet.header.Some? ==> sheet.header.value < |sheet.rows|
  }

  function RunsOfSheet(sheet: Sheet): (runs: seq<Run>)
    requires SheetOk(sheet)
    ensures sheet.header.Some? ==> runs == Segments(sheet.rows, sheet.header.value + 1, FRESH)
  {
    if sheet.header.None? then []
    else
      var runs := Segments(sheet.rows, sheet.header.value + 1, FRESH);
      SegmentsPartition(sheet.rows, sheet.header.value);
      AllStay((run: Run) => run.end >= run.start, runs);
      Filter((run: Run) => run.end >= run.start, runs)
  }

  lemma {:induction false} AllStay<T>(p: T -> bool, s: seq<T>)
    requires forall x | x in s :: p(x)
    ensures Filter(p, s) == s
  {
    if s != [] {
      assert s[0] in s;
      AllStay(p, s[1..]);
    }
  }

  /** Number the runs of a sheet, from `offset + 1` on. */
  function ExtractSheet(sheet: Sheet, runs: seq<Run>, offset: nat): (scenarios: seq<Scenario>)
    ensures |scenarios| == |runs|
    ensures forall k :: 0 <= k < |scenarios| ==> scenarios[k].id == offset + k + 1
  {
    if runs == [] then []
    else
      [Scenario(offset + 1, SkuRows(sheet.rows, runs[0].start, runs[0].end + 1))]
        + ExtractSheet(sheet, runs[1..], offset + 1)
  }

  function ScenariosOfSheet(sheet: Sheet, offset: nat): seq<Scenario>
    requires SheetOk(sheet)
  {
    if sheet.header.None? then []
    else ExtractSheet(sheet, RunsOfSheet(sheet), offset)
  }

  /** How many scenarios the sheets hold: every sheet is cut once more to count them. */
  function CountScenarios(sheets: seq<Sheet>): nat
    requires forall sheet | sheet in sheets :: SheetOk(sheet)
  {
    if sheets == [] then 0
    else
      assert sheets[|sheets| - 1] in sheets;
      CountScenarios(sheets[..|sheets| - 1]) + |RunsOfSheet(sheets[|sheets| - 1])|
  }

  /** The scenarios of the visible sheets, each sheet numbered after the ones before it. */
  function ParseSheets(visible: seq<Sheet>): seq<Scenario>
    requires forall sheet | sheet in visible :: SheetOk(sheet)
  {
    if visible == [] then []
    else
      var prior, last := visible[..|visible| - 1], visible[|visible| - 1];
      assert last in visible;
      ParseSheets(prior) + ScenariosOfSheet(last, CountScenarios(prior))
  }

  function Visible(sheets: seq<Sheet>): seq<Sheet> {
    Filter((sheet: Sheet) => sheet.visible, sheets)
  }

  /** The scenarios of a workbook: hidden sheets are left out. */
  function ParseWorkbook(sheets: seq<Sheet>): seq<Scenario>
    requires forall sheet | sheet in sheets :: SheetOk(sheet)
  {
    ParseSheets(Visible(sheets))
  }

  /** Scenario numbers run 1, 2, 3, … across the visible sheets of a workbook, without a gap. */
  lemma ScenariosAreNumbered(sheets: seq<Sheet>)
    requires forall sheet | sheet in sheets :: SheetOk(sheet)
    ensures |ParseWorkbook(sheets)| == CountScenarios(Visible(sheets))
    ensures forall k :: 0 <= k < |ParseWorkbook(sheets)| ==> ParseWorkbook(sheets)[k].id == k + 1
  {
    VisibleAreNumbered(Visible(sheets));
  }

  lemma {:induction false} VisibleAreNumbered(visible: seq<Sheet>)
    requires forall sheet | sheet in visible :: SheetOk(sheet)
    ensures |ParseSheets(visible)| == CountScenarios(visible)
    ensures forall k :: 0 <= k < |ParseSheets(visible)| ==> ParseSheets(visible)[k].id == k + 1
  {
    if visible != [] {
      assert visible[|visible| - 1] in visible;
      VisibleAreNumbered(visible[..|visible| - 1]);
    }
  }

  // ---- which lines belong to which scenario

  ghost predicate Ascending(lines: seq<nat>) {
    forall i, j :: 0 <= i < j < |lines| ==> lines[i] < lines[j]
  }

  lemma {:induction false} SkuRowsAscend(rows: seq<Row>, a: nat, b: int)
    ensures Ascending(SkuRows(rows, a, b))
    decreases |rows| - a
  {
    if a < b && a < |rows| {
      SkuRowsAscend(rows, a + 1, b);
      var rest := SkuRows(rows, a + 1, b);
      forall j | 0 <= j < |rest| ensures a < rest[j] {
        SkuRowsMembers(rows, a + 1, b, rest[j]);
      }
    }
  }

  /** The lines of a scenario are exactly the rows of its run that hold an SKU, from top to bottom. */
  ghost predicate HoldsRun(scenario: Scenario, rows: seq<Row>, run: Run) {
    && Ascending(scenario.lines)
    && forall r :: r in scenario.lines <==> run.start <= r <= run.end && r < |rows| && rows[r].sku.Some?
  }

  lemma RowsHoldRun(rows: seq<Row>, run: Run, id: nat)
    ensures HoldsRun(Scenario(id, SkuRows(rows, run.start, run.end + 1)), rows, run)
  {
    hide SkuRows;
    SkuRowsAscend(rows, run.start, run.end + 1);
    var lines := SkuRows(rows, run.start, run.end + 1);
    forall r: nat
      ensures r in lines <==> run.start <= r <= run.end && r < |rows| && rows[r].sku.Some?
    {
      SkuRowsMembers(rows, run.start, run.end + 1, r);
    }
    assert Scenario(id, lines).lines == lines;
  }

  /** Each run of a sheet becomes one scenario, with its own lines and no others. */
  lemma {:induction false} ScenarioHoldsItsRun(sheet: Sheet, runs: seq<Run>, offset: nat, k: nat)
    requires k < |runs|
    ensures HoldsRun(ExtractSheet(sheet, runs, offset)[k], sheet.rows, runs[k])
  {
    hide HoldsRun, SkuRows;
    if k == 0 {
      RowsHoldRun(sheet.rows, runs[0], offset + 1);
    } else {
      ScenarioHoldsItsRun(sheet, runs[1..], offset + 1, k - 1);
    }
  }

  /** Where the scenario of run `k` of sheet `i` stands in the workbook. */
  function PlaceOf(visible: seq<Sheet>, i: nat, k: nat): nat
    requires i < |visible| && forall sheet | sheet in visible :: SheetOk(sheet)
  {
    assert forall sheet | sheet in visible[..i] :: sheet in visible;
    CountScenarios(visible[..i]) + k
  }

  lemma {:induction false} LastSheet(visible: seq<Sheet>)
    requires visible != [] && forall sheet | sheet in visible :: SheetOk(sheet)
    ensures var n := |visible| - 1;
      && visible[n] in visible && (forall sheet | sheet in visible[..n] :: SheetOk(sheet))
      && |ParseSheets(visible[..n])| == CountScenarios(visible[..n])
      && ParseSheets(visible) == ParseSheets(visible[..n]) + ScenariosOfSheet(visible[n], CountScenarios(visible[..n]))
  {
    hide RunsOfSheet, ExtractSheet;
    assert visible[|visible| - 1] in visible;
    VisibleAreNumbered(visible[..|visible| - 1]);
  }

  lemma {:induction false} PlacedScenario(visible: seq<Sheet>, i: nat, k: nat)
    requires i < |visible| && (forall sheet | sheet in visible :: SheetOk(sheet)) && k < |RunsOfSheet(visible[i])|
    ensures PlaceOf(visible, i, k) < |ParseSheets(visible)|
    ensures HoldsRun(ParseSheets(visible)[PlaceOf(visible, i, k)], visible[i].rows, RunsOfSheet(visible[i])[k])
  {
    hide HoldsRun, RunsOfSheet, ExtractSheet, ParseSheets, CountScenarios;
    var prior, last := visible[..|visible| - 1], visible[|visible| - 1];
    LastSheet(visible);
    if i == |visible| - 1 {
      NoHeaderNoRuns(last);
      ScenarioHoldsItsRun(last, RunsOfSheet(last), CountScenarios(prior), k);
    } else {
      assert prior[..i] == visible[..i];
      PlacedScenario(prior, i, k);
    }
  }

  lemma NoHeaderNoRuns(sheet: Sheet)
    requires SheetOk(sheet)
    ensures sheet.header.None? ==> RunsOfSheet(sheet) == []
  {
  }

  /** Every scenario of a workbook is that of some run. */
  lemma {:induction false} ScenarioHasPlace(visible: seq<Sheet>, j: nat) returns (i: nat, k: nat)
    requires (forall sheet | sheet in visible :: SheetOk(sheet)) && j < CountScenarios(visible)
    ensures i < |visible| && k < |RunsOfSheet(visible[i])| && PlaceOf(visible, i, k) == j
  {
    hide RunsOfSheet;
    var prior := visible[..|visible| - 1];
    assert visible[|visible| - 1] in visible && forall sheet | sheet in prior :: sheet in visible;
    if j < CountScenarios(prior) {
      i, k := ScenarioHasPlace(prior, j);
      assert prior[..i] == visible[..i];
    } else {
      i, k := |visible| - 1, j - CountScenarios(prior);
    }
  }

  /** The scenario of run `k` of sheet `i` stands at its place, and holds the lines of that run. */
  ghost predicate IsPlaced(scenarios: seq<Scenario>, visible: seq<Sheet>, i: nat, k: nat)
    requires i < |visible| && (forall sheet | sheet in visible :: SheetOk(sheet)) && k < |RunsOfSheet(visible[i])|
  {
    && PlaceOf(visible, i, k) < |scenarios|
    && HoldsRun(scenarios[PlaceOf(visible, i, k)], visible[i].rows, RunsOfSheet(visible[i])[k])
  }

  ghost predicate HasPlace(visible: seq<Sheet>, j: nat)
    requires forall sheet | sheet in visible :: SheetOk(sheet)
  {
    exists i: nat, k: nat :: i < |visible| && k < |RunsOfSheet(visible[i])| && PlaceOf(visible, i, k) == j
  }

  /**
   The scenarios of a workbook are the runs of its visible sheets, one for one and in order: the scenario at the place
   of a run holds the lines of that run, and there are no others.
   */
  lemma WorkbookHoldsItsRuns(sheets: seq<Sheet>)
    requires forall sheet | sheet in sheets :: SheetOk(sheet)
    ensures var visible := Visible(sheets);
      forall i: nat, k: nat :: i < |visible| && k < |RunsOfSheet(visible[i])| ==>
        IsPlaced(ParseWorkbook(sheets), visible, i, k)
    ensures forall j: nat :: j < |ParseWorkbook(sheets)| ==> HasPlace(Visible(sheets), j)
  {
    hide HoldsRun, RunsOfSheet, PlaceOf;
    var visible := Visible(sheets);
    VisibleAreNumbered(visible);
    forall i: nat, k: nat | i < |visible| && k < |RunsOfSheet(visible[i])|
      ensures IsPlaced(ParseWorkbook(sheets), visible, i, k)
    {
      PlacedScenario(visible, i, k);
    }
    forall j: nat | j < |ParseWorkbook(sheets)| ensures HasPlace(visible, j) {
      var i, k := ScenarioHasPlace(visible, j);
    }
  }

  lemma VisibleAppend(a: seq<Sheet>, b: seq<Sheet>)
    ensures Visible(a + b) == Visible(a) + Visible(b)
  {
    FilterAppend((sheet: Sheet) => sheet.visible, a, b);
  }

  lemma VisibleOfOne(sheet: Sheet)
    ensures Visible([sheet]) == if sheet.visible then [sheet] else []
  {
    assert [sheet][1..] == [];
  }

  /** No visible sheet is left out, and no sheet is moved. */
  lemma VisibleSheetsStay(sheets: seq<Sheet>)
    requires forall sheet | sheet in sheets :: sheet.visible
    ensures Visible(sheets) == sheets
  {
    AllStay((sheet: Sheet) => sheet.visible, sheets);
  }

  /** A hidden sheet changes nothing, wherever it stands. */
  lemma HiddenSheetsAreLeftOut(before: seq<Sheet>, hidden: Sheet, after: seq<Sheet>)
    requires !hidden.visible
    requires (forall s | s in before + [hidden] + after :: SheetOk(s)) && forall s | s in before + after :: SheetOk(s)
    ensures ParseWorkbook(before + [hidden] + after) == ParseWorkbook(before + after)
  {
    hide Visible, ParseSheets, SheetOk;
    VisibleAppend(before + [hidden], after);
    VisibleAppend(before, [hidden]);
    VisibleAppend(before, after);
    VisibleOfOne(hidden);
    assert Visible(before) + [] == Visible(before);
  }

  function LinesOfScenarios(scenarios: seq<Scenario>): seq<nat> {
    if scenarios == [] then [] else scenarios[0].lines + LinesOfScenarios(scenarios[1..])
  }

  lemma {:induction false} ExtractedLines(sheet: Sheet, runs: seq<Run>, offset: nat)
    ensures LinesOfScenarios(ExtractSheet(sheet, runs, offset)) == LinesOfRuns(sheet.rows, runs)
  {
    if runs != [] {
      ExtractedLines(sheet, runs[1..], offset + 1);
      assert ExtractSheet(sheet, runs, offset)[1..] == ExtractSheet(sheet, runs[1..], offset + 1);
    }
  }

  /** The lines of a sheet's scenarios are, in order, its SKU rows between the header and the first footer. */
  lemma SheetLinesAreItsSkuRows(sheet: Sheet, offset: nat)
    requires SheetOk(sheet) && sheet.header.Some?
    ensures LinesOfScenarios(ScenariosOfSheet(sheet, offset))
         == SkuRows(sheet.rows, sheet.header.value + 1, Stop(sheet.rows, sheet.header.value + 1))
  {
    SegmentsPartition(sheet.rows, sheet.header.value);
    ExtractedLines(sheet, RunsOfSheet(sheet), offset);
  }
}
