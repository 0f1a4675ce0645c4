/**
 When the row loop of packages/parser/src/workbook-values.ts remembers too much.

 The loop forgets its SKUs when a repeated one ends a run, and keeps them when two blank rows do. `Intended` forgets in
 both cases; the two agree exactly when no run meets an SKU that was left over.
 */
module QuoteMemory {
  import opened Prelude
  import opened QuoteRuns

  // --------------------------------------------------- what the memory keeps

  /** The row step with a memory that belongs to the open run: two blank rows end the run and clear it. */
  function ProcessIntended(row: Row, index: nat, scan: Scan): Transition {
    match ProcessQuoteRow(row, index, scan)
    case Footer => Footer
    case Next(run, scan') => Next(run, if row.sku.None? && run.Some? then scan'.(seen := {}) else scan')
  }

  /** The runs that are cut before an SKU only when they hold it already. */
  function Intended(rows: seq<Row>, i: nat, scan: Scan): seq<Run>
    requires i <= |rows|
    decreases |rows| - i
  {
    if i == |rows| then Rest(scan, i)
    else
      match ProcessIntended(rows[i], i, scan)
      case Footer => Rest(scan, i)
      case Next(run, scan') => (if run.Some? then [run.value] else []) + Intended(rows, i + 1, scan')
  }

  /**
   What earlier runs left in the memory: two blank rows add the SKUs of the run they end, a repeated SKU clears
   everything.
   */
  function LeftOver(row: Row, scan: Scan, prior: set<string>): set<string> {
    if row.sku.None? then (if scan.start.Some? && scan.blanks >= 1 then prior + scan.seen else prior)
    else if scan.start.Some? && row.sku.value in scan.seen then {}
    else prior
  }

  /** An open run meets, below its first row, an SKU that it does not hold and that an earlier run left behind. */
  predicate MeetsLeftOver(row: Row, scan: Scan, prior: set<string>) {
    !row.footer && row.sku.Some? && scan.start.Some? && row.sku.value !in scan.seen && row.sku.value in prior
  }

  /** Some row below does so, before the first footer. */
  predicate Carried(rows: seq<Row>, i: nat, scan: Scan, prior: set<string>)
    requires i <= |rows|
    decreases |rows| - i
  {
    && i < |rows|
    && !rows[i].footer
    && (MeetsLeftOver(rows[i], scan, prior)
        || Carried(rows, i + 1, ProcessIntended(rows[i], i, scan).scan, LeftOver(rows[i], scan, prior)))
  }

  /** Unless it meets a left-over SKU, a step does the same with the longer memory. */
  lemma SameStep(row: Row, i: nat, scan: Scan, prior: set<string>)
    requires !MeetsLeftOver(row, scan, prior) && (scan.start.None? ==> scan.seen == {})
    ensures var actual, meant := ProcessQuoteRow(row, i, scan.(seen := scan.seen + prior)),
      ProcessIntended(row, i, scan);
      && (actual.Footer? <==> meant.Footer?)
      && (actual.Next? ==>
            && actual.run == meant.run
            && actual.scan == meant.scan.(seen := meant.scan.seen + LeftOver(row, scan, prior))
            && (meant.scan.start.None? ==> meant.scan.seen == {}))
  {
  }

  /** An open run goes on at least to its last SKU. */
  lemma {:induction false} OpenRunGoesOn(rows: seq<Row>, i: nat, scan: Scan)
    requires i <= |rows| && scan.start.Some? && scan.blanks <= 1
    ensures var runs := Intended(rows, i, scan);
      runs != [] && runs[0].start == scan.start.value && runs[0].end >= i - 1 - scan.blanks
    decreases |rows| - i
  {
    if i < |rows| && ProcessIntended(rows[i], i, scan).Next? && ProcessIntended(rows[i], i, scan).run.None? {
      OpenRunGoesOn(rows, i + 1, ProcessIntended(rows[i], i, scan).scan);
    }
  }

  /** There the real scan ends the run, and the intended one does not. */
  lemma MeetingCuts(rows: seq<Row>, i: nat, scan: Scan, prior: set<string>)
    requires i < |rows| && MeetsLeftOver(rows[i], scan, prior)
    ensures Segments(rows, i, scan.(seen := scan.seen + prior)) != Intended(rows, i, scan)
  {
    hide Segments;
    var next := ProcessIntended(rows[i], i, scan).scan;
    OpenRunGoesOn(rows, i + 1, next);
    assert Intended(rows, i, scan) == [] + Intended(rows, i + 1, next) == Intended(rows, i + 1, next);
    FirstCut(rows, i, scan.(seen := scan.seen + prior));
  }

  lemma FirstCut(rows: seq<Row>, i: nat, scan: Scan)
    requires i < |rows| && !rows[i].footer && rows[i].sku.Some? && scan.start.Some? && rows[i].sku.value in scan.seen
    ensures Segments(rows, i, scan) != [] && Segments(rows, i, scan)[0] == Run(scan.start.value, i - 1)
  {
  }

  lemma {:induction false} CarriedDecides(rows: seq<Row>, i: nat, scan: Scan, prior: set<string>)
    requires i <= |rows| && (scan.start.None? ==> scan.seen == {})
    ensures Segments(rows, i, scan.(seen := scan.seen + prior)) == Intended(rows, i, scan) <==>
      !Carried(rows, i, scan, prior)
    decreases |rows| - i
  {
    hide ProcessIntended, ProcessQuoteRow;
    if i == |rows| {
    } else if MeetsLeftOver(rows[i], scan, prior) {
      MeetingCuts(rows, i, scan, prior);
    } else {
      SameStep(rows[i], i, scan, prior);
      FooterOrNext(rows[i], i, scan.(seen := scan.seen + prior));
      if !rows[i].footer {
        var next := ProcessIntended(rows[i], i, scan);
        CarriedDecides(rows, i + 1, next.scan, LeftOver(rows[i], scan, prior));
        SameHead(if next.run.Some? then [next.run.value] else [],
                 Segments(rows, i + 1, next.scan.(seen := next.scan.seen + LeftOver(rows[i], scan, prior))),
                 Intended(rows, i + 1, next.scan));
      }
    }
  }

  lemma SameHead(head: seq<Run>, s: seq<Run>, t: seq<Run>)
    ensures head + s == head + t <==> s == t
  {
    assert (head + s)[|head|..] == s && (head + t)[|head|..] == t;
  }

  // ---- the same condition, seen on the runs

  /** Something lies between a run and the next one: two blank rows ended it. */
  predicate Gap(run: Run, next: Run) {
    run.end + 1 < next.start
  }

  /** Row `k` lies in the run, below its first row. */
  predicate Below(run: Run, k: nat) {
    run.start < k <= run.end
  }

  /**
   Row `j` of run `a` and row `k` of a later run `b` hold the same SKU; the runs from `a` to `b` follow one another over
   gaps.
   */
  ghost predicate SharedBy(rows: seq<Row>, runs: seq<Run>, a: nat, b: nat, j: nat, k: nat) {
    && a < b < |runs| && GapsBetween(runs, a, b)
    && runs[a].start <= j <= runs[a].end && Below(runs[b], k)
    && j < |rows| && k < |rows| && rows[j].sku.Some? && rows[j].sku == rows[k].sku
  }

  ghost predicate GapsBetween(runs: seq<Run>, a: nat, b: nat)
    requires b < |runs|
  {
    forall c: nat :: a <= c < b ==> Gap(runs[c], runs[c + 1])
  }

  ghost predicate ShareOverGaps(rows: seq<Row>, runs: seq<Run>) {
    exists a: nat, b: nat, j: nat, k: nat :: SharedBy(rows, runs, a, b, j, k)
  }

  /** Row `k` of run `b` holds one of `prior`, and every run before it is followed by a gap. */
  ghost predicate HitBy(rows: seq<Row>, runs: seq<Run>, prior: set<string>, b: nat, k: nat) {
    && b < |runs| && GapsBetween(runs, 0, b)
    && Below(runs[b], k) && k < |rows| && rows[k].sku.Some? && rows[k].sku.value in prior
  }

  function SkusOf(rows: seq<Row>, a: nat, b: int): set<string> {
    set k | a <= k < b && k < |rows| && rows[k].sku.Some? :: rows[k].sku.value
  }

  /** What the first of the runs leaves to the next. */
  function PassedOn(rows: seq<Row>, runs: seq<Run>, prior: set<string>): set<string>
    requires runs != []
  {
    if |runs| > 1 && Gap(runs[0], runs[1]) then prior + SkusOf(rows, runs[0].start, runs[0].end + 1) else {}
  }

  ghost predicate Meets(rows: seq<Row>, run: Run, from: nat, prior: set<string>) {
    exists k: nat :: from <= k < |rows| && Below(run, k) && rows[k].sku.Some? && rows[k].sku.value in prior
  }

  /** Walk the runs with what is passed on. */
  ghost predicate Crosses(rows: seq<Row>, runs: seq<Run>, prior: set<string>) {
    && runs != []
    && (Meets(rows, runs[0], 0, prior) || Crosses(rows, runs[1..], PassedOn(rows, runs, prior)))
  }

  /** The memory of an open run holds exactly its SKUs. */
  ghost predicate OwnMemory(rows: seq<Row>, i: nat, scan: Scan) {
    && i <= |rows|
    && (scan.start.None? ==> scan.seen == {})
    && (scan.start.Some? ==>
          && scan.start.value < i && scan.blanks <= 1
          && (scan.blanks == 1 ==> rows[i - 1].sku.None?)
          && scan.seen == SkusOf(rows, scan.start.value, i))
  }

  lemma OneMoreSku(rows: seq<Row>, a: nat, i: nat)
    requires a <= i < |rows|
    ensures SkusOf(rows, a, i + 1) == SkusOf(rows, a, i) + if rows[i].sku.Some? then {rows[i].sku.value} else {}
  {
    if rows[i].sku.Some? {
      assert rows[i].sku.value in SkusOf(rows, a, i + 1);
    }
  }

  lemma StepKeepsOwnMemory(rows: seq<Row>, i: nat, scan: Scan)
    requires OwnMemory(rows, i, scan) && i < |rows| && !rows[i].footer
    ensures OwnMemory(rows, i + 1, ProcessIntended(rows[i], i, scan).scan)
  {
    hide SkusOf;
    if scan.start.Some? {
      OneMoreSku(rows, scan.start.value, i);
    }
    OneMoreSku(rows, i, i);
    assert SkusOf(rows, i, i) == {} by {
      NoSkus(rows, i);
    }
  }

  lemma NoSkus(rows: seq<Row>, a: nat)
    ensures SkusOf(rows, a, a) == {}
  {
  }

  lemma {:induction false} RunsStartLater(rows: seq<Row>, i: nat, scan: Scan)
    requires i <= |rows| && scan.start.None?
    ensures Intended(rows, i, scan) != [] ==> Intended(rows, i, scan)[0].start >= i
    decreases |rows| - i
  {
    if i < |rows| && !rows[i].footer {
      if rows[i].sku.None? {
        RunsStartLater(rows, i + 1, ProcessIntended(rows[i], i, scan).scan);
      } else {
        OpenRunGoesOn(rows, i + 1, ProcessIntended(rows[i], i, scan).scan);
      }
    }
  }

  /** What `Carried` says about the rows from `i` on, said about the runs. */
  ghost predicate CarriedOnRuns(rows: seq<Row>, i: nat, scan: Scan, prior: set<string>)
    requires i <= |rows|
  {
    var runs := Intended(rows, i, scan);
    if scan.start.Some? && runs != [] then
      Meets(rows, runs[0], i, prior) || Crosses(rows, runs[1..], PassedOn(rows, runs, prior))
    else Crosses(rows, runs, prior)
  }

  /** A blank row, or the first SKU of a run, changes nothing. */
  lemma QuietRow(rows: seq<Row>, i: nat, scan: Scan, prior: set<string>)
    requires OwnMemory(rows, i, scan) && i < |rows| && !rows[i].footer
    requires rows[i].sku.Some? ==> scan.start.None?
    requires ProcessIntended(rows[i], i, scan).run.None?
    ensures CarriedOnRuns(rows, i, scan, prior) <==>
      CarriedOnRuns(rows, i + 1, ProcessIntended(rows[i], i, scan).scan, prior)
  {
    hide SkusOf, PassedOn, Crosses;
    var next := ProcessIntended(rows[i], i, scan).scan;
    var runs := Intended(rows, i + 1, next);
    assert Intended(rows, i, scan) == [] + runs == runs;
    if next.start.Some? {
      OpenRunGoesOn(rows, i + 1, next);
      assert Meets(rows, runs[0], if scan.start.Some? then i else 0, prior) <==> Meets(rows, runs[0], i + 1, prior);
      CrossesUnfold(rows, runs, prior);
    }
  }

  lemma CrossesUnfold(rows: seq<Row>, runs: seq<Run>, prior: set<string>)
    ensures Crosses(rows, runs, prior)
            <==> runs != [] && (Meets(rows, runs[0], 0, prior) || Crosses(rows, runs[1..], PassedOn(rows, runs, prior)))
  {
  }

  /** A new SKU of an open run. */
  lemma NewSku(rows: seq<Row>, i: nat, scan: Scan, prior: set<string>)
    requires OwnMemory(rows, i, scan) && i < |rows| && !rows[i].footer
    requires rows[i].sku.Some? && scan.start.Some? && rows[i].sku.value !in scan.seen
    ensures CarriedOnRuns(rows, i, scan, prior)
            <==> rows[i].sku.value in prior || CarriedOnRuns(rows, i + 1, ProcessIntended(rows[i], i, scan).scan, prior)
  {
    hide SkusOf, PassedOn, Crosses;
    var next := ProcessIntended(rows[i], i, scan).scan;
    var runs := Intended(rows, i + 1, next);
    assert Intended(rows, i, scan) == [] + runs == runs;
    OpenRunGoesOn(rows, i + 1, next);
    assert Below(runs[0], i);
    assert Meets(rows, runs[0], i, prior) <==> rows[i].sku.value in prior || Meets(rows, runs[0], i + 1, prior);
  }

  /** A row that ends a run: the rest is walked with what that run passes on. */
  lemma RunEnds(rows: seq<Row>, i: nat, scan: Scan, prior: set<string>)
    requires OwnMemory(rows, i, scan) && i < |rows| && !rows[i].footer && ProcessIntended(rows[i], i, scan).run.Some?
    ensures var next := ProcessIntended(rows[i], i, scan).scan;
      CarriedOnRuns(rows, i, scan, prior) <==> CarriedOnRuns(rows, i + 1, next, LeftOver(rows[i], scan, prior))
  {
    hide Crosses, Intended;
    var next := ProcessIntended(rows[i], i, scan);
    var rest := Intended(rows, i + 1, next.scan);
    var run := next.run.value;
    IntendedUnfold(rows, i, scan);
    var runs := [run] + rest;
    assert runs[1..] == rest;
    assert !Meets(rows, run, i, prior);
    CrossesUnfold(rows, rest, LeftOver(rows[i], scan, prior));
    if rows[i].sku.None? {
      RunsStartLater(rows, i + 1, next.scan);
      if rest != [] {
        OneMoreSku(rows, run.start, i - 1);
        assert SkusOf(rows, run.start, run.end + 1) == scan.seen;
        assert PassedOn(rows, runs, prior) == LeftOver(rows[i], scan, prior);
      } else {
        CrossesUnfold(rows, rest, PassedOn(rows, runs, prior));
      }
    } else {
      OpenRunGoesOn(rows, i + 1, next.scan);
      assert PassedOn(rows, runs, prior) == {};
      assert !Meets(rows, rest[0], 0, {}) && !Meets(rows, rest[0], i + 1, {});
    }
  }

  lemma IntendedUnfold(rows: seq<Row>, i: nat, scan: Scan)
    requires i < |rows| && !rows[i].footer && ProcessIntended(rows[i], i, scan).run.Some?
    ensures var next := ProcessIntended(rows[i], i, scan);
      Intended(rows, i, scan) == [next.run.value] + Intended(rows, i + 1, next.scan)
  {
  }

  lemma {:induction false} CarriedIffOnRuns(rows: seq<Row>, i: nat, scan: Scan, prior: set<string>)
    requires OwnMemory(rows, i, scan)
    ensures Carried(rows, i, scan, prior) <==> CarriedOnRuns(rows, i, scan, prior)
    decreases |rows| - i
  {
    hide CarriedOnRuns;
    if i == |rows| || rows[i].footer {
      NothingFollows(rows, i, scan, prior);
    } else {
      var next := ProcessIntended(rows[i], i, scan);
      StepKeepsOwnMemory(rows, i, scan);
      CarriedIffOnRuns(rows, i + 1, next.scan, LeftOver(rows[i], scan, prior));
      if next.run.Some? {
        RunEnds(rows, i, scan, prior);
      } else if rows[i].sku.Some? && scan.start.Some? {
        NewSku(rows, i, scan, prior);
      } else {
        QuietRow(rows, i, scan, prior);
      }
    }
  }

  lemma NothingFollows(rows: seq<Row>, i: nat, scan: Scan, prior: set<string>)
    requires i <= |rows| && (i < |rows| ==> rows[i].footer)
    ensures !CarriedOnRuns(rows, i, scan, prior)
  {
    assert Intended(rows, i, scan) == Rest(scan, i);
  }

  lemma GapsShift(runs: seq<Run>, a: nat, b: nat)
    requires b + 1 < |runs|
    ensures GapsBetween(runs[1..], a, b) <==> GapsBetween(runs, a + 1, b + 1)
    ensures GapsBetween(runs, 0, b + 1) <==> Gap(runs[0], runs[1]) && GapsBetween(runs[1..], 0, b)
  {
    var rest := runs[1..];
    if GapsBetween(rest, a, b) {
      forall c: nat | a + 1 <= c < b + 1 ensures Gap(runs[c], runs[c + 1]) {
        assert Gap(rest[c - 1], rest[c - 1 + 1]);
      }
    }
    if Gap(runs[0], runs[1]) && GapsBetween(rest, 0, b) {
      forall c: nat | 0 < c < b + 1 ensures Gap(runs[c], runs[c + 1]) {
        assert Gap(rest[c - 1], rest[c - 1 + 1]);
      }
    }
    if GapsBetween(runs, a + 1, b + 1) {
      forall c: nat | a <= c < b ensures Gap(rest[c], rest[c + 1]) {
        assert Gap(runs[c + 1], runs[c + 1 + 1]);
      }
    }
    if GapsBetween(runs, 0, b + 1) {
      assert Gap(runs[0], runs[0 + 1]);
      forall c: nat | c < b ensures Gap(rest[c], rest[c + 1]) {
        assert Gap(runs[c + 1], runs[c + 1 + 1]);
      }
    }
  }

  ghost predicate Hit(rows: seq<Row>, runs: seq<Run>, prior: set<string>) {
    exists b: nat, k: nat :: HitBy(rows, runs, prior, b, k)
  }

  /** A hit or a sharing of the later runs is one of all the runs. */
  lemma LaterRuns(rows: seq<Row>, runs: seq<Run>, prior: set<string>)
    requires runs != []
    ensures Hit(rows, runs[1..], PassedOn(rows, runs, prior)) ==> Hit(rows, runs, prior) || ShareOverGaps(rows, runs)
    ensures ShareOverGaps(rows, runs[1..]) ==> ShareOverGaps(rows, runs)
  {
    var rest := runs[1..];
    if ShareOverGaps(rows, rest) {
      var a: nat, b: nat, j: nat, k: nat :| SharedBy(rows, rest, a, b, j, k);
      GapsShift(runs, a, b);
      assert SharedBy(rows, runs, a + 1, b + 1, j, k);
    }
    if Hit(rows, rest, PassedOn(rows, runs, prior)) {
      var b: nat, k: nat :| HitBy(rows, rest, PassedOn(rows, runs, prior), b, k);
      GapsShift(runs, 0, b);
      if rows[k].sku.value in prior {
        assert HitBy(rows, runs, prior, b + 1, k);
      } else {
        var j: nat :| runs[0].start <= j < runs[0].end + 1 && j < |rows| && rows[j].sku.Some?
          && rows[j].sku.value == rows[k].sku.value;
        assert SharedBy(rows, runs, 0, b + 1, j, k);
      }
    }
  }

  /** And one of all the runs is found in the first run or in the later ones. */
  lemma FirstOrLater(rows: seq<Row>, runs: seq<Run>, prior: set<string>)
    requires runs != []
    ensures Hit(rows, runs, prior) ==>
      Meets(rows, runs[0], 0, prior) || Hit(rows, runs[1..], PassedOn(rows, runs, prior))
    ensures ShareOverGaps(rows, runs) ==>
      Hit(rows, runs[1..], PassedOn(rows, runs, prior)) || ShareOverGaps(rows, runs[1..])
  {
    var rest := runs[1..];
    if Hit(rows, runs, prior) {
      var b: nat, k: nat :| HitBy(rows, runs, prior, b, k);
      if b > 0 {
        GapsShift(runs, 0, b - 1);
        assert HitBy(rows, rest, PassedOn(rows, runs, prior), b - 1, k);
      }
    }
    if ShareOverGaps(rows, runs) {
      var a: nat, b: nat, j: nat, k: nat :| SharedBy(rows, runs, a, b, j, k);
      GapsShift(runs, if a > 0 then a - 1 else 0, b - 1);
      if a > 0 {
        assert SharedBy(rows, rest, a - 1, b - 1, j, k);
      } else {
        assert rows[j].sku.value in SkusOf(rows, runs[0].start, runs[0].end + 1);
        assert HitBy(rows, rest, PassedOn(rows, runs, prior), b - 1, k);
      }
    }
  }

  lemma {:induction false} CrossesIff(rows: seq<Row>, runs: seq<Run>, prior: set<string>)
    ensures Crosses(rows, runs, prior) <==> Hit(rows, runs, prior) || ShareOverGaps(rows, runs)
  {
    hide PassedOn, ShareOverGaps, HitBy;
    if runs == [] {
      NoRunsNoSharing(rows, prior);
    } else {
      CrossesIff(rows, runs[1..], PassedOn(rows, runs, prior));
      LaterRuns(rows, runs, prior);
      FirstOrLater(rows, runs, prior);
      if Meets(rows, runs[0], 0, prior) {
        MeetsIsHit(rows, runs, prior);
      }
    }
  }

  lemma MeetsIsHit(rows: seq<Row>, runs: seq<Run>, prior: set<string>)
    requires runs != [] && Meets(rows, runs[0], 0, prior)
    ensures Hit(rows, runs, prior)
  {
    var k: nat :| k < |rows| && Below(runs[0], k) && rows[k].sku.Some? && rows[k].sku.value in prior;
    assert HitBy(rows, runs, prior, 0, k);
  }

  lemma NoRunsNoSharing(rows: seq<Row>, prior: set<string>)
    ensures !Hit(rows, [], prior) && !ShareOverGaps(rows, [])
  {
  }

  /**
   When the memory matters: a sheet is cut as intended exactly when no open run meets a left-over SKU; that is, when no
   intended run holds, below its first row, an SKU of an earlier intended run with nothing but two-blank ends between
   them.
   */
  lemma CutAsIntendedIff(rows: seq<Row>, headerRow: nat)
    requires headerRow < |rows|
    ensures var intended := Intended(rows, headerRow + 1, FRESH);
      && (Segments(rows, headerRow + 1, FRESH) == intended <==> !Carried(rows, headerRow + 1, FRESH, {}))
      && (Segments(rows, headerRow + 1, FRESH) == intended <==> !ShareOverGaps(rows, intended))
  {
    hide Segments, Intended, Carried, Crosses, ShareOverGaps, Hit;
    CarriedDecides(rows, headerRow + 1, FRESH, {});
    assert FRESH.seen + {} == FRESH.seen;
    CarriedIffOnRuns(rows, headerRow + 1, FRESH, {});
    CrossesIff(rows, Intended(rows, headerRow + 1, FRESH), {});
    NothingHits(rows, Intended(rows, headerRow + 1, FRESH));
  }

  lemma NothingHits(rows: seq<Row>, runs: seq<Run>)
    ensures !Hit(rows, runs, {})
  {
  }

  // ------------------------------------------------- the property and its condition

  /** A run that is cut before an SKU holds that SKU. */
  ghost predicate HoldsItsCut(rows: seq<Row>, run: Run) {
    0 < run.end + 1 < |rows| && !rows[run.end + 1].footer && rows[run.end + 1].sku.Some? ==>
      rows[run.end + 1].sku.value in SkusOf(rows, run.start, run.end + 1)
  }

  ghost predicate AllHoldTheirCuts(rows: seq<Row>, runs: seq<Run>) {
    forall run | run in runs :: HoldsItsCut(rows, run)
  }

  lemma MeetingBreaks(rows: seq<Row>, i: nat, scan: Scan, prior: set<string>)
    requires OwnMemory(rows, i, scan) && i < |rows| && MeetsLeftOver(rows[i], scan, prior)
    ensures !AllHoldTheirCuts(rows, Segments(rows, i, scan.(seen := scan.seen + prior)))
  {
    hide Segments, SkusOf;
    FirstCut(rows, i, scan.(seen := scan.seen + prior));
    var runs := Segments(rows, i, scan.(seen := scan.seen + prior));
    assert runs[0] in runs && !HoldsItsCut(rows, runs[0]);
  }

  /** A run that ends without meeting a left-over SKU holds what cuts it. */
  lemma OwnCut(rows: seq<Row>, i: nat, scan: Scan)
    requires OwnMemory(rows, i, scan) && i < |rows| && !rows[i].footer && ProcessIntended(rows[i], i, scan).run.Some?
    ensures HoldsItsCut(rows, ProcessIntended(rows[i], i, scan).run.value)
  {
    hide SkusOf;
  }

  lemma {:induction false} HoldIffNotCarried(rows: seq<Row>, i: nat, scan: Scan, prior: set<string>)
    requires OwnMemory(rows, i, scan)
    ensures AllHoldTheirCuts(rows, Segments(rows, i, scan.(seen := scan.seen + prior))) <==>
      !Carried(rows, i, scan, prior)
    decreases |rows| - i
  {
    hide ProcessIntended, ProcessQuoteRow, SkusOf;
    if i == |rows| {
    } else if MeetsLeftOver(rows[i], scan, prior) {
      MeetingBreaks(rows, i, scan, prior);
    } else {
      SameStep(rows[i], i, scan, prior);
      FooterOrNext(rows[i], i, scan.(seen := scan.seen + prior));
      if !rows[i].footer {
        var next := ProcessIntended(rows[i], i, scan);
        StepKeepsOwnMemory(rows, i, scan);
        HoldIffNotCarried(rows, i + 1, next.scan, LeftOver(rows[i], scan, prior));
        if next.run.Some? {
          OwnCut(rows, i, scan);
        }
      }
    }
  }

  /** Every run of a sheet holds the SKU that cuts it exactly when no run meets a left-over SKU. */
  lemma RunsHoldTheirCutsIff(rows: seq<Row>, headerRow: nat)
    requires headerRow < |rows|
    ensures AllHoldTheirCuts(rows, Segments(rows, headerRow + 1, FRESH)) <==> !Carried(rows, headerRow + 1, FRESH, {})
  {
    hide Segments, Carried;
    HoldIffNotCarried(rows, headerRow + 1, FRESH, {});
    assert FRESH.seen + {} == FRESH.seen;
  }

  /** And it does matter on some sheets: the last two rows could be one run, and are cut by an SKU of an earlier one. */
  lemma OldSkusStillCut(a: string, b: string)
    requires a != b
    ensures var blank := Row(false, None);
      var rows := [blank, Row(false, Some(a)), blank, blank, Row(false, Some(b)), Row(false, Some(a))];
      && Segments(rows, 1, FRESH) == [Run(1, 1), Run(4, 4), Run(5, 5)]
      && Intended(rows, 1, FRESH) == [Run(1, 1), Run(4, 5)]
      && Carried(rows, 1, FRESH, {}) && !AllHoldTheirCuts(rows, Segments(rows, 1, FRESH))
  {
    var blank := Row(false, None);
    var rows := [blank, Row(false, Some(a)), blank, blank, Row(false, Some(b)), Row(false, Some(a))];
    OldSkusCut(rows, a, b);
    OldSkusForgotten(rows, a, b);
    CutAsIntendedIff(rows, 0);
    RunsHoldTheirCutsIff(rows, 0);
    assert Segments(rows, 1, FRESH)[1] != Intended(rows, 1, FRESH)[1];
  }

  lemma OldSkusCut(rows: seq<Row>, a: string, b: string)
    requires a != b
    requires var blank := Row(false, None);
      rows == [blank, Row(false, Some(a)), blank, blank, Row(false, Some(b)), Row(false, Some(a))]
    ensures Segments(rows, 1, FRESH) == [Run(1, 1), Run(4, 4), Run(5, 5)]
  {
    assert Segments(rows, 5, Scan(Some(4), 0, {a} + {b})) == [Run(4, 4)] + Segments(rows, 6, Scan(Some(5), 0, {a}));
    assert Segments(rows, 4, Scan(None, 2, {a})) == Segments(rows, 5, Scan(Some(4), 0, {a} + {b}));
    assert Segments(rows, 3, Scan(Some(1), 1, {a})) == [Run(1, 1)] + Segments(rows, 4, Scan(None, 2, {a}));
    assert Segments(rows, 2, Scan(Some(1), 0, {a})) == Segments(rows, 3, Scan(Some(1), 1, {a}));
    assert {} + {a} == {a};
    assert Segments(rows, 1, FRESH) == Segments(rows, 2, Scan(Some(1), 0, {a}));
  }

  lemma OldSkusForgotten(rows: seq<Row>, a: string, b: string)
    requires a != b
    requires var blank := Row(false, None);
      rows == [blank, Row(false, Some(a)), blank, blank, Row(false, Some(b)), Row(false, Some(a))]
    ensures Intended(rows, 1, FRESH) == [Run(1, 1), Run(4, 5)]
  {
    assert {} + {a} == {a} && {} + {b} == {b};
    assert Intended(rows, 5, Scan(Some(4), 0, {b})) == Intended(rows, 6, Scan(Some(4), 0, {b} + {a}));
    assert Intended(rows, 4, Scan(None, 2, {})) == Intended(rows, 5, Scan(Some(4), 0, {b}));
    assert Intended(rows, 3, Scan(Some(1), 1, {a})) == [Run(1, 1)] + Intended(rows, 4, Scan(None, 2, {}));
    assert Intended(rows, 2, Scan(Some(1), 0, {a})) == Intended(rows, 3, Scan(Some(1), 1, {a}));
    assert Intended(rows, 1, FRESH) == Intended(rows, 2, Scan(Some(1), 0, {a}));
  }
}
