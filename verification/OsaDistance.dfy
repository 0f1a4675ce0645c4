/** The bounded edit distance of packages/parser/src/normalize.ts, on strings that are already normalised. */
module OsaDistance {
  import opened Prelude

  // ---------------------------------------------------------------- meaning

  /** One step of an alignment: at most one edit touches any character. */
  datatype Edit = Keep(c: char) | Replace(x: char, y: char) | Insert(y: char) | Delete(x: char) | Swap(x: char, y: char)
  {
    function Source(): string {
      match this
      case Keep(c) => [c]
      case Replace(x, y) => [x]
      case Insert(y) => []
      case Delete(x) => [x]
      case Swap(x, y) => [x, y]
    }

    function Target(): string {
      match this
      case Keep(c) => [c]
      case Replace(x, y) => [y]
      case Insert(y) => [y]
      case Delete(x) => []
      case Swap(x, y) => [y, x]
    }

    function Cost(): nat {
      if Keep? then 0 else 1
    }
  }

  function SourceOf(script: seq<Edit>): string {
    if script == [] then [] else SourceOf(script[..|script| - 1]) + script[|script| - 1].Source()
  }

  function TargetOf(script: seq<Edit>): string {
    if script == [] then [] else TargetOf(script[..|script| - 1]) + script[|script| - 1].Target()
  }

  function CostOf(script: seq<Edit>): nat {
    if script == [] then 0 else CostOf(script[..|script| - 1]) + script[|script| - 1].Cost()
  }

  // ------------------------------------------------------------- recurrence

  /** The textbook recurrence for the distance between the first `i` characters of `a` and the first `j` of `b`. */
  function Osa(a: string, b: string, i: nat, j: nat): nat
    requires i <= |a| && j <= |b|
    decreases i + j
  {
    if i == 0 then j
    else if j == 0 then i
    else
      var edit := Cheapest(Osa(a, b, i, j - 1), Osa(a, b, i - 1, j), Osa(a, b, i - 1, j - 1), a[i - 1] == b[j - 1]);
      if Transposed(a, b, i, j) then Min(edit, Osa(a, b, i - 2, j - 2) + 1) else edit
  }

  /** The cheapest way to end with an insertion, a deletion or a match. */
  function Cheapest(left: nat, up: nat, diagonal: nat, same: bool): nat {
    Min(Min(left + 1, up + 1), diagonal + if same then 0 else 1)
  }

  predicate Transposed(a: string, b: string, i: nat, j: nat)
    requires i <= |a| && j <= |b|
  {
    1 < i && 1 < j && a[i - 1] == b[j - 2] && a[i - 2] == b[j - 1]
  }

  function Distance(a: string, b: string): nat {
    Osa(a, b, |a|, |b|)
  }

  /** The recurrence, unfolded once. */
  lemma OsaUnfold(a: string, b: string, i: nat, j: nat)
    requires 0 < i <= |a| && 0 < j <= |b|
    ensures var edit :=
        Cheapest(Osa(a, b, i, j - 1), Osa(a, b, i - 1, j), Osa(a, b, i - 1, j - 1), a[i - 1] == b[j - 1]);
      Osa(a, b, i, j) == if Transposed(a, b, i, j) then Min(edit, Osa(a, b, i - 2, j - 2) + 1) else edit
  {
    hide Cheapest, Min;
  }

  lemma OsaBorder(a: string, b: string, i: nat, j: nat)
    requires i <= |a| && j <= |b| && (i == 0 || j == 0)
    ensures Osa(a, b, i, j) == i + j
  {
  }

  lemma {:induction false} PrefixOnly(a: string, b: string, x: string, y: string, i: nat, j: nat)
    requires i <= |a| && j <= |b|
    ensures Osa(a + x, b + y, i, j) == Osa(a, b, i, j)
    decreases i + j
  {
    hide Osa, Cheapest;
    if i == 0 || j == 0 {
      OsaBorder(a, b, i, j);
      OsaBorder(a + x, b + y, i, j);
    } else {
      OsaUnfold(a, b, i, j);
      OsaUnfold(a + x, b + y, i, j);
      assert (a + x)[i - 1] == a[i - 1] && (b + y)[j - 1] == b[j - 1];
      assert Transposed(a + x, b + y, i, j) == Transposed(a, b, i, j);
      PrefixOnly(a, b, x, y, i, j - 1);
      PrefixOnly(a, b, x, y, i - 1, j);
      PrefixOnly(a, b, x, y, i - 1, j - 1);
      if Transposed(a, b, i, j) {
        PrefixOnly(a, b, x, y, i - 2, j - 2);
      }
    }
  }

  /** The shape of a last step: how far it moves back in each string. */
  predicate IsStep(a: string, b: string, i: nat, j: nat, di: nat, dj: nat)
    requires i <= |a| && j <= |b|
  {
    && di <= i && dj <= j
    && ((di == 0 && dj == 1) || (di == 1 && dj == 0) || (di == 1 && dj == 1)
      || (di == 2 && dj == 2 && Transposed(a, b, i, j)))
  }

  function StepCost(a: string, b: string, i: nat, j: nat, di: nat, dj: nat): nat
    requires i <= |a| && j <= |b| && IsStep(a, b, i, j, di, dj)
  {
    if di == 1 && dj == 1 && a[i - 1] == b[j - 1] then 0 else 1
  }

  /** No step can beat the recurrence. */
  lemma {:induction false} StepBound(a: string, b: string, i: nat, j: nat, di: nat, dj: nat)
    requires i <= |a| && j <= |b| && IsStep(a, b, i, j, di, dj)
    ensures Osa(a, b, i, j) <= Osa(a, b, i - di, j - dj) + StepCost(a, b, i, j, di, dj)
  {
    hide Osa;
    if i == 0 || j == 0 {
      OsaBorder(a, b, i, j);
      OsaBorder(a, b, i - di, j - dj);
    } else {
      OsaUnfold(a, b, i, j);
    }
  }

  /** Some step attains the recurrence. */
  lemma LastStep(a: string, b: string, i: nat, j: nat) returns (di: nat, dj: nat)
    requires i <= |a| && j <= |b| && 0 < i + j
    ensures IsStep(a, b, i, j, di, dj)
    ensures Osa(a, b, i, j) == Osa(a, b, i - di, j - dj) + StepCost(a, b, i, j, di, dj)
  {
    hide Osa;
    var d := Osa(a, b, i, j);
    if i == 0 || j == 0 {
      OsaBorder(a, b, i, j);
      di, dj := if i == 0 then 0 else 1, if i == 0 then 1 else 0;
      OsaBorder(a, b, i - di, j - dj);
      return;
    }
    OsaUnfold(a, b, i, j);
    var left, up, diagonal := Osa(a, b, i, j - 1), Osa(a, b, i - 1, j), Osa(a, b, i - 1, j - 1);
    if d == left + 1 {
      return 0, 1;
    } else if d == up + 1 {
      return 1, 0;
    } else if d == diagonal + StepCost(a, b, i, j, 1, 1) {
      return 1, 1;
    } else {
      return 2, 2;
    }
  }

  lemma AppendEdit(a: string, b: string, op: Edit)
    ensures Distance(a + op.Source(), b + op.Target()) <= Distance(a, b) + op.Cost()
  {
    hide Osa;
    var x, y := op.Source(), op.Target();
    PrefixOnly(a, b, x, y, |a|, |b|);
    StepBound(a + x, b + y, |a + x|, |b + y|, |x|, |y|);
  }

  lemma {:induction false} ExtendScript(init: seq<Edit>, op: Edit)
    ensures SourceOf(init + [op]) == SourceOf(init) + op.Source()
    ensures TargetOf(init + [op]) == TargetOf(init) + op.Target()
    ensures CostOf(init + [op]) == CostOf(init) + op.Cost()
  {
    var script := init + [op];
    assert script[..|script| - 1] == init;
  }

  /** No alignment is cheaper than the recurrence says. */
  lemma {:induction false} NoCheaperScript(script: seq<Edit>)
    ensures Distance(SourceOf(script), TargetOf(script)) <= CostOf(script)
  {
    if script != [] {
      var init, op := script[..|script| - 1], script[|script| - 1];
      NoCheaperScript(init);
      AppendEdit(SourceOf(init), TargetOf(init), op);
    }
  }

  /** The edit with a given source and target. */
  function EditOf(x: string, y: string): (op: Edit)
    requires
      || (|x| == 0 && |y| == 1)
      || (|x| == 1 && |y| == 0)
      || (|x| == 1 && |y| == 1)
      || (|x| == 2 && |y| == 2 && x[0] == y[1] && x[1] == y[0])
    ensures op.Source() == x && op.Target() == y
    ensures op.Cost() == if |x| == 1 && x == y then 0 else 1
  {
    if |x| == 0 then Insert(y[0])
    else if |y| == 0 then Delete(x[0])
    else if |x| == 2 then Swap(x[0], x[1])
    else if x == y then Keep(x[0]) else Replace(x[0], y[0])
  }

  lemma StepIsEdit(a: string, b: string, i: nat, j: nat, di: nat, dj: nat) returns (op: Edit)
    requires i <= |a| && j <= |b| && IsStep(a, b, i, j, di, dj)
    ensures a[..i] == a[..i - di] + op.Source() && b[..j] == b[..j - dj] + op.Target()
    ensures op.Cost() == StepCost(a, b, i, j, di, dj)
  {
    var x, y := a[i - di..i], b[j - dj..j];
    assert a[..i] == a[..i - di] + x && b[..j] == b[..j - dj] + y;
    op := EditOf(x, y);
  }

  /** Some alignment attains what the recurrence says. */
  lemma {:induction false} CheapestScript(a: string, b: string, i: nat, j: nat) returns (script: seq<Edit>)
    requires i <= |a| && j <= |b|
    ensures SourceOf(script) == a[..i] && TargetOf(script) == b[..j]
    ensures CostOf(script) == Osa(a, b, i, j)
    decreases i + j
  {
    if i + j == 0 {
      return [];
    }
    var di, dj := LastStep(a, b, i, j);
    var op := StepIsEdit(a, b, i, j, di, dj);
    var init := CheapestScript(a, b, i - di, j - dj);
    script := init + [op];
    ExtendScript(init, op);
  }

  /** The recurrence is the cost of the cheapest alignment. */
  lemma DistanceIsCheapestAlignment(a: string, b: string)
    ensures forall script :: SourceOf(script) == a && TargetOf(script) == b ==> Distance(a, b) <= CostOf(script)
    ensures exists script :: SourceOf(script) == a && TargetOf(script) == b && Distance(a, b) == CostOf(script)
  {
    forall script | SourceOf(script) == a && TargetOf(script) == b
      ensures Distance(a, b) <= CostOf(script)
    {
      NoCheaperScript(script);
    }
    var script := CheapestScript(a, b, |a|, |b|);
    assert a[..|a|] == a && b[..|b|] == b;
  }

  /** Two strings are at distance zero exactly when they are equal. */
  lemma {:induction false} ZeroIffEqual(a: string, b: string, i: nat, j: nat)
    requires i <= |a| && j <= |b|
    ensures Osa(a, b, i, j) == 0 <==> a[..i] == b[..j]
    decreases i + j
  {
    hide Osa;
    if i == 0 || j == 0 {
      OsaBorder(a, b, i, j);
    } else {
      OsaUnfold(a, b, i, j);
      ZeroIffEqual(a, b, i - 1, j - 1);
      assert a[..i] == a[..i - 1] + [a[i - 1]] && b[..j] == b[..j - 1] + [b[j - 1]];
    }
  }

  // ------------------------------------------------------------ early exits

  /** The length-difference exit is sound: a swap moves both indices alike. */
  lemma {:induction false} AtLeastLengthDifference(a: string, b: string, i: nat, j: nat)
    requires i <= |a| && j <= |b|
    ensures Abs(i - j) <= Osa(a, b, i, j)
    decreases i + j
  {
    if 0 < i && 0 < j {
      var di, dj := LastStep(a, b, i, j);
      AtLeastLengthDifference(a, b, i - di, j - dj);
    }
  }

  ghost predicate RowAbove(a: string, b: string, i: nat, max: int)
    requires i <= |a|
  {
    forall j: nat :: j <= |b| ==> max < Osa(a, b, i, j)
  }

  /** A row that lies above the bound forces the row before it up to the bound, so a swap across it gains nothing. */
  lemma RowBeforeAtLeast(a: string, b: string, i: nat, max: int, j: nat)
    requires 0 < i <= |a| && j <= |b| && RowAbove(a, b, i, max)
    ensures max <= Osa(a, b, i - 1, j)
  {
    StepBound(a, b, i, j, 1, 0);
  }

  lemma {:induction false} NextRowAbove(a: string, b: string, i: nat, max: int, j: nat)
    requires i < |a| && j <= |b| && RowAbove(a, b, i, max)
    ensures max < Osa(a, b, i + 1, j)
  {
    assert max < Osa(a, b, i, 0);
    if 0 < j {
      NextRowAbove(a, b, i, max, j - 1);
      assert max < Osa(a, b, i, j) && max < Osa(a, b, i, j - 1);
      if Transposed(a, b, i + 1, j) {
        RowBeforeAtLeast(a, b, i, max, j - 2);
      }
    }
  }

  /** The row cut-off is sound: once a whole row exceeds the bound, so does every later row. */
  lemma {:induction false} RowAboveStays(a: string, b: string, i: nat, k: nat, max: int)
    requires i <= k <= |a| && RowAbove(a, b, i, max)
    ensures RowAbove(a, b, k, max)
    decreases k - i
  {
    if i < k {
      var next := i + 1;
      forall j: nat | j <= |b| ensures max < Osa(a, b, next, j) {
        NextRowAbove(a, b, i, max, j);
      }
      RowAboveStays(a, b, i + 1, k, max);
    }
  }

  // -------------------------------------------------------------- algorithm

  ghost predicate IsRow(a: string, b: string, i: nat, row: seq<int>)
    requires i <= |a|
  {
    |row| <= |b| + 1 && forall j :: 0 <= j < |row| ==> row[j] == Osa(a, b, i, j)
  }

  method LeastOf(row: seq<int>) returns (least: int)
    requires row != []
    ensures least in row && forall j :: 0 <= j < |row| ==> least <= row[j]
  {
    least := row[0];
    for k := 1 to |row|
      invariant least in row && forall j :: 0 <= j < k ==> least <= row[j]
    {
      if row[k] < least {
        least := row[k];
      }
    }
  }

  /** One row of the table from the two rows before it. */
  method FillRow(a: string, b: string, i: nat, prev: seq<int>, prev2: seq<int>) returns (row: seq<int>)
    requires 0 < i <= |a|
    requires |prev| == |b| + 1 && IsRow(a, b, i - 1, prev)
    requires 1 < i ==> |prev2| == |b| + 1 && IsRow(a, b, i - 2, prev2)
    ensures |row| == |b| + 1 && IsRow(a, b, i, row)
  {
    row := [i];
    for j := 1 to |b| + 1
      invariant |row| == j && IsRow(a, b, i, row)
    {
      var v: int := Cheapest(row[j - 1], prev[j], prev[j - 1], a[i - 1] == b[j - 1]);
      if i > 1 && j > 1 && a[i - 1] == b[j - 2] && a[i - 2] == b[j - 1] {
        v := Min(v, prev2[j - 2] + 1);
      }
      row := row + [v];
    }
  }

  /** The rolling three-row computation with its two early exits. */
  method OsaBounded(a: string, b: string, max: int := 3) returns (r: int)
    ensures r <= max <==> Distance(a, b) <= max
    ensures r <= max ==> r == Distance(a, b)
  {
    if Abs(|a| - |b|) > max {
      AtLeastLengthDifference(a, b, |a|, |b|);
      return max + 1;
    }
    var prev: seq<int> := seq(|b| + 1, j => j);
    var prev2: seq<int> := [];
    for i := 1 to |a| + 1
      invariant |prev| == |b| + 1 && IsRow(a, b, i - 1, prev)
      invariant 1 < i ==> |prev2| == |b| + 1 && IsRow(a, b, i - 2, prev2)
    {
      var row := FillRow(a, b, i, prev, prev2);
      var least := LeastOf(row);
      if least > max {
        forall j: nat | j <= |b| ensures max < Osa(a, b, i, j) {
          assert least <= row[j];
        }
        RowAboveStays(a, b, i, |a|, max);
        return max + 1;
      }
      prev2 := prev;
      prev := row;
    }
    return prev[|b|];
  }
}
