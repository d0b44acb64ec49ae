/** The conductance matrix of the stacked grid: heat sink below, numLayer layers above, as sorted triples. */
module ThermalMatrix {

  /** Resistances are arbitrary positive reals: vertical per node, horizontal per layer, and to the ambient. */
  datatype Grid = Grid(
    dimX: nat, dimZ: nat, numLayer: nat,
    rvert: (nat, nat, nat) -> real,   // (i, j, layer)
    rhoriX: nat -> real, rhoriZ: nat -> real,
    ramb: real)

  datatype Entry = Entry(row: nat, col: nat, val: real)

  ghost predicate Good(g: Grid) {
    && g.dimX >= 1 && g.dimZ >= 1 && g.ramb > 0.0
    && (forall i, j, l :: g.rvert(i, j, l) > 0.0)
    && (forall l :: g.rhoriX(l) > 0.0) && (forall l :: g.rhoriZ(l) > 0.0)
  }

  ghost predicate InGrid(g: Grid, l: nat, j: nat, i: nat) { l <= g.numLayer && j < g.dimZ && i < g.dimX }

  function Area(g: Grid): (a: nat) { g.dimX * g.dimZ }

  function Idx(g: Grid, l: nat, j: nat, i: nat): (k: nat) { l * Area(g) + j * g.dimX + i }

  function Nodes(g: Grid): (n: nat) { (g.numLayer + 1) * Area(g) }

  function Vertical(g: Grid, i: nat, j: nat, a: nat, b: nat): (v: real)
    requires g.rvert(i, j, a) > 0.0 && g.rvert(i, j, b) > 0.0
    ensures v < 0.0
  {
    -1.0 / (g.rvert(i, j, a) / 2.0 + g.rvert(i, j, b) / 2.0)
  }

  /** Neighbours with a smaller index: below, previous line, previous in line. */
  function Lower(g: Grid, l: nat, j: nat, i: nat): (s: seq<Entry>)
    requires Good(g)
  {
    var r := Idx(g, l, j, i);
    (if l > 0 then [Entry(r, Idx(g, l - 1, j, i), Vertical(g, i, j, l, l - 1))] else [])
    + (if j > 0 then [Entry(r, Idx(g, l, j - 1, i), -1.0 / g.rhoriZ(l))] else [])
    + (if i > 0 then [Entry(r, Idx(g, l, j, i - 1), -1.0 / g.rhoriX(l))] else [])
  }

  /** Neighbours with a larger index: next in line, next line, above. */
  function Upper(g: Grid, l: nat, j: nat, i: nat): (s: seq<Entry>)
    requires Good(g)
  {
    var r := Idx(g, l, j, i);
    (if i + 1 < g.dimX then [Entry(r, Idx(g, l, j, i + 1), -1.0 / g.rhoriX(l))] else [])
    + (if j + 1 < g.dimZ then [Entry(r, Idx(g, l, j + 1, i), -1.0 / g.rhoriZ(l))] else [])
    + (if l < g.numLayer then [Entry(r, Idx(g, l + 1, j, i), Vertical(g, i, j, l, l + 1))] else [])
  }

  function SumVal(s: seq<Entry>): (v: real) {
    if s == [] then 0.0 else SumVal(s[..|s| - 1]) + s[|s| - 1].val
  }

  function Sink(g: Grid, l: nat): (v: real)
    requires g.ramb > 0.0
    ensures v >= 0.0
  {
    if l == 0 then 1.0 / g.ramb else 0.0
  }

  function Diagonal(g: Grid, l: nat, j: nat, i: nat): (e: Entry)
    requires Good(g)
  {
    var r := Idx(g, l, j, i);
    Entry(r, r, Sink(g, l) - SumVal(Lower(g, l, j, i) + Upper(g, l, j, i)))
  }

  /** One row in column order. */
  function Row(g: Grid, l: nat, j: nat, i: nat): (s: seq<Entry>)
    requires Good(g)
  {
    Lower(g, l, j, i) + [Diagonal(g, l, j, i)] + Upper(g, l, j, i)
  }

  /** The rows of the first i nodes of line j of layer l, of the first j lines, of the first l layers. */
  function LineRows(g: Grid, l: nat, j: nat, i: nat): (s: seq<Entry>)
    requires Good(g)
  {
    if i == 0 then [] else LineRows(g, l, j, i - 1) + Row(g, l, j, i - 1)
  }

  function LayerRows(g: Grid, l: nat, j: nat): (s: seq<Entry>)
    requires Good(g)
  {
    if j == 0 then [] else LayerRows(g, l, j - 1) + LineRows(g, l, j - 1, g.dimX)
  }

  function StackRows(g: Grid, l: nat): (s: seq<Entry>)
    requires Good(g)
  {
    if l == 0 then [] else StackRows(g, l - 1) + LayerRows(g, l - 1, g.dimZ)
  }

  function Matrix(g: Grid): (s: seq<Entry>)
    requires Good(g)
  {
    StackRows(g, g.numLayer + 1)
  }

  // ---- Indices ----------------------------------------------------------------------------------------------------

  lemma Distribute(a: int, b: int, c: int)
    ensures (a + b) * c == a * c + b * c
  {}

  lemma Monotone(a: nat, b: nat, c: nat)
    requires a <= b
    ensures a * c <= b * c
  {
    Distribute(a, b - a, c);
    assert (b - a) * c >= 0;
  }

  /** The six neighbours by their distance in the index. */
  lemma NeighbourIdx(g: Grid, l: nat, j: nat, i: nat)
    ensures Idx(g, l + 1, j, i) == Idx(g, l, j, i) + Area(g)
    ensures Idx(g, l, j + 1, i) == Idx(g, l, j, i) + g.dimX
    ensures Idx(g, l, j, i + 1) == Idx(g, l, j, i) + 1
  {
    Distribute(l, 1, Area(g));
    Distribute(j, 1, g.dimX);
  }

  lemma LineFits(g: Grid, j: nat, i: nat)
    requires j < g.dimZ && i <= g.dimX
    ensures j * g.dimX + i <= Area(g) && j * g.dimX + g.dimX <= Area(g)
  {
    Distribute(j, 1, g.dimX);
    Monotone(j + 1, g.dimZ, g.dimX);
  }

  /** A node's index names its layer. */
  lemma LayerOfIdx(g: Grid, l: nat, j: nat, i: nat)
    requires Good(g) && InGrid(g, l, j, i)
    ensures Area(g) > 0 && Idx(g, l, j, i) / Area(g) == l && Idx(g, l, j, i) < Nodes(g)
  {
    LineFits(g, j, i + 1);
    var a := Area(g);
    var rest := j * g.dimX + i;
    assert Idx(g, l, j, i) == l * a + rest && rest < a;
    DivIs(l, a, rest);
    Distribute(l, 1, a);
    Monotone(l + 1, g.numLayer + 1, a);
  }

  lemma DivIs(q: nat, a: nat, rest: nat)
    requires rest < a
    ensures (q * a + rest) / a == q
  {
    var d := (q * a + rest) / a - q;
    var m := (q * a + rest) % a;
    assert q * a + rest == a * ((q * a + rest) / a) + m;
    assert a * d == rest - m by { Distribute(d, q, a); }
    Small(a, d);
  }

  lemma Small(a: nat, d: int)
    requires 0 - a < a * d < a
    ensures d == 0
  {}

  // ---- Sortedness and row intervals -------------------------------------------------------------------------------

  predicate Before(a: Entry, b: Entry) { a.row < b.row || (a.row == b.row && a.col < b.col) }

  ghost predicate Sorted(s: seq<Entry>) { forall a, b :: 0 <= a < b < |s| ==> Before(s[a], s[b]) }

  ghost predicate RowsIn(s: seq<Entry>, lo: nat, hi: nat) { forall e :: e in s ==> lo <= e.row < hi }

  lemma SortedConcat(s: seq<Entry>, t: seq<Entry>, lo: nat, mid: nat, hi: nat)
    requires Sorted(s) && Sorted(t) && RowsIn(s, lo, mid) && RowsIn(t, mid, hi) && lo <= mid <= hi
    ensures Sorted(s + t) && RowsIn(s + t, lo, hi)
  {
    forall a, b | 0 <= a < b < |s + t| ensures Before((s + t)[a], (s + t)[b]) {
      if a < |s| <= b { assert (s + t)[a] in s && (s + t)[b] in t; }
    }
  }

  /** The row's columns strictly increase, and all entries are the node's. */
  lemma RowSorted(g: Grid, l: nat, j: nat, i: nat)
    requires Good(g) && InGrid(g, l, j, i)
    ensures Sorted(Row(g, l, j, i)) && RowsIn(Row(g, l, j, i), Idx(g, l, j, i), Idx(g, l, j, i) + 1)
    ensures forall e :: e in Lower(g, l, j, i) ==> e.col < e.row
    ensures forall e :: e in Upper(g, l, j, i) ==> e.col > e.row
  {
    hide SumVal, Lower, Upper, Idx;
    var lo, d, up := Lower(g, l, j, i), Diagonal(g, l, j, i), Upper(g, l, j, i);
    LowerSorted(g, l, j, i);
    UpperSorted(g, l, j, i);
    assert forall k :: 0 <= k < |lo| ==> lo[k] in lo;
    assert forall k :: 0 <= k < |up| ==> up[k] in up;
  }

  lemma LowerSorted(g: Grid, l: nat, j: nat, i: nat)
    requires Good(g) && InGrid(g, l, j, i)
    ensures Sorted(Lower(g, l, j, i)) && RowsIn(Lower(g, l, j, i), Idx(g, l, j, i), Idx(g, l, j, i) + 1)
    ensures forall e :: e in Lower(g, l, j, i) ==> e.col < e.row
  {
    if l > 0 { NeighbourIdx(g, l - 1, j, i); }
    if j > 0 { NeighbourIdx(g, l, j - 1, i); }
    if i > 0 { NeighbourIdx(g, l, j, i - 1); }
    AreaSteps(g, j);
    hide Idx, Area, Vertical;
  }

  lemma UpperSorted(g: Grid, l: nat, j: nat, i: nat)
    requires Good(g) && InGrid(g, l, j, i)
    ensures Sorted(Upper(g, l, j, i)) && RowsIn(Upper(g, l, j, i), Idx(g, l, j, i), Idx(g, l, j, i) + 1)
    ensures forall e :: e in Upper(g, l, j, i) ==> e.col > e.row
  {
    NeighbourIdx(g, l, j, i);
    AreaSteps(g, j);
    hide Idx, Area, Vertical;
  }

  lemma AreaSteps(g: Grid, j: nat)
    requires Good(g)
    ensures Area(g) >= g.dimX
    ensures j > 0 && j < g.dimZ ==> Area(g) > g.dimX
    ensures j + 1 < g.dimZ ==> Area(g) > g.dimX
  {
    Monotone(1, g.dimZ, g.dimX);
    if g.dimZ >= 2 {
      Monotone(2, g.dimZ, g.dimX);
    }
  }

  lemma {:induction false} LineSorted(g: Grid, l: nat, j: nat, i: nat)
    requires Good(g) && l <= g.numLayer && j < g.dimZ && i <= g.dimX
    ensures Sorted(LineRows(g, l, j, i)) && RowsIn(LineRows(g, l, j, i), Idx(g, l, j, 0), Idx(g, l, j, i))
  {
    hide Row;
    if i > 0 {
      LineSorted(g, l, j, i - 1);
      RowSorted(g, l, j, i - 1);
      SortedConcat(LineRows(g, l, j, i - 1), Row(g, l, j, i - 1), Idx(g, l, j, 0), Idx(g, l, j, i - 1), Idx(g, l, j, i));
    }
  }

  lemma {:induction false} LayerSorted(g: Grid, l: nat, j: nat)
    requires Good(g) && l <= g.numLayer && j <= g.dimZ
    ensures Sorted(LayerRows(g, l, j)) && RowsIn(LayerRows(g, l, j), Idx(g, l, 0, 0), Idx(g, l, j, 0))
  {
    hide LineRows;
    if j > 0 {
      LayerSorted(g, l, j - 1);
      LineSorted(g, l, j - 1, g.dimX);
      Distribute(j - 1, 1, g.dimX);
      SortedConcat(LayerRows(g, l, j - 1), LineRows(g, l, j - 1, g.dimX),
                   Idx(g, l, 0, 0), Idx(g, l, j - 1, 0), Idx(g, l, j, 0));
    }
  }

  lemma {:induction false} StackSorted(g: Grid, l: nat)
    requires Good(g) && l <= g.numLayer + 1
    ensures Sorted(StackRows(g, l)) && RowsIn(StackRows(g, l), 0, Idx(g, l, 0, 0))
  {
    hide LayerRows;
    if l > 0 {
      StackSorted(g, l - 1);
      LayerSorted(g, l - 1, g.dimZ);
      Distribute(l - 1, 1, Area(g));
      assert g.dimZ * g.dimX == Area(g);
      SortedConcat(StackRows(g, l - 1), LayerRows(g, l - 1, g.dimZ), 0, Idx(g, l - 1, 0, 0), Idx(g, l, 0, 0));
    }
  }

  /** The whole matrix is in row order with strictly increasing columns in each row, rows of the grid only. */
  lemma MatrixSorted(g: Grid)
    requires Good(g)
    ensures Sorted(Matrix(g)) && RowsIn(Matrix(g), 0, Nodes(g))
  {
    StackSorted(g, g.numLayer + 1);
  }

  // ---- Membership and symmetry ------------------------------------------------------------------------------------

  lemma {:induction false} LineHas(g: Grid, l: nat, j: nat, i: nat, n: nat, e: Entry)
    requires Good(g) && i < n && e in Row(g, l, j, i)
    ensures e in LineRows(g, l, j, n)
  {
    hide Row;
    if i < n - 1 { LineHas(g, l, j, i, n - 1, e); }
  }

  lemma {:induction false} LayerHas(g: Grid, l: nat, j: nat, n: nat, e: Entry)
    requires Good(g) && j < n && e in LineRows(g, l, j, g.dimX)
    ensures e in LayerRows(g, l, n)
  {
    hide LineRows;
    if j < n - 1 { LayerHas(g, l, j, n - 1, e); }
  }

  lemma {:induction false} StackHas(g: Grid, l: nat, n: nat, e: Entry)
    requires Good(g) && l < n && e in LayerRows(g, l, g.dimZ)
    ensures e in StackRows(g, n)
  {
    hide LayerRows;
    if l < n - 1 { StackHas(g, l, n - 1, e); }
  }

  lemma MatrixHas(g: Grid, l: nat, j: nat, i: nat, e: Entry)
    requires Good(g) && InGrid(g, l, j, i) && e in Row(g, l, j, i)
    ensures e in Matrix(g)
  {
    hide Row;
    LineHas(g, l, j, i, g.dimX, e);
    LayerHas(g, l, j, g.dimZ, e);
    StackHas(g, l, g.numLayer + 1, e);
  }

  lemma {:induction false} LineFrom(g: Grid, l: nat, j: nat, n: nat, e: Entry) returns (i: nat)
    requires Good(g) && e in LineRows(g, l, j, n)
    ensures i < n && e in Row(g, l, j, i)
  {
    hide Row;
    i := n - 1;
    if e !in Row(g, l, j, i) { i := LineFrom(g, l, j, n - 1, e); }
  }

  lemma {:induction false} LayerFrom(g: Grid, l: nat, n: nat, e: Entry) returns (j: nat)
    requires Good(g) && e in LayerRows(g, l, n)
    ensures j < n && e in LineRows(g, l, j, g.dimX)
  {
    hide LineRows;
    j := n - 1;
    if e !in LineRows(g, l, j, g.dimX) { j := LayerFrom(g, l, n - 1, e); }
  }

  lemma {:induction false} StackFrom(g: Grid, n: nat, e: Entry) returns (l: nat)
    requires Good(g) && e in StackRows(g, n)
    ensures l < n && e in LayerRows(g, l, g.dimZ)
  {
    hide LayerRows;
    l := n - 1;
    if e !in LayerRows(g, l, g.dimZ) { l := StackFrom(g, n - 1, e); }
  }

  lemma MatrixFrom(g: Grid, e: Entry) returns (l: nat, j: nat, i: nat)
    requires Good(g) && e in Matrix(g)
    ensures InGrid(g, l, j, i) && e in Row(g, l, j, i)
  {
    hide Row;
    l := StackFrom(g, g.numLayer + 1, e);
    j := LayerFrom(g, l, g.dimZ, e);
    i := LineFrom(g, l, j, g.dimX, e);
  }

  function Flip(e: Entry): Entry { Entry(e.col, e.row, e.val) }

  /** The conductance seen from a neighbour is the same. */
  lemma LowerFlips(g: Grid, l: nat, j: nat, i: nat, e: Entry)
    requires Good(g) && InGrid(g, l, j, i) && e in Lower(g, l, j, i)
    ensures Flip(e) in Matrix(g)
  {
    hide SumVal, Matrix, Idx, Area, Diagonal;
    if l > 0 && Flip(e) in Upper(g, l - 1, j, i) { MatrixHas(g, l - 1, j, i, Flip(e)); }
    if j > 0 && Flip(e) in Upper(g, l, j - 1, i) { MatrixHas(g, l, j - 1, i, Flip(e)); }
    if i > 0 && Flip(e) in Upper(g, l, j, i - 1) { MatrixHas(g, l, j, i - 1, Flip(e)); }
  }

  lemma UpperFlips(g: Grid, l: nat, j: nat, i: nat, e: Entry)
    requires Good(g) && InGrid(g, l, j, i) && e in Upper(g, l, j, i)
    ensures Flip(e) in Matrix(g)
  {
    hide SumVal, Matrix, Idx, Area, Diagonal;
    if l < g.numLayer && Flip(e) in Lower(g, l + 1, j, i) { MatrixHas(g, l + 1, j, i, Flip(e)); }
    if j + 1 < g.dimZ && Flip(e) in Lower(g, l, j + 1, i) { MatrixHas(g, l, j + 1, i, Flip(e)); }
    if i + 1 < g.dimX && Flip(e) in Lower(g, l, j, i + 1) { MatrixHas(g, l, j, i + 1, Flip(e)); }
  }

  lemma RowFlips(g: Grid, l: nat, j: nat, i: nat, e: Entry)
    requires Good(g) && InGrid(g, l, j, i) && e in Row(g, l, j, i)
    ensures Flip(e) in Matrix(g)
  {
    hide SumVal, Matrix, Lower, Upper, Idx;
    if e in Lower(g, l, j, i) {
      LowerFlips(g, l, j, i, e);
    } else if e in Upper(g, l, j, i) {
      UpperFlips(g, l, j, i, e);
    } else {
      MatrixHas(g, l, j, i, Flip(e));
    }
  }

  /** The matrix is symmetric. */
  lemma MatrixSymmetric(g: Grid, e: Entry)
    requires Good(g)
    ensures e in Matrix(g) <==> Flip(e) in Matrix(g)
  {
    hide Matrix, Row;
    if e in Matrix(g) {
      var l, j, i := MatrixFrom(g, e);
      RowFlips(g, l, j, i, e);
    }
    if Flip(e) in Matrix(g) {
      var l, j, i := MatrixFrom(g, Flip(e));
      RowFlips(g, l, j, i, Flip(e));
      assert Flip(Flip(e)) == e;
    }
  }

  // ---- Row sums ---------------------------------------------------------------------------------------------------

  lemma {:induction false} SumConcat(s: seq<Entry>, t: seq<Entry>)
    ensures SumVal(s + t) == SumVal(s) + SumVal(t)
  {
    if t == [] {
      assert s + t == s;
    } else {
      assert (s + t)[..|s + t| - 1] == s + t[..|t| - 1];
      SumConcat(s, t[..|t| - 1]);
    }
  }

  /** A row sums to zero, except for the way to the ambient at the sink. */
  lemma RowSum(g: Grid, l: nat, j: nat, i: nat)
    requires Good(g)
    ensures SumVal(Row(g, l, j, i)) == Sink(g, l)
  {
    hide Lower, Upper, Sink;
    var lo, d, up := Lower(g, l, j, i), [Diagonal(g, l, j, i)], Upper(g, l, j, i);
    SumConcat(lo + d, up);
    SumConcat(lo, d);
    SumConcat(lo, up);
    assert SumVal(d) == SumVal([]) + d[0].val;
  }

  ghost predicate Negative(s: seq<Entry>) { forall e :: e in s ==> e.val < 0.0 }

  lemma OffNegative(g: Grid, l: nat, j: nat, i: nat)
    requires Good(g)
    ensures Negative(Lower(g, l, j, i)) && Negative(Upper(g, l, j, i))
  {}

  lemma {:induction false} NegativeSum(s: seq<Entry>)
    requires Negative(s)
    ensures SumVal(s) <= 0.0 && (s != [] ==> SumVal(s) < 0.0)
  {
    if s != [] {
      NegativeSum(s[..|s| - 1]);
      assert s[|s| - 1] in s;
    }
  }

  /** Every diagonal entry is positive, so the step-size scan never divides by zero. */
  lemma DiagonalPositive(g: Grid, l: nat, j: nat, i: nat)
    requires Good(g)
    ensures Diagonal(g, l, j, i).val > 0.0
  {
    OffNegative(g, l, j, i);
    NegativeSum(Lower(g, l, j, i) + Upper(g, l, j, i));
    assert l > 0 ==> Lower(g, l, j, i) != [];
  }

  // ---- Counting ---------------------------------------------------------------------------------------------------

  /** Neighbours of position k on a line of n. */
  function Degree(k: nat, n: nat): (d: nat) { (if k > 0 then 1 else 0) + (if k + 1 < n then 1 else 0) }

  function DegreeSum(k: nat, n: nat): (d: nat) { if k == 0 then 0 else DegreeSum(k - 1, n) + Degree(k - 1, n) }

  /** Off-diagonal entries of one layer and of the first l layers. */
  function LayerCount(g: Grid, l: nat): (n: nat) {
    g.dimZ * DegreeSum(g.dimX, g.dimX) + g.dimX * DegreeSum(g.dimZ, g.dimZ) + Area(g) * Degree(l, g.numLayer + 1)
  }

  function StackCount(g: Grid, l: nat): (n: nat) { if l == 0 then 0 else StackCount(g, l - 1) + LayerCount(g, l - 1) }

  lemma RowLength(g: Grid, l: nat, j: nat, i: nat)
    requires Good(g) && InGrid(g, l, j, i)
    ensures |Row(g, l, j, i)| == 1 + Degree(i, g.dimX) + Degree(j, g.dimZ) + Degree(l, g.numLayer + 1)
  {
    hide Idx, SumVal, Vertical;
  }

  lemma {:induction false} LineLength(g: Grid, l: nat, j: nat, i: nat)
    requires Good(g) && l <= g.numLayer && j < g.dimZ && i <= g.dimX
    ensures |LineRows(g, l, j, i)| == DegreeSum(i, g.dimX) + i * (1 + Degree(j, g.dimZ) + Degree(l, g.numLayer + 1))
  {
    hide Row, Degree;
    if i > 0 {
      LineLength(g, l, j, i - 1);
      RowLength(g, l, j, i - 1);
      Distribute(i - 1, 1, 1 + Degree(j, g.dimZ) + Degree(l, g.numLayer + 1));
    }
  }

  lemma {:induction false} LayerLength(g: Grid, l: nat, j: nat)
    requires Good(g) && l <= g.numLayer && j <= g.dimZ
    ensures |LayerRows(g, l, j)|
         == j * DegreeSum(g.dimX, g.dimX) + g.dimX * DegreeSum(j, g.dimZ) + j * (g.dimX * (1 + Degree(l, g.numLayer + 1)))
  {
    hide LineRows, Degree;
    if j > 0 {
      LayerLength(g, l, j - 1);
      LineLength(g, l, j - 1, g.dimX);
      Distribute(j - 1, 1, DegreeSum(g.dimX, g.dimX));
      Distribute(DegreeSum(j - 1, g.dimZ), Degree(j - 1, g.dimZ), g.dimX);
      Distribute(1 + Degree(l, g.numLayer + 1), Degree(j - 1, g.dimZ), g.dimX);
      Distribute(j - 1, 1, g.dimX * (1 + Degree(l, g.numLayer + 1)));
    }
  }

  lemma Regroup(z: nat, x: nat, d: nat)
    ensures z * (x * (1 + d)) == x * z * d + x * z
  {
    assert x * (1 + d) == x * d + x;
    assert z * (x * d) == x * z * d;
  }

  lemma FullLayerLength(g: Grid, l: nat)
    requires Good(g) && l <= g.numLayer
    ensures |LayerRows(g, l, g.dimZ)| == LayerCount(g, l) + Area(g)
  {
    hide LayerRows, Degree, DegreeSum;
    LayerLength(g, l, g.dimZ);
    Regroup(g.dimZ, g.dimX, Degree(l, g.numLayer + 1));
  }

  /** The matrix has one entry per neighbour pair and direction, and one per node. */
  lemma {:induction false} StackLength(g: Grid, l: nat)
    requires Good(g) && l <= g.numLayer + 1
    ensures |StackRows(g, l)| == StackCount(g, l) + l * Area(g)
  {
    hide LayerRows, LayerCount, Area;
    if l > 0 {
      StackLength(g, l - 1);
      FullLayerLength(g, l - 1);
      Distribute(l - 1, 1, Area(g));
    }
  }

  // ---- The entries, said by the grid --------------------------------------------------------------------------------

  /** An index names one node. */
  lemma IdxInjective(g: Grid, l: nat, j: nat, i: nat, m: nat, k: nat, h: nat)
    requires Good(g) && InGrid(g, l, j, i) && InGrid(g, m, k, h) && Idx(g, l, j, i) == Idx(g, m, k, h)
    ensures l == m && j == k && i == h
  {
    LayerOfIdx(g, l, j, i);
    LayerOfIdx(g, m, k, h);
    DivIs(j, g.dimX, i);
    DivIs(k, g.dimX, h);
  }

  /** The resistance between two nodes: neighbours along x, along z, or above each other; no others are connected. */
  function Between(g: Grid, l: nat, j: nat, i: nat, m: nat, k: nat, h: nat): (r: real) {
    if l == m && j == k && (i == h + 1 || h == i + 1) then g.rhoriX(l)
    else if l == m && i == h && (j == k + 1 || k == j + 1) then g.rhoriZ(l)
    else if i == h && j == k && (l == m + 1 || m == l + 1) then g.rvert(i, j, l) / 2.0 + g.rvert(i, j, m) / 2.0
    else 0.0
  }

  lemma ConnectedIsEntry(g: Grid, l: nat, j: nat, i: nat, m: nat, k: nat, h: nat)
    requires Good(g) && InGrid(g, l, j, i) && InGrid(g, m, k, h)
    ensures var r := Between(g, l, j, i, m, k, h);
      r >= 0.0 && (r > 0.0 ==> Entry(Idx(g, l, j, i), Idx(g, m, k, h), -1.0 / r) in Row(g, l, j, i))
  {
    hide Idx, SumVal, Diagonal;
    var r := Between(g, l, j, i, m, k, h);
    var lo, up := Lower(g, l, j, i), Upper(g, l, j, i);
    if r > 0.0 {
      var e := Entry(Idx(g, l, j, i), Idx(g, m, k, h), -1.0 / r);
      assert e in lo || e in up;
    }
  }

  /** An entry of a row beside its diagonal goes to a connected node. */
  lemma EntryIsConnected(g: Grid, l: nat, j: nat, i: nat, e: Entry) returns (m: nat, k: nat, h: nat)
    requires Good(g) && InGrid(g, l, j, i) && e in Lower(g, l, j, i) + Upper(g, l, j, i)
    ensures InGrid(g, m, k, h) && e.row == Idx(g, l, j, i) && e.col == Idx(g, m, k, h)
    ensures Between(g, l, j, i, m, k, h) > 0.0 && e.val == -1.0 / Between(g, l, j, i, m, k, h)
  {
    hide Idx;
    if l > 0 && e == Entry(Idx(g, l, j, i), Idx(g, l - 1, j, i), Vertical(g, i, j, l, l - 1)) {
      m, k, h := l - 1, j, i;
    } else if j > 0 && e == Entry(Idx(g, l, j, i), Idx(g, l, j - 1, i), -1.0 / g.rhoriZ(l)) {
      m, k, h := l, j - 1, i;
    } else if i > 0 && e == Entry(Idx(g, l, j, i), Idx(g, l, j, i - 1), -1.0 / g.rhoriX(l)) {
      m, k, h := l, j, i - 1;
    } else if i + 1 < g.dimX && e == Entry(Idx(g, l, j, i), Idx(g, l, j, i + 1), -1.0 / g.rhoriX(l)) {
      m, k, h := l, j, i + 1;
    } else if j + 1 < g.dimZ && e == Entry(Idx(g, l, j, i), Idx(g, l, j + 1, i), -1.0 / g.rhoriZ(l)) {
      m, k, h := l, j + 1, i;
    } else {
      m, k, h := l + 1, j, i;
    }
  }

  /**
   * Off the diagonal the matrix holds, between any two nodes of the grid, exactly minus the inverse of the resistance between
   * them, and nothing where they are not neighbours.
   */
  lemma OffDiagonalIs(g: Grid, l: nat, j: nat, i: nat, m: nat, k: nat, h: nat, v: real)
    requires Good(g) && InGrid(g, l, j, i) && InGrid(g, m, k, h) && (l, j, i) != (m, k, h)
    ensures var r := Between(g, l, j, i, m, k, h);
      Entry(Idx(g, l, j, i), Idx(g, m, k, h), v) in Matrix(g) <==> r > 0.0 && v == -1.0 / r
  {
    hide Matrix, Lower, Upper, Idx, SumVal, Between;
    var e, r := Entry(Idx(g, l, j, i), Idx(g, m, k, h), v), Between(g, l, j, i, m, k, h);
    ConnectedIsEntry(g, l, j, i, m, k, h);
    if r > 0.0 && v == -1.0 / r { MatrixHas(g, l, j, i, e); }
    if e in Matrix(g) {
      var l', j', i' := MatrixFrom(g, e);
      RowSorted(g, l', j', i');
      IdxInjective(g, l, j, i, l', j', i');
      if e in Lower(g, l, j, i) + Upper(g, l, j, i) {
        var m', k', h' := EntryIsConnected(g, l, j, i, e);
        IdxInjective(g, m, k, h, m', k', h');
      } else {
        IdxInjective(g, l, j, i, m, k, h);
      }
    }
  }

  /** Every entry is between two nodes of the grid. */
  lemma EntriesInGrid(g: Grid, e: Entry)
    requires Good(g) && e in Matrix(g)
    ensures e.row < Nodes(g) && e.col < Nodes(g)
  {
    hide Matrix;
    MatrixSorted(g);
    MatrixSymmetric(g, e);
    assert Flip(e) in Matrix(g);
  }
}
