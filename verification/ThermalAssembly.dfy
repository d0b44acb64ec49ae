/** The loops that count and fill the conductance matrix in place. */
module ThermalAssembly {
  import opened ThermalMatrix

  method CountNeighbours(g: Grid, l: nat, j: nat, i: nat, count: nat) returns (n: nat)
    requires Good(g) && InGrid(g, l, j, i)
    ensures n == count + Degree(i, g.dimX) + Degree(j, g.dimZ) + Degree(l, g.numLayer + 1)
  {
    n := count;
    if i >= 1 { n := n + 1; }
    if i + 1 < g.dimX { n := n + 1; }
    if j >= 1 { n := n + 1; }
    if j + 1 < g.dimZ { n := n + 1; }
    if l < g.numLayer { n := n + 1; }
    if l > 0 { n := n + 1; }
  }

  method CountColumn(g: Grid, l: nat, i: nat, count: nat) returns (n: nat)
    requires Good(g) && l <= g.numLayer && i < g.dimX
    ensures n == count + DegreeSum(g.dimZ, g.dimZ) + g.dimZ * (Degree(i, g.dimX) + Degree(l, g.numLayer + 1))
  {
    hide Degree;
    n := count;
    var j := 0;
    while j < g.dimZ
      invariant j <= g.dimZ
      invariant n == count + DegreeSum(j, g.dimZ) + j * (Degree(i, g.dimX) + Degree(l, g.numLayer + 1))
    {
      n := CountNeighbours(g, l, j, i, n);
      Distribute(j, 1, Degree(i, g.dimX) + Degree(l, g.numLayer + 1));
      j := j + 1;
    }
  }

  lemma ColumnStep(g: Grid, i: nat, dz: nat, dl: nat)
    requires i < g.dimX
    ensures (i + 1) * dz + g.dimZ * DegreeSum(i + 1, g.dimX) + (i + 1) * (g.dimZ * dl)
         == i * dz + g.dimZ * DegreeSum(i, g.dimX) + i * (g.dimZ * dl) + dz + g.dimZ * (Degree(i, g.dimX) + dl)
  {
    Distribute(i, 1, dz);
    Distribute(DegreeSum(i, g.dimX), Degree(i, g.dimX), g.dimZ);
    Distribute(i, 1, g.dimZ * dl);
    Distribute(Degree(i, g.dimX), dl, g.dimZ);
  }

  lemma Reassociate(x: nat, z: nat, d: nat)
    ensures x * (z * d) == x * z * d
  {}

  method CountLayer(g: Grid, l: nat, count: nat) returns (n: nat)
    requires Good(g) && l <= g.numLayer
    ensures n == count + LayerCount(g, l)
  {
    hide Degree, DegreeSum;
    n := count;
    var i := 0;
    ghost var dz, dl := DegreeSum(g.dimZ, g.dimZ), Degree(l, g.numLayer + 1);
    NoDegrees(g.dimX);
    while i < g.dimX
      invariant i <= g.dimX
      invariant n == count + i * dz + g.dimZ * DegreeSum(i, g.dimX) + i * (g.dimZ * dl)
    {
      n := CountColumn(g, l, i, n);
      ColumnStep(g, i, dz, dl);
      i := i + 1;
    }
    Reassociate(g.dimX, g.dimZ, dl);
  }

  lemma NoDegrees(n: nat)
    ensures DegreeSum(0, n) == 0
  {}

  /** The number of non-zeros, found by visiting every node before anything is allocated. */
  method CountEntries(g: Grid) returns (count: nat)
    requires Good(g)
    ensures count == |Matrix(g)|
  {
    hide LayerCount, Area, LayerRows;
    count := 0;
    var l := 0;
    while l < g.numLayer + 1
      invariant l <= g.numLayer + 1 && count == StackCount(g, l)
    {
      count := CountLayer(g, l, count);
      l := l + 1;
    }
    StackLength(g, g.numLayer + 1);
    count := count + (g.numLayer + 1) * Area(g);
  }

  method Put(midx: array<Entry>, idx: nat, e: Entry) returns (n: nat)
    requires idx < midx.Length
    modifies midx
    ensures n == idx + 1 && midx[..n] == old(midx[..idx]) + [e]
  {
    midx[idx] := e;
    n := idx + 1;
  }

  method FillLower(g: Grid, midx: array<Entry>, idx: nat, l: nat, j: nat, i: nat) returns (n: nat)
    requires Good(g) && idx + |Lower(g, l, j, i)| <= midx.Length
    modifies midx
    ensures n == idx + |Lower(g, l, j, i)| && midx[..n] == old(midx[..idx]) + Lower(g, l, j, i)
  {
    hide SumVal, Vertical, Idx;
    n := idx;
    var r := Idx(g, l, j, i);
    if l > 0 { n := Put(midx, n, Entry(r, Idx(g, l - 1, j, i), Vertical(g, i, j, l, l - 1))); }
    if j >= 1 { n := Put(midx, n, Entry(r, Idx(g, l, j - 1, i), -1.0 / g.rhoriZ(l))); }
    if i >= 1 { n := Put(midx, n, Entry(r, Idx(g, l, j, i - 1), -1.0 / g.rhoriX(l))); }
  }

  method FillUpper(g: Grid, midx: array<Entry>, idx: nat, l: nat, j: nat, i: nat) returns (n: nat)
    requires Good(g) && idx + |Upper(g, l, j, i)| <= midx.Length
    modifies midx
    ensures n == idx + |Upper(g, l, j, i)| && midx[..n] == old(midx[..idx]) + Upper(g, l, j, i)
  {
    hide SumVal, Vertical, Idx;
    n := idx;
    var r := Idx(g, l, j, i);
    if i + 1 < g.dimX { n := Put(midx, n, Entry(r, Idx(g, l, j, i + 1), -1.0 / g.rhoriX(l))); }
    if j + 1 < g.dimZ { n := Put(midx, n, Entry(r, Idx(g, l, j + 1, i), -1.0 / g.rhoriZ(l))); }
    if l < g.numLayer { n := Put(midx, n, Entry(r, Idx(g, l + 1, j, i), Vertical(g, i, j, l, l + 1))); }
  }

  /** The diagonal balances the entries midx[from..idx]; sink nodes also conduct to the ambient. */
  method FillDiagonal(g: Grid, midx: array<Entry>, from: nat, idx: nat, l: nat, j: nat, i: nat, ghost was: seq<Entry>)
    requires Good(g) && InGrid(g, l, j, i) && from <= idx < midx.Length && |was| == from
    requires midx[..idx] == was + (Lower(g, l, j, i) + Upper(g, l, j, i))
    modifies midx
    ensures midx[..idx + 1] == old(midx[..idx]) + [Diagonal(g, l, j, i)]
  {
    hide Lower, Upper;
    assert midx[from..idx] == midx[..idx][from..];
    var r := Idx(g, l, j, i);
    var val := 0.0;
    var k := from;
    while k < idx
      invariant from <= k <= idx && val == 0.0 - SumVal(midx[from..k])
    {
      assert midx[from..k + 1][..k - from] == midx[from..k];
      val := val - midx[k].val;
      k := k + 1;
    }
    LayerOfIdx(g, l, j, i);
    SinkRows(g, l, j, i);
    if r < Area(g) { val := val + 1.0 / g.ramb; }
    midx[idx] := Entry(r, r, val);
  }

  lemma SinkRows(g: Grid, l: nat, j: nat, i: nat)
    requires Good(g) && InGrid(g, l, j, i)
    ensures Idx(g, l, j, i) < Area(g) <==> l == 0
  {
    LineFits(g, j, i + 1);
    if l > 0 { Monotone(1, l, Area(g)); }
  }

  /** What the row looks like while the diagonal sinks to its place: p entries before it. */
  function Placed(off: seq<Entry>, d: Entry, p: nat): (s: seq<Entry>)
    requires p <= |off|
    ensures |s| == |off| + 1
  {
    off[..p] + [d] + off[p..]
  }

  lemma PlacedAt(off: seq<Entry>, d: Entry, p: nat)
    requires 0 < p <= |off|
    ensures Placed(off, d, p)[p - 1] == off[p - 1] && Placed(off, d, p)[p] == d
    ensures Placed(off, d, p)[p - 1 := d][p := off[p - 1]] == Placed(off, d, p - 1)
  {}

  lemma PlacedEnds(lower: seq<Entry>, d: Entry, upper: seq<Entry>)
    ensures Placed(lower + upper, d, |lower + upper|) == lower + upper + [d]
    ensures Placed(lower + upper, d, |lower|) == lower + [d] + upper
  {
    assert (lower + upper)[..|lower|] == lower && (lower + upper)[|lower|..] == upper;
  }

  method Swap(midx: array<Entry>, from: nat, idx: nat, k: nat)
    requires from <= k && k + 1 < idx <= midx.Length
    modifies midx
    ensures midx[..from] == old(midx[..from])
    ensures midx[from..idx] == old(midx[from..idx])[k - from := old(midx[k + 1])][k + 1 - from := old(midx[k])]
  {
    midx[k], midx[k + 1] := midx[k + 1], midx[k];
  }

  /** The diagonal is swapped down past every larger column. */
  method SortRow(midx: array<Entry>, from: nat, idx: nat,
                 ghost was: seq<Entry>, ghost lower: seq<Entry>, ghost d: Entry, ghost upper: seq<Entry>)
    requires from < idx <= midx.Length && |was| == from && midx[..idx] == was + (lower + upper) + [d]
    requires forall e :: e in lower ==> e.col < d.col
    requires forall e :: e in upper ==> e.col > d.col
    modifies midx
    ensures midx[..idx] == was + (lower + [d] + upper)
  {
    hide Placed;
    var k := idx - 2;
    ghost var off := lower + upper;
    PlacedEnds(lower, d, upper);
    assert midx[from..idx] == midx[..idx][from..] == lower + upper + [d];
    assert midx[..from] == midx[..idx][..from] == was;
    while k >= from
      invariant from - 1 <= k <= idx - 2 && |off| == idx - from - 1
      invariant |lower| <= k + 1 - from && midx[from..idx] == Placed(off, d, k + 1 - from)
      invariant midx[..from] == was
    {
      ghost var p := k + 1 - from;
      PlacedAt(off, d, p);
      assert midx[k] == midx[from..idx][p - 1] && midx[k + 1] == midx[from..idx][p];
      assert if p <= |lower| then off[p - 1] in lower else off[p - 1] in upper;
      if midx[k].col > midx[k + 1].col {
        Swap(midx, from, idx, k);
        k := k - 1;
      } else {
        break;
      }
    }
    assert midx[..idx] == midx[..from] + midx[from..idx];
  }

  lemma RowParts(g: Grid, l: nat, j: nat, i: nat)
    requires Good(g) && InGrid(g, l, j, i)
    ensures Row(g, l, j, i) == Lower(g, l, j, i) + [Diagonal(g, l, j, i)] + Upper(g, l, j, i)
    ensures forall e :: e in Lower(g, l, j, i) ==> e.col < Diagonal(g, l, j, i).col
    ensures forall e :: e in Upper(g, l, j, i) ==> e.col > Diagonal(g, l, j, i).col
  {
    hide Lower, Upper, SumVal;
    RowSorted(g, l, j, i);
    assert forall e :: e in Lower(g, l, j, i) ==> e in Row(g, l, j, i);
    assert forall e :: e in Upper(g, l, j, i) ==> e in Row(g, l, j, i);
  }

  method FillRow(g: Grid, midx: array<Entry>, from: nat, l: nat, j: nat, i: nat) returns (idx: nat)
    requires Good(g) && InGrid(g, l, j, i) && from + |Row(g, l, j, i)| <= midx.Length
    modifies midx
    ensures idx == from + |Row(g, l, j, i)| && midx[..idx] == old(midx[..from]) + Row(g, l, j, i)
  {
    hide *;
    ghost var lower, d, upper := Lower(g, l, j, i), Diagonal(g, l, j, i), Upper(g, l, j, i);
    RowParts(g, l, j, i);
    ghost var was := midx[..from];
    idx := FillLower(g, midx, from, l, j, i);
    idx := FillUpper(g, midx, idx, l, j, i);
    assert midx[..idx] == was + (lower + upper);
    FillDiagonal(g, midx, from, idx, l, j, i, was);
    idx := idx + 1;
    SortRow(midx, from, idx, was, lower, d, upper);
  }

  lemma {:induction false} LineGrows(g: Grid, l: nat, j: nat, i: nat, n: nat)
    requires Good(g) && i <= n
    ensures |LineRows(g, l, j, i)| <= |LineRows(g, l, j, n)|
  {
    hide Row;
    if i < n { LineGrows(g, l, j, i, n - 1); }
  }

  lemma {:induction false} LayerGrows(g: Grid, l: nat, j: nat, n: nat)
    requires Good(g) && j <= n
    ensures |LayerRows(g, l, j)| <= |LayerRows(g, l, n)|
  {
    hide LineRows;
    if j < n { LayerGrows(g, l, j, n - 1); }
  }

  lemma {:induction false} StackGrows(g: Grid, l: nat, n: nat)
    requires Good(g) && l <= n
    ensures |StackRows(g, l)| <= |StackRows(g, n)|
  {
    hide LayerRows;
    if l < n { StackGrows(g, l, n - 1); }
  }

  method FillLine(g: Grid, midx: array<Entry>, from: nat, l: nat, j: nat) returns (idx: nat)
    requires Good(g) && l <= g.numLayer && j < g.dimZ && from + |LineRows(g, l, j, g.dimX)| <= midx.Length
    modifies midx
    ensures idx == from + |LineRows(g, l, j, g.dimX)| && midx[..idx] == old(midx[..from]) + LineRows(g, l, j, g.dimX)
  {
    hide Row, Good;
    idx := from;
    var i := 0;
    while i < g.dimX
      invariant i <= g.dimX && idx == from + |LineRows(g, l, j, i)| && idx <= midx.Length
      invariant midx[..idx] == old(midx[..from]) + LineRows(g, l, j, i)
    {
      LineGrows(g, l, j, i + 1, g.dimX);
      idx := FillRow(g, midx, idx, l, j, i);
      i := i + 1;
    }
  }

  method FillLayer(g: Grid, midx: array<Entry>, from: nat, l: nat) returns (idx: nat)
    requires Good(g) && l <= g.numLayer && from + |LayerRows(g, l, g.dimZ)| <= midx.Length
    modifies midx
    ensures idx == from + |LayerRows(g, l, g.dimZ)| && midx[..idx] == old(midx[..from]) + LayerRows(g, l, g.dimZ)
  {
    hide LineRows, Good;
    idx := from;
    var j := 0;
    while j < g.dimZ
      invariant j <= g.dimZ && idx == from + |LayerRows(g, l, j)| && idx <= midx.Length
      invariant midx[..idx] == old(midx[..from]) + LayerRows(g, l, j)
    {
      LayerGrows(g, l, j + 1, g.dimZ);
      idx := FillLine(g, midx, idx, l, j);
      j := j + 1;
    }
  }

  /** Allocates what was counted and fills exactly that: the triples of the matrix, in order. */
  method CalculateMidx(g: Grid) returns (midx: array<Entry>)
    requires Good(g)
    ensures fresh(midx) && midx[..] == Matrix(g)
  {
    hide LayerRows, Good;
    var count := CountEntries(g);
    midx := new Entry[count](_ => Entry(0, 0, 0.0));
    var idx := 0;
    var l := 0;
    while l < g.numLayer + 1
      invariant l <= g.numLayer + 1 && idx == |StackRows(g, l)| && idx <= midx.Length
      invariant midx[..idx] == StackRows(g, l)
    {
      StackGrows(g, l + 1, g.numLayer + 1);
      idx := FillLayer(g, midx, idx, l);
      l := l + 1;
    }
    assert idx == count;
  }
}
