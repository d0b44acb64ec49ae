/** Comparison and maximum principles of the stepping loop on the assembled matrix, for any number of steps. */
module ThermalPrinciple {
  import opened ThermalMatrix
  import opened ThermalSolver
  import ThermalAssembly

  // ---- A row's new temperature comes from its own triples ---------------------------------------------------------

  ghost predicate Suits(g: Grid, s: Setting) {
    && Good(g) && s.area == Area(g) && |s.p| == Nodes(g) && |s.cap| == g.numLayer + 1
    && forall k :: 0 <= k < |s.cap| ==> s.cap[k] > 0.0
  }

  lemma MatrixFits(g: Grid, s: Setting)
    requires Suits(g, s)
    ensures Fits(Matrix(g), s, Nodes(g))
  {
    hide Matrix, Row;
    var m := Matrix(g);
    Monotone(1, g.dimZ, g.dimX);
    forall b | 0 <= b < |m| ensures m[b].row < Nodes(g) && m[b].col < Nodes(g) && m[b].row / s.area < |s.cap| {
      MatrixSorted(g);
      assert m[b] in m;
      MatrixSymmetric(g, m[b]);
      var l, j, i := MatrixFrom(g, m[b]);
      RowSorted(g, l, j, i);
      LayerOfIdx(g, l, j, i);
      assert Flip(m[b]) in m;
    }
  }

  lemma FitsPart(m: seq<Entry>, w: seq<Entry>, s: Setting, n: nat)
    requires Fits(m + w, s, n)
    ensures Fits(m, s, n) && Fits(w, s, n)
  {
    assert forall b :: 0 <= b < |m| ==> m[b] == (m + w)[b];
    assert forall b :: 0 <= b < |w| ==> w[b] == (m + w)[|m| + b];
  }

  lemma {:induction false} GatherConcat(m: seq<Entry>, w: seq<Entry>, s: Setting, t: seq<real>, r: nat)
    requires Fits(m + w, s, |t|)
    ensures Fits(m, s, |t|) && Fits(w, s, |t|)
    ensures Gather(m + w, s, t, r) == Gather(m, s, t, r) + Gather(w, s, t, r)
  {
    hide Part;
    FitsPart(m, w, s, |t|);
    if w == [] {
      assert m + w == m;
    } else {
      assert (m + w)[..|m + w| - 1] == m + w[..|w| - 1];
      GatherConcat(m, w[..|w| - 1], s, t, r);
    }
  }

  lemma {:induction false} GatherElsewhere(m: seq<Entry>, s: Setting, t: seq<real>, r: nat, lo: nat, hi: nat)
    requires Fits(m, s, |t|) && RowsIn(m, lo, hi) && !(lo <= r < hi)
    ensures Gather(m, s, t, r) == 0.0
  {
    hide Part;
    if m != [] {
      assert m[|m| - 1] in m;
      GatherElsewhere(m[..|m| - 1], s, t, r, lo, hi);
    }
  }

  lemma IdxBounds(g: Grid, l: nat, j: nat, i: nat)
    requires Good(g) && InGrid(g, l, j, i)
    ensures Idx(g, l, j, 0) <= Idx(g, l, j, i) < Idx(g, l, j, 0) + g.dimX
    ensures Idx(g, l, 0, 0) <= Idx(g, l, j, i) < Idx(g, l, 0, 0) + Area(g)
  {
    LineFits(g, j, i + 1);
  }

  lemma {:induction false} GatherLine(g: Grid, l: nat, j: nat, i: nat, n: nat, s: Setting, t: seq<real>)
    requires Good(g) && InGrid(g, l, j, i) && i < n <= g.dimX && Fits(LineRows(g, l, j, n), s, |t|)
    ensures Fits(Row(g, l, j, i), s, |t|)
    ensures Gather(LineRows(g, l, j, n), s, t, Idx(g, l, j, i)) == Gather(Row(g, l, j, i), s, t, Idx(g, l, j, i))
  {
    hide Row, Gather, Fits;
    var r := Idx(g, l, j, i);
    GatherConcat(LineRows(g, l, j, n - 1), Row(g, l, j, n - 1), s, t, r);
    if i == n - 1 {
      LineSorted(g, l, j, n - 1);
      GatherElsewhere(LineRows(g, l, j, n - 1), s, t, r, Idx(g, l, j, 0), Idx(g, l, j, n - 1));
    } else {
      RowSorted(g, l, j, n - 1);
      GatherElsewhere(Row(g, l, j, n - 1), s, t, r, Idx(g, l, j, n - 1), Idx(g, l, j, n - 1) + 1);
      GatherLine(g, l, j, i, n - 1, s, t);
    }
  }

  lemma {:induction false} GatherLayer(g: Grid, l: nat, j: nat, i: nat, n: nat, s: Setting, t: seq<real>)
    requires Good(g) && InGrid(g, l, j, i) && j < n <= g.dimZ && Fits(LayerRows(g, l, n), s, |t|)
    ensures Fits(Row(g, l, j, i), s, |t|)
    ensures Gather(LayerRows(g, l, n), s, t, Idx(g, l, j, i)) == Gather(Row(g, l, j, i), s, t, Idx(g, l, j, i))
  {
    hide Row, Gather, Fits, LineRows;
    var r := Idx(g, l, j, i);
    IdxBounds(g, l, j, i);
    GatherConcat(LayerRows(g, l, n - 1), LineRows(g, l, n - 1, g.dimX), s, t, r);
    if j == n - 1 {
      LayerSorted(g, l, n - 1);
      GatherElsewhere(LayerRows(g, l, n - 1), s, t, r, Idx(g, l, 0, 0), Idx(g, l, n - 1, 0));
      GatherLine(g, l, j, i, g.dimX, s, t);
    } else {
      LineSorted(g, l, n - 1, g.dimX);
      LineLater(g, l, j, i, n - 1);
      GatherElsewhere(LineRows(g, l, n - 1, g.dimX), s, t, r, Idx(g, l, n - 1, 0), Idx(g, l, n - 1, g.dimX));
      GatherLayer(g, l, j, i, n - 1, s, t);
    }
  }

  lemma LineLater(g: Grid, l: nat, j: nat, i: nat, n: nat)
    requires Good(g) && InGrid(g, l, j, i) && j < n
    ensures Idx(g, l, j, i) < Idx(g, l, n, 0)
  {
    Distribute(j, 1, g.dimX);
    Monotone(j + 1, n, g.dimX);
  }

  lemma {:induction false} GatherStack(g: Grid, l: nat, j: nat, i: nat, n: nat, s: Setting, t: seq<real>)
    requires Good(g) && InGrid(g, l, j, i) && l < n <= g.numLayer + 1 && Fits(StackRows(g, n), s, |t|)
    ensures Fits(Row(g, l, j, i), s, |t|)
    ensures Gather(StackRows(g, n), s, t, Idx(g, l, j, i)) == Gather(Row(g, l, j, i), s, t, Idx(g, l, j, i))
  {
    hide Row, Gather, Fits, LayerRows;
    var r := Idx(g, l, j, i);
    IdxBounds(g, l, j, i);
    GatherConcat(StackRows(g, n - 1), LayerRows(g, n - 1, g.dimZ), s, t, r);
    if l == n - 1 {
      StackSorted(g, n - 1);
      GatherElsewhere(StackRows(g, n - 1), s, t, r, 0, Idx(g, n - 1, 0, 0));
      GatherLayer(g, l, j, i, g.dimZ, s, t);
    } else {
      LayerSorted(g, n - 1, g.dimZ);
      Distribute(l, 1, Area(g));
      Monotone(l + 1, n - 1, Area(g));
      GatherElsewhere(LayerRows(g, n - 1, g.dimZ), s, t, r, Idx(g, n - 1, 0, 0), Idx(g, n - 1, g.dimZ, 0));
      GatherStack(g, l, j, i, n - 1, s, t);
    }
  }

  // ---- The balance of one node ------------------------------------------------------------------------------------

  /** Heat flow by conductance: the sum of val * temperature over a list of triples. */
  function Flow(m: seq<Entry>, t: seq<real>): (v: real)
    requires forall b :: 0 <= b < |m| ==> m[b].col < |t|
  {
    if m == [] then 0.0 else Flow(m[..|m| - 1], t) + m[|m| - 1].val * t[m[|m| - 1].col]
  }

  lemma Scaled(x: real, y: real, dt: real, c: real)
    requires c > 0.0
    ensures x * y * dt / c == x * y * (dt / c) && x * dt / c == x * (dt / c)
  {}

  lemma SplitProduct(a: real, b: real, k: real)
    ensures (a + b) * k == a * k + b * k
  {}

  lemma PartOff(e: Entry, s: Setting, t: seq<real>, c: real)
    requires EntryFits(e, s, |t|) && e.row != e.col && s.cap[e.row / s.area] == c
    ensures Part(e, s, t) == 0.0 - e.val * t[e.col] * (s.dt / c)
  {
    Scaled(e.val, t[e.col], s.dt, c);
  }

  lemma PartDiagonal(e: Entry, s: Setting, t: seq<real>, c: real)
    requires EntryFits(e, s, |t|) && e.row == e.col && s.cap[e.row / s.area] == c
    ensures Part(e, s, t) == (1.0 - e.val * (s.dt / c)) * t[e.col] + s.p[e.row] * (s.dt / c)
  {
    Scaled(e.val, 1.0, s.dt, c);
    Scaled(s.p[e.row], 1.0, s.dt, c);
  }

  lemma {:induction false} GatherOff(m: seq<Entry>, s: Setting, t: seq<real>, r: nat, c: real)
    requires Fits(m, s, |t|) && c > 0.0
    requires forall b :: 0 <= b < |m| ==> m[b].row == r != m[b].col && s.cap[m[b].row / s.area] == c
    ensures Gather(m, s, t, r) == 0.0 - Flow(m, t) * (s.dt / c)
  {
    hide Part;
    if m != [] {
      var e := m[|m| - 1];
      GatherOff(m[..|m| - 1], s, t, r, c);
      PartOff(e, s, t, c);
      SplitProduct(Flow(m[..|m| - 1], t), e.val * t[e.col], s.dt / c);
    }
  }

  /** What a node keeps of its own, plus what is fed in, less what flows off; k is the step over its capacity. */
  function Next(diag: real, k: real, own: real, p: real, flow: real): (v: real) {
    (1.0 - diag * k) * own + p * k - flow * k
  }

  lemma NextMonotone(diag: real, k: real, own: real, p: real, flow: real, own2: real, p2: real, flow2: real)
    requires k >= 0.0 && diag * k <= 1.0 && own <= own2 && p <= p2 && flow >= flow2
    ensures Next(diag, k, own, p, flow) <= Next(diag, k, own2, p2, flow2)
  {
    ProductMonotone(1.0 - diag * k, own, own2);
    ProductMonotone(k, p, p2);
    ProductMonotone(k, flow2, flow);
  }

  /** The explicit step of one node, by its own triples only. */
  lemma NodeStep(g: Grid, l: nat, j: nat, i: nat, s: Setting, t: seq<real>)
    requires Suits(g, s) && InGrid(g, l, j, i) && |t| == Nodes(g)
    ensures Fits(Matrix(g), s, |t|) && Fits(Lower(g, l, j, i), s, |t|) && Fits(Upper(g, l, j, i), s, |t|)
    ensures Idx(g, l, j, i) < |t|
    ensures Gather(Matrix(g), s, t, Idx(g, l, j, i)) ==
      Next(Diagonal(g, l, j, i).val, s.dt / s.cap[l], t[Idx(g, l, j, i)], s.p[Idx(g, l, j, i)],
           Flow(Lower(g, l, j, i), t) + Flow(Upper(g, l, j, i), t))
  {
    hide Matrix, Row, Lower, Upper, Diagonal, Gather, Idx, Nodes, Part, Flow;
    var lo, d, up := Lower(g, l, j, i), Diagonal(g, l, j, i), Upper(g, l, j, i);
    var r, c := Idx(g, l, j, i), s.cap[l];
    MatrixFits(g, s);
    MatrixGather(g, l, j, i, s, t);
    RowIs(g, l, j, i);
    LayerOfIdx(g, l, j, i);
    GatherConcat(lo + [d], up, s, t, r);
    GatherConcat(lo, [d], s, t, r);
    GatherOff(lo, s, t, r, c);
    GatherOff(up, s, t, r, c);
    GatherDiagonal(d, s, t, r, c);
    SplitProduct(Flow(lo, t), Flow(up, t), s.dt / c);
  }

  lemma MatrixGather(g: Grid, l: nat, j: nat, i: nat, s: Setting, t: seq<real>)
    requires Good(g) && InGrid(g, l, j, i) && Fits(Matrix(g), s, |t|)
    ensures Fits(Row(g, l, j, i), s, |t|)
    ensures Gather(Matrix(g), s, t, Idx(g, l, j, i)) == Gather(Row(g, l, j, i), s, t, Idx(g, l, j, i))
  {
    hide Row, Gather, Fits, StackRows;
    GatherStack(g, l, j, i, g.numLayer + 1, s, t);
  }

  lemma RowIs(g: Grid, l: nat, j: nat, i: nat)
    requires Good(g) && InGrid(g, l, j, i)
    ensures Row(g, l, j, i) == Lower(g, l, j, i) + [Diagonal(g, l, j, i)] + Upper(g, l, j, i)
    ensures Diagonal(g, l, j, i).row == Diagonal(g, l, j, i).col == Idx(g, l, j, i)
    ensures forall b :: 0 <= b < |Lower(g, l, j, i)| ==> Lower(g, l, j, i)[b].row == Idx(g, l, j, i) != Lower(g, l, j, i)[b].col
    ensures forall b :: 0 <= b < |Upper(g, l, j, i)| ==> Upper(g, l, j, i)[b].row == Idx(g, l, j, i) != Upper(g, l, j, i)[b].col
  {
    hide Lower, Upper, SumVal, Idx;
    LowerSorted(g, l, j, i);
    UpperSorted(g, l, j, i);
    assert forall b :: 0 <= b < |Lower(g, l, j, i)| ==> Lower(g, l, j, i)[b] in Lower(g, l, j, i);
    assert forall b :: 0 <= b < |Upper(g, l, j, i)| ==> Upper(g, l, j, i)[b] in Upper(g, l, j, i);
  }

  lemma GatherDiagonal(d: Entry, s: Setting, t: seq<real>, r: nat, c: real)
    requires Fits([d], s, |t|) && EntryFits(d, s, |t|) && d.row == d.col == r && s.cap[r / s.area] == c
    ensures Gather([d], s, t, r) == (1.0 - d.val * (s.dt / c)) * t[r] + s.p[r] * (s.dt / c)
  {
    PartDiagonal(d, s, t, c);
    hide Part;
    assert [d][..0] == [];
    assert Gather([d][..0], s, t, r) == 0.0;
  }

  // ---- Comparison -------------------------------------------------------------------------------------------------

  ghost predicate Leq(t: seq<real>, u: seq<real>) { |t| == |u| && forall k :: 0 <= k < |t| ==> t[k] <= u[k] }

  /** No node gives away more in one step than it has above its surroundings. */
  ghost predicate Stable(g: Grid, s: Setting)
    requires Suits(g, s)
  {
    s.dt >= 0.0 && forall l: nat, j: nat, i: nat :: InGrid(g, l, j, i) ==> Diagonal(g, l, j, i).val * (s.dt / s.cap[l]) <= 1.0
  }

  lemma ProductMonotone(v: real, x: real, y: real)
    requires v >= 0.0 && x <= y
    ensures v * x <= v * y
  {}

  lemma {:induction false} FlowMonotone(m: seq<Entry>, t: seq<real>, u: seq<real>)
    requires Negative(m) && Leq(t, u) && forall b :: 0 <= b < |m| ==> m[b].col < |t|
    ensures Flow(m, t) >= Flow(m, u)
  {
    if m != [] {
      var e := m[|m| - 1];
      assert e in m;
      assert Negative(m[..|m| - 1]);
      FlowMonotone(m[..|m| - 1], t, u);
      ProductMonotone(0.0 - e.val, t[e.col], u[e.col]);
    }
  }

  /** Every index of the grid is a node's. */
  lemma Locate(g: Grid, r: nat) returns (l: nat, j: nat, i: nat)
    requires Good(g) && r < Nodes(g)
    ensures InGrid(g, l, j, i) && Idx(g, l, j, i) == r
  {
    var a := Area(g);
    assert a > 0 by { Monotone(1, g.dimZ, g.dimX); }
    l := r / a;
    var rest := r % a;
    assert r == l * a + rest;
    Quotients(r, a, g.numLayer + 1);
    j := rest / g.dimX;
    i := rest % g.dimX;
    assert rest == j * g.dimX + i;
    Quotients(rest, g.dimX, g.dimZ);
  }

  lemma Quotients(r: nat, a: nat, n: nat)
    requires a > 0 && r < n * a
    ensures r / a < n
  {
    if r / a >= n { Monotone(n, r / a, a); }
  }

  /** A warmer start and more heat never make a node cooler. */
  lemma NodeMonotone(g: Grid, s: Setting, p: seq<real>, t: seq<real>, u: seq<real>, l: nat, j: nat, i: nat)
    requires Suits(g, s) && Stable(g, s) && InGrid(g, l, j, i) && Leq(t, u) && Leq(s.p, p) && |t| == Nodes(g)
    ensures Fits(Matrix(g), s, |t|) && Fits(Matrix(g), s.(p := p), |u|)
    ensures Gather(Matrix(g), s, t, Idx(g, l, j, i)) <= Gather(Matrix(g), s.(p := p), u, Idx(g, l, j, i))
  {
    hide Matrix, Row, Lower, Upper, Diagonal, Gather, Idx, Flow, Next;
    var k, r := s.dt / s.cap[l], Idx(g, l, j, i);
    var lo, up := Lower(g, l, j, i), Upper(g, l, j, i);
    NodeStep(g, l, j, i, s, t);
    NodeStep(g, l, j, i, s.(p := p), u);
    OffNegative(g, l, j, i);
    FlowMonotone(lo, t, u);
    FlowMonotone(up, t, u);
    RatioPositive(s.dt, s.cap[l]);
    NextMonotone(Diagonal(g, l, j, i).val, k, t[r], s.p[r], Flow(lo, t) + Flow(up, t), u[r], p[r], Flow(lo, u) + Flow(up, u));
  }

  lemma RatioPositive(x: real, c: real)
    requires x >= 0.0 && c > 0.0
    ensures x / c >= 0.0
  {}

  lemma StepMonotone(g: Grid, s: Setting, p: seq<real>, t: seq<real>, u: seq<real>)
    requires Suits(g, s) && Stable(g, s) && Leq(t, u) && Leq(s.p, p) && |t| == Nodes(g)
    ensures Fits(Matrix(g), s, |t|) && Fits(Matrix(g), s.(p := p), |u|)
    ensures Leq(Step(Matrix(g), s, t), Step(Matrix(g), s.(p := p), u))
  {
    hide Matrix, Gather;
    MatrixFits(g, s);
    MatrixFits(g, s.(p := p));
    forall r | 0 <= r < |t| ensures Gather(Matrix(g), s, t, r) <= Gather(Matrix(g), s.(p := p), u, r) {
      var l, j, i := Locate(g, r);
      NodeMonotone(g, s, p, t, u, l, j, i);
    }
  }

  /** Comparison principle: over any number of steps, a warmer start and more heat keep every node at least as warm. */
  lemma {:induction false} StepsMonotone(g: Grid, s: Setting, p: seq<real>, t: seq<real>, u: seq<real>, iter: nat)
    requires Suits(g, s) && Stable(g, s) && Leq(t, u) && Leq(s.p, p) && |t| == Nodes(g)
    ensures Fits(Matrix(g), s, |t|) && Fits(Matrix(g), s.(p := p), |u|)
    ensures Leq(Steps(Matrix(g), s, t, iter), Steps(Matrix(g), s.(p := p), u, iter))
  {
    hide Matrix, Step, Fits;
    MatrixFits(g, s);
    MatrixFits(g, s.(p := p));
    if iter > 0 {
      StepsMonotone(g, s, p, t, u, iter - 1);
      StepMonotone(g, s, p, Steps(Matrix(g), s, t, iter - 1), Steps(Matrix(g), s.(p := p), u, iter - 1));
    }
  }

  // ---- The maximum principle --------------------------------------------------------------------------------------

  /** The heat input with no power: the ambient through the sink nodes. */
  function Ambient(g: Grid, tamb: real): (p: seq<real>)
    requires g.ramb > 0.0
    ensures |p| == Nodes(g)
  {
    seq(Nodes(g), r requires 0 <= r => if r < Area(g) then tamb / g.ramb else 0.0)
  }

  function Uniform(n: nat, x: real): (t: seq<real>)
    ensures |t| == n
  {
    seq(n, _ => x)
  }

  lemma {:induction false} FlowUniform(m: seq<Entry>, n: nat, x: real)
    requires forall b :: 0 <= b < |m| ==> m[b].col < n
    ensures Flow(m, Uniform(n, x)) == SumVal(m) * x
  {
    if m != [] {
      FlowUniform(m[..|m| - 1], n, x);
      SplitProduct(SumVal(m[..|m| - 1]), m[|m| - 1].val, x);
    }
  }

  lemma NextUniform(diag: real, k: real, x: real, tamb: real, sink: real, off: real, p: real, flow: real)
    requires diag == sink - off && p == sink * tamb && flow == off * x
    ensures Next(diag, k, x, p, flow) == x + k * (sink * (tamb - x))
  {
    assert (1.0 - diag * k) * x == x - diag * k * x;
    assert diag * k * x == sink * x * k - off * x * k;
    assert sink * (tamb - x) == sink * tamb - sink * x;
  }

  /** At a uniform temperature only the sink exchanges heat, with the ambient. */
  lemma NodeUniform(g: Grid, s: Setting, tamb: real, x: real, l: nat, j: nat, i: nat)
    requires Suits(g, s) && s.p == Ambient(g, tamb) && InGrid(g, l, j, i)
    ensures Fits(Matrix(g), s, Nodes(g))
    ensures Gather(Matrix(g), s, Uniform(Nodes(g), x), Idx(g, l, j, i)) == x + (s.dt / s.cap[l]) * (Sink(g, l) * (tamb - x))
  {
    hide Matrix, Row, Lower, Upper, Gather, Flow, Nodes, Next, SumVal, Ambient, Sink;
    var t, r, k := Uniform(Nodes(g), x), Idx(g, l, j, i), s.dt / s.cap[l];
    var lo, up := Lower(g, l, j, i), Upper(g, l, j, i);
    NodeStep(g, l, j, i, s, t);
    FlowUniform(lo, Nodes(g), x);
    FlowUniform(up, Nodes(g), x);
    SumConcat(lo, up);
    SplitProduct(SumVal(lo), SumVal(up), x);
    AmbientIs(g, tamb, l, j, i);
    NextUniform(Diagonal(g, l, j, i).val, k, x, tamb, Sink(g, l), SumVal(lo) + SumVal(up), s.p[r], Flow(lo, t) + Flow(up, t));
  }

  lemma AmbientIs(g: Grid, tamb: real, l: nat, j: nat, i: nat)
    requires Good(g) && InGrid(g, l, j, i)
    ensures Idx(g, l, j, i) < Nodes(g) && Ambient(g, tamb)[Idx(g, l, j, i)] == Sink(g, l) * tamb
  {
    LayerOfIdx(g, l, j, i);
    LineFits(g, j, i + 1);
    if l > 0 {
      Monotone(1, l, Area(g));
    } else {
      Reciprocal(tamb, g.ramb);
    }
  }

  lemma Reciprocal(x: real, c: real)
    requires c > 0.0
    ensures x / c == (1.0 / c) * x
  {}

  lemma UniformRises(g: Grid, s: Setting, tamb: real, x: real)
    requires Suits(g, s) && s.p == Ambient(g, tamb) && s.dt >= 0.0
    ensures Fits(Matrix(g), s, Nodes(g))
    ensures x <= tamb ==> Leq(Uniform(Nodes(g), x), Step(Matrix(g), s, Uniform(Nodes(g), x)))
    ensures x >= tamb ==> Leq(Step(Matrix(g), s, Uniform(Nodes(g), x)), Uniform(Nodes(g), x))
  {
    hide Matrix, Gather, Ambient;
    MatrixFits(g, s);
    forall r | 0 <= r < Nodes(g)
      ensures x <= tamb ==> x <= Gather(Matrix(g), s, Uniform(Nodes(g), x), r)
      ensures x >= tamb ==> x >= Gather(Matrix(g), s, Uniform(Nodes(g), x), r)
    {
      var l, j, i := Locate(g, r);
      NodeUniform(g, s, tamb, x, l, j, i);
      RatioPositive(s.dt, s.cap[l]);
      SignOf(s.dt / s.cap[l], Sink(g, l), tamb - x);
    }
  }

  lemma SignOf(k: real, sink: real, gap: real)
    requires k >= 0.0 && sink >= 0.0
    ensures gap >= 0.0 ==> k * (sink * gap) >= 0.0
    ensures gap <= 0.0 ==> k * (sink * gap) <= 0.0
  {
    assert gap >= 0.0 ==> sink * gap >= 0.0;
    assert gap <= 0.0 ==> sink * gap <= 0.0;
  }

  /** Maximum principle: with no power, temperatures stay between the extremes of the start and the ambient, forever. */
  lemma {:induction false} MaximumPrinciple(g: Grid, s: Setting, tamb: real, t: seq<real>, lo: real, hi: real, iter: nat)
    requires Suits(g, s) && Stable(g, s) && s.p == Ambient(g, tamb) && |t| == Nodes(g)
    requires lo <= tamb <= hi && forall r :: 0 <= r < |t| ==> lo <= t[r] <= hi
    ensures Fits(Matrix(g), s, |t|)
    ensures forall r :: 0 <= r < |t| ==> lo <= Steps(Matrix(g), s, t, iter)[r] <= hi
  {
    hide Matrix, Step, Fits, Ambient;
    MatrixFits(g, s);
    if iter > 0 {
      var m, n, w := Matrix(g), Nodes(g), Steps(Matrix(g), s, t, iter - 1);
      MaximumPrinciple(g, s, tamb, t, lo, hi, iter - 1);
      StepMonotone(g, s, s.p, Uniform(n, lo), w);
      StepMonotone(g, s, s.p, w, Uniform(n, hi));
      UniformRises(g, s, tamb, lo);
      UniformRises(g, s, tamb, hi);
      assert s.(p := s.p) == s;
      Sandwich(Uniform(n, lo), Step(m, s, Uniform(n, lo)), Step(m, s, w));
      Sandwich(Step(m, s, w), Step(m, s, Uniform(n, hi)), Uniform(n, hi));
    }
  }

  lemma Sandwich(t: seq<real>, u: seq<real>, v: seq<real>)
    requires Leq(t, u) && Leq(u, v)
    ensures Leq(t, v)
  {}

  // ---- The chosen step is stable ----------------------------------------------------------------------------------

  lemma MatrixScannable(g: Grid, s: Setting)
    requires Suits(g, s)
    ensures Scannable(Matrix(g), s.cap, s.area)
  {
    hide Matrix, Row, Lower, Upper;
    var m := Matrix(g);
    MatrixFits(g, s);
    forall b | 0 <= b < |m| && m[b].row == m[b].col ensures m[b].val > 0.0 {
      assert m[b] in m;
      var l, j, i := MatrixFrom(g, m[b]);
      RowIs(g, l, j, i);
      DiagonalPositive(g, l, j, i);
    }
  }

  lemma BelowLimit(v: real, dt: real, c: real)
    requires v > 0.0 && c > 0.0 && dt <= c / v
    ensures v * (dt / c) <= 1.0
  {
    assert c / v * v == c;
    ProductMonotone(v, dt, c / v);
    assert v * (dt / c) == v * dt / c;
  }

  /** A step no longer than the scanned limit is stable. */
  lemma LimitIsStable(g: Grid, s: Setting, limit: real)
    requires Suits(g, s) && Scannable(Matrix(g), s.cap, s.area) && IsLimit(Matrix(g), s.cap, s.area, limit) && 0.0 <= s.dt <= limit
    ensures Stable(g, s)
  {
    hide Matrix, Row, Lower, Upper, Diagonal;
    var m := Matrix(g);
    forall l: nat, j: nat, i: nat | InGrid(g, l, j, i) ensures Diagonal(g, l, j, i).val * (s.dt / s.cap[l]) <= 1.0 {
      var d := Diagonal(g, l, j, i);
      RowIs(g, l, j, i);
      LayerOfIdx(g, l, j, i);
      MatrixHas(g, l, j, i, d);
      var b :| 0 <= b < |m| && m[b] == d;
      BelowLimit(d.val, s.dt, s.cap[l]);
    }
  }

  /** Matrix, step count and stepping together: an epoch without power keeps every node within the range. */
  method QuietEpoch(g: Grid, cap: seq<real>, tamb: real, epoch: real, start: array<real>, ghost lo: real, ghost hi: real)
    returns (result: array<real>)
    requires Good(g) && |cap| == g.numLayer + 1 && (forall k :: 0 <= k < |cap| ==> cap[k] > 0.0) && epoch >= 0.0
    requires start.Length == Nodes(g) && lo <= tamb <= hi && forall r :: 0 <= r < start.Length ==> lo <= start[r] <= hi
    modifies start
    ensures result.Length == Nodes(g) && forall r :: 0 <= r < result.Length ==> lo <= result[r] <= hi
  {
    hide Matrix, Steps, Ambient, Gather, Diagonal;
    var midx := ThermalAssembly.CalculateMidx(g);
    var s := Setting(cap, Area(g), Ambient(g, tamb), 0.0);
    MatrixScannable(g, s);
    var iter, limit := CalculateTimeStep(midx[..], cap, Area(g), epoch);
    s := s.(dt := epoch / (iter as real));
    RatioPositive(epoch, iter as real);
    LimitIsStable(g, s, limit);
    MaximumPrinciple(g, s, tamb, start[..], lo, hi, iter);
    ghost var t := start[..];
    result := Transient(midx[..], s, start, iter);
    assert forall r :: 0 <= r < result.Length ==> result[r] == Steps(Matrix(g), s, t, iter)[r];
  }

  // ---- Where power enters -----------------------------------------------------------------------------------------

  /** Where the stepping loop and the steady solver put the power of cell (i, j) of active layer l. */
  function TransientSlot(g: Grid, l: nat, j: nat, i: nat): (k: nat) { Area(g) * (3 * l + 1) + i * g.dimZ + j }

  function SteadySlot(g: Grid, l: nat, j: nat, i: nat): (k: nat) { Area(g) * (3 * l + 1) + j * g.dimX + i }

  /**
   * The steady solver feeds every cell's own node; the two solvers agree on every cell exactly when the grid is a single line;
   * otherwise (0, 1) is one that differs.
   */
  lemma SlotsAgreeIff(g: Grid, l: nat)
    requires Good(g)
    ensures forall j: nat, i: nat :: SteadySlot(g, l, j, i) == Idx(g, 3 * l + 1, j, i)
    ensures (forall j: nat, i: nat :: j < g.dimZ && i < g.dimX ==> TransientSlot(g, l, j, i) == SteadySlot(g, l, j, i))
       <==> g.dimX == 1 || g.dimZ == 1
  {
    if g.dimX > 1 && g.dimZ > 1 {
      assert TransientSlot(g, l, 1, 0) != SteadySlot(g, l, 1, 0);
    }
  }

  /** Transposed or not, the cells of a layer fill exactly that layer's nodes, each once, so no power is lost. */
  lemma TransientSlotsFillLayer(g: Grid, l: nat, k: nat) returns (j: nat, i: nat)
    requires Good(g) && Area(g) * (3 * l + 1) <= k < Area(g) * (3 * l + 2)
    ensures j < g.dimZ && i < g.dimX && TransientSlot(g, l, j, i) == k
    ensures forall j2: nat, i2: nat :: j2 < g.dimZ && i2 < g.dimX && TransientSlot(g, l, j2, i2) == k ==> j2 == j && i2 == i
  {
    var rest := k - Area(g) * (3 * l + 1);
    i, j := rest / g.dimZ, rest % g.dimZ;
    assert rest == i * g.dimZ + j;
    assert Area(g) * (3 * l + 2) == Area(g) * (3 * l + 1) + Area(g);
    Quotients(rest, g.dimZ, g.dimX);
    forall j2: nat, i2: nat | j2 < g.dimZ && i2 < g.dimX && TransientSlot(g, l, j2, i2) == k ensures j2 == j && i2 == i {
      DivIs(i2, g.dimZ, j2);
      assert rest == i2 * g.dimZ + j2;
    }
  }
}
