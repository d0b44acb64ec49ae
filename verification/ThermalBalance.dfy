/** Heat is conserved: what a step stores is what was fed in less what went to the ambient. */
module ThermalBalance {
  import opened ThermalMatrix
  import opened ThermalSolver
  import opened ThermalPrinciple

  // ---- One node -------------------------------------------------------------------------------------------------------

  /** Heat per second that flows into a node of temperature `own` along the triples of a list. */
  function Inflow(m: seq<Entry>, t: seq<real>, own: real): (v: real)
    requires forall b :: 0 <= b < |m| ==> m[b].col < |t|
  {
    if m == [] then 0.0
    else
      var e := m[|m| - 1];
      Inflow(m[..|m| - 1], t, own) - e.val * (t[e.col] - own)
  }

  lemma {:induction false} FlowIsInflow(m: seq<Entry>, t: seq<real>, own: real)
    requires forall b :: 0 <= b < |m| ==> m[b].col < |t|
    ensures Flow(m, t) == SumVal(m) * own - Inflow(m, t, own)
  {
    if m != [] {
      var e := m[|m| - 1];
      FlowIsInflow(m[..|m| - 1], t, own);
      SplitProduct(SumVal(m[..|m| - 1]), e.val, own);
      assert e.val * (t[e.col] - own) == e.val * t[e.col] - e.val * own;
    }
  }

  /** Heat per second from node (m, k, h) into node (l, j, i), by the resistance between them. */
  function From(g: Grid, t: seq<real>, l: nat, j: nat, i: nat, m: nat, k: nat, h: nat): (v: real)
    requires Good(g) && Idx(g, l, j, i) < |t| && Idx(g, m, k, h) < |t| && Between(g, l, j, i, m, k, h) > 0.0
  {
    (t[Idx(g, m, k, h)] - t[Idx(g, l, j, i)]) / Between(g, l, j, i, m, k, h)
  }

  lemma Conducted(d: real, r: real)
    requires r > 0.0
    ensures 0.0 - (-1.0 / r) * d == d / r
  {
    assert (-1.0 / r) * d == 0.0 - d / r;
  }

  lemma OneInflow(e: Entry, t: seq<real>, own: real)
    requires e.col < |t|
    ensures Inflow([e], t, own) == 0.0 - e.val * (t[e.col] - own)
  {
    assert [e][..0] == [];
    assert Inflow([e][..0], t, own) == 0.0;
  }

  lemma {:induction false} InflowConcat(m: seq<Entry>, w: seq<Entry>, t: seq<real>, own: real)
    requires forall b :: 0 <= b < |m| ==> m[b].col < |t|
    requires forall b :: 0 <= b < |w| ==> w[b].col < |t|
    ensures Inflow(m + w, t, own) == Inflow(m, t, own) + Inflow(w, t, own)
  {
    if w == [] {
      assert m + w == m;
    } else {
      assert (m + w)[..|m + w| - 1] == m + w[..|w| - 1];
      InflowConcat(m, w[..|w| - 1], t, own);
    }
  }

  /** An optional triple to the node (m, k, h). */
  lemma PieceInflow(g: Grid, t: seq<real>, l: nat, j: nat, i: nat, m: nat, k: nat, h: nat, val: real)
    requires Good(g) && Idx(g, l, j, i) < |t| && Idx(g, m, k, h) < |t| && Between(g, l, j, i, m, k, h) > 0.0
    requires val == -1.0 / Between(g, l, j, i, m, k, h)
    ensures Inflow([Entry(Idx(g, l, j, i), Idx(g, m, k, h), val)], t, t[Idx(g, l, j, i)]) == From(g, t, l, j, i, m, k, h)
  {
    hide Idx, Between;
    OneInflow(Entry(Idx(g, l, j, i), Idx(g, m, k, h), val), t, t[Idx(g, l, j, i)]);
    Conducted(t[Idx(g, m, k, h)] - t[Idx(g, l, j, i)], Between(g, l, j, i, m, k, h));
  }

  lemma NeighbourInGrid(g: Grid, n: nat, l: nat, j: nat, i: nat)
    requires Good(g) && n == Nodes(g)
    ensures InGrid(g, l, j, i) ==> Idx(g, l, j, i) < n
  {
    if InGrid(g, l, j, i) { LayerOfIdx(g, l, j, i); }
  }

  /** Heat from the neighbours with a smaller index, and from those with a larger one. */
  function FromBefore(g: Grid, t: seq<real>, l: nat, j: nat, i: nat): (v: real)
    requires Good(g) && InGrid(g, l, j, i) && |t| == Nodes(g)
  {
    NeighbourInGrid(g, |t|, l, j, i);
    (if l > 0 then NeighbourInGrid(g, |t|, l - 1, j, i); From(g, t, l, j, i, l - 1, j, i) else 0.0)
    + (if j > 0 then NeighbourInGrid(g, |t|, l, j - 1, i); From(g, t, l, j, i, l, j - 1, i) else 0.0)
    + (if i > 0 then NeighbourInGrid(g, |t|, l, j, i - 1); From(g, t, l, j, i, l, j, i - 1) else 0.0)
  }

  function FromAfter(g: Grid, t: seq<real>, l: nat, j: nat, i: nat): (v: real)
    requires Good(g) && InGrid(g, l, j, i) && |t| == Nodes(g)
  {
    NeighbourInGrid(g, |t|, l, j, i);
    (if i + 1 < g.dimX then NeighbourInGrid(g, |t|, l, j, i + 1); From(g, t, l, j, i, l, j, i + 1) else 0.0)
    + (if j + 1 < g.dimZ then NeighbourInGrid(g, |t|, l, j + 1, i); From(g, t, l, j, i, l, j + 1, i) else 0.0)
    + (if l < g.numLayer then NeighbourInGrid(g, |t|, l + 1, j, i); From(g, t, l, j, i, l + 1, j, i) else 0.0)
  }

  lemma ColsFit(m: seq<Entry>, s: Setting, n: nat)
    requires Fits(m, s, n)
    ensures forall b :: 0 <= b < |m| ==> m[b].col < n
  {}

  lemma EmptyInflow(t: seq<real>, own: real)
    ensures Inflow([], t, own) == 0.0
  {}

  lemma LowerInflow(g: Grid, t: seq<real>, l: nat, j: nat, i: nat)
    requires Good(g) && InGrid(g, l, j, i) && |t| == Nodes(g)
    requires forall b :: 0 <= b < |Lower(g, l, j, i)| ==> Lower(g, l, j, i)[b].col < |t|
    ensures Idx(g, l, j, i) < |t| && Inflow(Lower(g, l, j, i), t, t[Idx(g, l, j, i)]) == FromBefore(g, t, l, j, i)
  {
    hide Idx, Inflow, From, Nodes;
    NeighbourInGrid(g, |t|, l, j, i);
    var r, own := Idx(g, l, j, i), t[Idx(g, l, j, i)];
    EmptyInflow(t, own);
    if l > 0 { NeighbourInGrid(g, |t|, l - 1, j, i); PieceInflow(g, t, l, j, i, l - 1, j, i, Vertical(g, i, j, l, l - 1)); }
    if j > 0 { NeighbourInGrid(g, |t|, l, j - 1, i); PieceInflow(g, t, l, j, i, l, j - 1, i, -1.0 / g.rhoriZ(l)); }
    if i > 0 { NeighbourInGrid(g, |t|, l, j, i - 1); PieceInflow(g, t, l, j, i, l, j, i - 1, -1.0 / g.rhoriX(l)); }
    var a := if l > 0 then [Entry(r, Idx(g, l - 1, j, i), Vertical(g, i, j, l, l - 1))] else [];
    var b := if j > 0 then [Entry(r, Idx(g, l, j - 1, i), -1.0 / g.rhoriZ(l))] else [];
    var c := if i > 0 then [Entry(r, Idx(g, l, j, i - 1), -1.0 / g.rhoriX(l))] else [];
    InflowConcat(a + b, c, t, own);
    InflowConcat(a, b, t, own);
  }

  lemma UpperInflow(g: Grid, t: seq<real>, l: nat, j: nat, i: nat)
    requires Good(g) && InGrid(g, l, j, i) && |t| == Nodes(g)
    requires forall b :: 0 <= b < |Upper(g, l, j, i)| ==> Upper(g, l, j, i)[b].col < |t|
    ensures Idx(g, l, j, i) < |t| && Inflow(Upper(g, l, j, i), t, t[Idx(g, l, j, i)]) == FromAfter(g, t, l, j, i)
  {
    hide Idx, Inflow, From, Nodes;
    NeighbourInGrid(g, |t|, l, j, i);
    var r, own := Idx(g, l, j, i), t[Idx(g, l, j, i)];
    EmptyInflow(t, own);
    if i + 1 < g.dimX { NeighbourInGrid(g, |t|, l, j, i + 1); PieceInflow(g, t, l, j, i, l, j, i + 1, -1.0 / g.rhoriX(l)); }
    if j + 1 < g.dimZ { NeighbourInGrid(g, |t|, l, j + 1, i); PieceInflow(g, t, l, j, i, l, j + 1, i, -1.0 / g.rhoriZ(l)); }
    if l < g.numLayer { NeighbourInGrid(g, |t|, l + 1, j, i); PieceInflow(g, t, l, j, i, l + 1, j, i, Vertical(g, i, j, l, l + 1)); }
    var a := if i + 1 < g.dimX then [Entry(r, Idx(g, l, j, i + 1), -1.0 / g.rhoriX(l))] else [];
    var b := if j + 1 < g.dimZ then [Entry(r, Idx(g, l, j + 1, i), -1.0 / g.rhoriZ(l))] else [];
    var c := if l < g.numLayer then [Entry(r, Idx(g, l + 1, j, i), Vertical(g, i, j, l, l + 1))] else [];
    InflowConcat(a + b, c, t, own);
    InflowConcat(a, b, t, own);
  }

  lemma Balance(diag: real, off: real, sink: real, k: real, own: real, p: real, inflow: real)
    requires diag == sink - off
    ensures Next(diag, k, own, p, off * own - inflow) == own + k * (p + inflow - sink * own)
  {
    assert (1.0 - diag * k) * own == own - diag * own * k;
    assert diag * own == sink * own - off * own;
    assert p * k - (off * own - inflow) * k == k * (p - off * own + inflow);
  }

  /**
   * The heat equation at one node: its capacity times its rise is the step times what is fed in, plus what its six neighbours
   * send through the resistances between them, less what the sink loses.
   */
  lemma NodeHeat(g: Grid, l: nat, j: nat, i: nat, s: Setting, t: seq<real>)
    requires Suits(g, s) && InGrid(g, l, j, i) && |t| == Nodes(g)
    ensures Fits(Matrix(g), s, |t|) && Idx(g, l, j, i) < |t|
    ensures var r := Idx(g, l, j, i);
      Step(Matrix(g), s, t)[r] ==
        t[r] + s.dt / s.cap[l] * (s.p[r] + (FromBefore(g, t, l, j, i) + FromAfter(g, t, l, j, i)) - Sink(g, l) * t[r])
  {
    hide Matrix, Lower, Upper, Gather, Idx, Nodes, Flow, Next, Sink, FromBefore, FromAfter, Inflow, SumVal;
    NodeStep(g, l, j, i, s, t);
    var r, lo, up := Idx(g, l, j, i), Lower(g, l, j, i), Upper(g, l, j, i);
    var own := t[r];
    ColsFit(lo, s, |t|);
    ColsFit(up, s, |t|);
    FlowIsInflow(lo, t, own);
    FlowIsInflow(up, t, own);
    LowerInflow(g, t, l, j, i);
    UpperInflow(g, t, l, j, i);
    SumConcat(lo, up);
    SplitProduct(SumVal(lo), SumVal(up), own);
    var inflow, off, k := FromBefore(g, t, l, j, i) + FromAfter(g, t, l, j, i), SumVal(lo + up), s.dt / s.cap[l];
    assert Flow(lo, t) + Flow(up, t) == off * own - inflow;
    Balance(Diagonal(g, l, j, i).val, off, Sink(g, l), k, own, s.p[r], inflow);
    assert Step(Matrix(g), s, t)[r] == own + k * (s.p[r] + inflow - Sink(g, l) * own);
  }

  // ---- The whole grid -------------------------------------------------------------------------------------------------

  function Weigh(m: seq<Entry>, v: Entry -> real): (w: real) {
    if m == [] then 0.0 else Weigh(m[..|m| - 1], v) + v(m[|m| - 1])
  }

  function SumTo(f: nat -> real, n: nat): (w: real) { if n == 0 then 0.0 else SumTo(f, n - 1) + f(n - 1) }

  lemma {:induction false} WeighConcat(m: seq<Entry>, w: seq<Entry>, v: Entry -> real)
    ensures Weigh(m + w, v) == Weigh(m, v) + Weigh(w, v)
  {
    if w == [] {
      assert m + w == m;
    } else {
      assert (m + w)[..|m + w| - 1] == m + w[..|w| - 1];
      WeighConcat(m, w[..|w| - 1], v);
    }
  }

  lemma WeighOne(e: Entry, v: Entry -> real)
    ensures Weigh([e], v) == v(e)
  {
    assert [e][..0] == [];
    assert Weigh([e][..0], v) == 0.0;
  }

  /** The order of the triples does not matter. */
  lemma {:induction false} WeighPermuted(m: seq<Entry>, w: seq<Entry>, v: Entry -> real)
    requires multiset(m) == multiset(w)
    ensures Weigh(m, v) == Weigh(w, v)
    decreases |m|
  {
    if m == [] {
      assert |multiset(w)| == |w| && |multiset(m)| == 0;
    } else {
      var e, p := m[|m| - 1], m[..|m| - 1];
      assert m == p + [e];
      assert e in multiset(w);
      var i :| 0 <= i < |w| && w[i] == e;
      var a, b := w[..i], w[i + 1..];
      assert w == a + [e] + b;
      TakeAway(m, w, p, a, b, e);
      WeighPermuted(p, a + b, v);
      WeighConcat(a + [e], b, v);
      WeighConcat(a, [e], v);
      WeighConcat(a, b, v);
      WeighOne(e, v);
    }
  }

  lemma TakeAway(m: seq<Entry>, w: seq<Entry>, p: seq<Entry>, a: seq<Entry>, b: seq<Entry>, e: Entry)
    requires m == p + [e] && w == a + [e] + b && multiset(m) == multiset(w)
    ensures multiset(p) == multiset(a + b)
  {
    assert multiset(p) == multiset(m) - multiset{e};
    assert multiset(a + b) == multiset(w) - multiset{e};
  }

  function Flipped(m: seq<Entry>): (w: seq<Entry>)
    ensures |w| == |m| && forall k :: 0 <= k < |m| ==> w[k] == Flip(m[k])
  {
    seq(|m|, k requires 0 <= k < |m| => Flip(m[k]))
  }

  lemma {:induction false} WeighFlipped(m: seq<Entry>, v: Entry -> real, w: Entry -> real)
    requires forall e :: w(e) == v(Flip(e))
    ensures Weigh(Flipped(m), v) == Weigh(m, w)
  {
    if m != [] {
      WeighFlipped(m[..|m| - 1], v, w);
      assert Flipped(m)[..|m| - 1] == Flipped(m[..|m| - 1]);
    }
  }

  lemma {:induction false} OnceEach(m: seq<Entry>, e: Entry)
    requires forall a, b :: 0 <= a < b < |m| ==> m[a] != m[b]
    ensures multiset(m)[e] == if e in m then 1 else 0
  {
    if m != [] {
      var p, last := m[..|m| - 1], m[|m| - 1];
      OnceEach(p, e);
      assert m == p + [last];
      assert last !in p;
    }
  }

  /** A symmetric matrix holds the same triples as its transpose. */
  lemma SameFlipped(g: Grid)
    requires Good(g)
    ensures multiset(Matrix(g)) == multiset(Flipped(Matrix(g)))
  {
    hide Matrix;
    var m := Matrix(g);
    var w := Flipped(m);
    MatrixSorted(g);
    forall a, b | 0 <= a < b < |m| ensures m[a] != m[b] && w[a] != w[b] { assert Before(m[a], m[b]); }
    forall e ensures multiset(m)[e] == multiset(w)[e] {
      OnceEach(m, e);
      OnceEach(w, e);
      MatrixSymmetric(g, e);
      FlippedHas(m, e);
    }
  }

  lemma FlippedHas(m: seq<Entry>, e: Entry)
    ensures e in Flipped(m) <==> Flip(e) in m
  {
    var w := Flipped(m);
    if e in w {
      var k :| 0 <= k < |w| && w[k] == e;
      assert m[k] == Flip(e);
    }
    if Flip(e) in m {
      var k :| 0 <= k < |m| && m[k] == Flip(e);
      assert w[k] == e;
    }
  }

  /** Each row of the grid weighs what f says of its node. */
  ghost predicate RowsWeigh(g: Grid, v: Entry -> real, f: nat -> real)
    requires Good(g)
  {
    forall l: nat, j: nat, i: nat :: InGrid(g, l, j, i) ==> Weigh(Row(g, l, j, i), v) == f(Idx(g, l, j, i))
  }

  lemma {:induction false} WeighLine(g: Grid, v: Entry -> real, f: nat -> real, l: nat, j: nat, i: nat)
    requires Good(g) && RowsWeigh(g, v, f) && l <= g.numLayer && j < g.dimZ && i <= g.dimX
    ensures Weigh(LineRows(g, l, j, i), v) == SumTo(f, Idx(g, l, j, i)) - SumTo(f, Idx(g, l, j, 0))
  {
    hide Row, Weigh, Area;
    if i > 0 {
      WeighLine(g, v, f, l, j, i - 1);
      WeighConcat(LineRows(g, l, j, i - 1), Row(g, l, j, i - 1), v);
      assert InGrid(g, l, j, i - 1);
      assert Idx(g, l, j, i) == Idx(g, l, j, i - 1) + 1;
    } else {
      NoWeight(v);
    }
  }

  lemma NoWeight(v: Entry -> real)
    ensures Weigh([], v) == 0.0
  {}

  lemma {:induction false} WeighLayer(g: Grid, v: Entry -> real, f: nat -> real, l: nat, j: nat)
    requires Good(g) && RowsWeigh(g, v, f) && l <= g.numLayer && j <= g.dimZ
    ensures Weigh(LayerRows(g, l, j), v) == SumTo(f, Idx(g, l, j, 0)) - SumTo(f, Idx(g, l, 0, 0))
  {
    hide LineRows, Weigh, SumTo, RowsWeigh;
    if j > 0 {
      WeighLayer(g, v, f, l, j - 1);
      WeighConcat(LayerRows(g, l, j - 1), LineRows(g, l, j - 1, g.dimX), v);
      WeighLine(g, v, f, l, j - 1, g.dimX);
      Distribute(j - 1, 1, g.dimX);
    } else {
      NoWeight(v);
    }
  }

  lemma {:induction false} WeighStack(g: Grid, v: Entry -> real, f: nat -> real, l: nat)
    requires Good(g) && RowsWeigh(g, v, f) && l <= g.numLayer + 1
    ensures Weigh(StackRows(g, l), v) == SumTo(f, Idx(g, l, 0, 0))
  {
    hide LayerRows, Weigh, RowsWeigh;
    if l > 0 {
      WeighStack(g, v, f, l - 1);
      WeighConcat(StackRows(g, l - 1), LayerRows(g, l - 1, g.dimZ), v);
      WeighLayer(g, v, f, l - 1, g.dimZ);
      Distribute(l - 1, 1, Area(g));
      assert g.dimZ * g.dimX == Area(g);
    } else {
      NoWeight(v);
    }
  }

  lemma WeighMatrix(g: Grid, v: Entry -> real, f: nat -> real)
    requires Good(g) && RowsWeigh(g, v, f)
    ensures Weigh(Matrix(g), v) == SumTo(f, Nodes(g))
  {
    hide StackRows, Weigh, SumTo, RowsWeigh;
    WeighStack(g, v, f, g.numLayer + 1);
    assert Idx(g, g.numLayer + 1, 0, 0) == Nodes(g);
  }

  /** What flows through a triple in one step: out of its row's node by its column's temperature, or by its row's own. */
  function ByColumn(s: Setting, t: seq<real>): Entry -> real { (e: Entry) => if e.col < |t| then s.dt * (e.val * t[e.col]) else 0.0 }

  function ByRow(s: Setting, t: seq<real>): Entry -> real { (e: Entry) => if e.row < |t| then s.dt * (e.val * t[e.row]) else 0.0 }

  /** Heat stored at a node by the step from t to u, fed in, and lost to the ambient. */
  function Stored(s: Setting, t: seq<real>, u: seq<real>): nat -> real {
    (r: nat) => if r < |t| && r < |u| && s.area > 0 && r / s.area < |s.cap| then s.cap[r / s.area] * (u[r] - t[r]) else 0.0
  }

  function Fed(s: Setting): nat -> real { (r: nat) => if r < |s.p| then s.dt * s.p[r] else 0.0 }

  function Shed(g: Grid, s: Setting, t: seq<real>): nat -> real {
    (r: nat) => if r < |t| && r < s.area && g.ramb > 0.0 then s.dt * (1.0 / g.ramb * t[r]) else 0.0
  }

  function Kept(s: Setting, t: seq<real>, u: seq<real>): nat -> real { (r: nat) => Fed(s)(r) - Stored(s, t, u)(r) }

  lemma {:induction false} WeighFlow(m: seq<Entry>, s: Setting, t: seq<real>)
    requires forall b :: 0 <= b < |m| ==> m[b].col < |t|
    ensures Weigh(m, ByColumn(s, t)) == s.dt * Flow(m, t)
  {
    if m != [] {
      WeighFlow(m[..|m| - 1], s, t);
      var e := m[|m| - 1];
      SplitProduct(Flow(m[..|m| - 1], t), e.val * t[e.col], s.dt);
    }
  }

  lemma {:induction false} WeighOwn(m: seq<Entry>, s: Setting, t: seq<real>, r: nat)
    requires r < |t| && forall b :: 0 <= b < |m| ==> m[b].row == r
    ensures Weigh(m, ByRow(s, t)) == s.dt * (SumVal(m) * t[r])
  {
    if m != [] {
      WeighOwn(m[..|m| - 1], s, t, r);
      var e := m[|m| - 1];
      SplitProduct(SumVal(m[..|m| - 1]), e.val, t[r]);
      SplitProduct(SumVal(m[..|m| - 1]) * t[r], e.val * t[r], s.dt);
    }
  }

  lemma {:induction false} FlowConcat(m: seq<Entry>, w: seq<Entry>, t: seq<real>)
    requires forall b :: 0 <= b < |m| ==> m[b].col < |t|
    requires forall b :: 0 <= b < |w| ==> w[b].col < |t|
    ensures forall b :: 0 <= b < |m + w| ==> (m + w)[b].col < |t|
    ensures Flow(m + w, t) == Flow(m, t) + Flow(w, t)
  {
    if w == [] {
      assert m + w == m;
    } else {
      assert (m + w)[..|m + w| - 1] == m + w[..|w| - 1];
      FlowConcat(m, w[..|w| - 1], t);
    }
  }

  lemma Rise(c: real, dt: real, diag: real, own: real, p: real, flow: real)
    requires c > 0.0
    ensures c * (Next(diag, dt / c, own, p, flow) - own) == dt * p - dt * (flow + diag * own)
  {
    var k := dt / c;
    assert c * k == dt;
    assert Next(diag, k, own, p, flow) - own == k * (p - (flow + diag * own)) by {
      assert (1.0 - diag * k) * own == own - k * (diag * own);
      assert k * (p - (flow + diag * own)) == p * k - flow * k - k * (diag * own);
    }
    assert c * (k * (p - (flow + diag * own))) == c * k * (p - (flow + diag * own));
    assert dt * (p - (flow + diag * own)) == dt * p - dt * (flow + diag * own);
  }

  /** At each node: what the row carries off by columns is what was fed less what was stored. */
  lemma NodeKept(g: Grid, l: nat, j: nat, i: nat, s: Setting, t: seq<real>)
    requires Suits(g, s) && InGrid(g, l, j, i) && |t| == Nodes(g)
    ensures Fits(Matrix(g), s, |t|)
    ensures Weigh(Row(g, l, j, i), ByColumn(s, t)) == Kept(s, t, Step(Matrix(g), s, t))(Idx(g, l, j, i))
  {
    hide Matrix, Lower, Upper, Gather, Idx, Nodes, Flow, Next, Weigh, SumVal, Sink, Row, Fits, Diagonal;
    NodeStep(g, l, j, i, s, t);
    var r, lo, up, d := Idx(g, l, j, i), Lower(g, l, j, i), Upper(g, l, j, i), Diagonal(g, l, j, i);
    RowIs(g, l, j, i);
    LayerOfIdx(g, l, j, i);
    ColsFit(lo, s, |t|);
    ColsFit(up, s, |t|);
    FlowConcat(lo, [d], t);
    FlowConcat(lo + [d], up, t);
    OneFlow(d, t);
    WeighFlow(Row(g, l, j, i), s, t);
    var flow := Flow(lo, t) + Flow(up, t);
    Rise(s.cap[l], s.dt, d.val, t[r], s.p[r], flow);
    assert Flow(Row(g, l, j, i), t) == flow + d.val * t[r];
    var u := Step(Matrix(g), s, t);
    assert u[r] == Next(d.val, s.dt / s.cap[l], t[r], s.p[r], flow);
    assert Fed(s)(r) == s.dt * s.p[r];
    assert Stored(s, t, u)(r) == s.cap[l] * (u[r] - t[r]);
    assert Weigh(Row(g, l, j, i), ByColumn(s, t)) == s.dt * (flow + d.val * t[r]);
    assert s.cap[l] * (u[r] - t[r]) == s.dt * s.p[r] - s.dt * (flow + d.val * t[r]);
  }

  lemma OneFlow(e: Entry, t: seq<real>)
    requires e.col < |t|
    ensures Flow([e], t) == e.val * t[e.col]
  {
    assert [e][..0] == [];
    assert Flow([e][..0], t) == 0.0;
  }

  /** At each node: by its own temperature, a row carries off only what the sink sheds. */
  lemma NodeShed(g: Grid, l: nat, j: nat, i: nat, s: Setting, t: seq<real>)
    requires Suits(g, s) && InGrid(g, l, j, i) && |t| == Nodes(g)
    ensures Weigh(Row(g, l, j, i), ByRow(s, t)) == Shed(g, s, t)(Idx(g, l, j, i))
  {
    hide Lower, Upper, Nodes, Weigh, SumVal, Row, Diagonal;
    LayerOfIdx(g, l, j, i);
    RowSorted(g, l, j, i);
    RowSum(g, l, j, i);
    var r, m := Idx(g, l, j, i), Row(g, l, j, i);
    assert forall b :: 0 <= b < |m| ==> m[b] in m;
    WeighOwn(m, s, t, r);
    IdxBounds(g, l, j, i);
    if l > 0 { Monotone(1, l, Area(g)); }
  }

  lemma {:induction false} SumDifference(f: nat -> real, a: nat -> real, b: nat -> real, n: nat)
    requires forall r :: f(r) == a(r) - b(r)
    ensures SumTo(f, n) == SumTo(a, n) - SumTo(b, n)
  {
    if n > 0 { SumDifference(f, a, b, n - 1); }
  }

  /**
   * Heat is conserved: over all nodes of any grid, what one step stores is what the step is fed less what the sink sheds to the
   * ambient; all exchange between nodes cancels.
   */
  lemma HeatConserved(g: Grid, s: Setting, t: seq<real>)
    requires Suits(g, s) && |t| == Nodes(g)
    ensures Fits(Matrix(g), s, |t|)
    ensures var u := Step(Matrix(g), s, t);
      SumTo(Stored(s, t, u), Nodes(g)) == SumTo(Fed(s), Nodes(g)) - SumTo(Shed(g, s, t), Nodes(g))
  {
    hide Matrix, Row, Weigh, SumTo, Stored, Fed, Shed, Step, Idx, Flipped, Nodes;
    MatrixFits(g, s);
    var m, u := Matrix(g), Step(Matrix(g), s, t);
    forall l: nat, j: nat, i: nat | InGrid(g, l, j, i)
      ensures Weigh(Row(g, l, j, i), ByColumn(s, t)) == Kept(s, t, u)(Idx(g, l, j, i))
      ensures Weigh(Row(g, l, j, i), ByRow(s, t)) == Shed(g, s, t)(Idx(g, l, j, i))
    {
      NodeKept(g, l, j, i, s, t);
      NodeShed(g, l, j, i, s, t);
    }
    WeighMatrix(g, ByColumn(s, t), Kept(s, t, u));
    WeighMatrix(g, ByRow(s, t), Shed(g, s, t));
    SameFlipped(g);
    WeighPermuted(m, Flipped(m), ByColumn(s, t));
    WeighFlipped(m, ByColumn(s, t), ByRow(s, t));
    SumDifference(Kept(s, t, u), Fed(s), Stored(s, t, u), Nodes(g));
  }

  /** What the sink sheds over a number of steps. */
  function ShedOver(g: Grid, s: Setting, t: seq<real>, iter: nat): (w: real)
    requires Good(g) && Fits(Matrix(g), s, |t|)
  {
    if iter == 0 then 0.0 else ShedOver(g, s, t, iter - 1) + SumTo(Shed(g, s, Steps(Matrix(g), s, t, iter - 1)), Nodes(g))
  }

  lemma {:induction false} StoredAdds(s: Setting, t: seq<real>, u: seq<real>, v: seq<real>, n: nat)
    requires |t| == |u| == |v|
    ensures SumTo(Stored(s, t, v), n) == SumTo(Stored(s, t, u), n) + SumTo(Stored(s, u, v), n)
  {
    if n > 0 {
      StoredAdds(s, t, u, v, n - 1);
      var r := n - 1;
      if r < |t| && s.area > 0 && r / s.area < |s.cap| {
        var c := s.cap[r / s.area];
        assert c * (v[r] - t[r]) == c * (u[r] - t[r]) + c * (v[r] - u[r]);
      }
    }
  }

  lemma {:induction false} NothingStored(s: Setting, t: seq<real>, n: nat)
    ensures SumTo(Stored(s, t, t), n) == 0.0
  {
    if n > 0 { NothingStored(s, t, n - 1); }
  }

  /** The same over any number of steps of the stepping loop. */
  lemma {:induction false} HeatOverSteps(g: Grid, s: Setting, t: seq<real>, iter: nat)
    requires Suits(g, s) && |t| == Nodes(g)
    ensures Fits(Matrix(g), s, |t|)
    ensures SumTo(Stored(s, t, Steps(Matrix(g), s, t, iter)), Nodes(g)) ==
      iter as real * SumTo(Fed(s), Nodes(g)) - ShedOver(g, s, t, iter)
  {
    hide Matrix, SumTo, Stored, Fed, Shed, Step, Nodes;
    MatrixFits(g, s);
    if iter == 0 {
      NothingStored(s, t, Nodes(g));
    } else {
      HeatOverSteps(g, s, t, iter - 1);
      var u := Steps(Matrix(g), s, t, iter - 1);
      HeatConserved(g, s, u);
      StoredAdds(s, t, u, Step(Matrix(g), s, u), Nodes(g));
      SplitProduct((iter - 1) as real, 1.0, SumTo(Fed(s), Nodes(g)));
    }
  }
}
