/** The step-size choice and the explicit stepping loop, and what they keep: comparison and maximum principles. */
module ThermalSolver {
  import opened ThermalMatrix

  /** What stays fixed during one solve: heat capacity per layer, heat input per node, and the step. */
  datatype Setting = Setting(cap: seq<real>, area: nat, p: seq<real>, dt: real)

  ghost predicate Fits(m: seq<Entry>, s: Setting, n: nat) {
    && s.area > 0 && |s.p| == n && (forall k :: 0 <= k < |s.cap| ==> s.cap[k] > 0.0)
    && forall b :: 0 <= b < |m| ==> m[b].row < n && m[b].col < n && m[b].row / s.area < |s.cap|
  }

  ghost predicate EntryFits(e: Entry, s: Setting, n: nat) {
    s.area > 0 && |s.p| == n && e.row < n && e.col < n && e.row / s.area < |s.cap| && s.cap[e.row / s.area] > 0.0
  }

  /** What one triple adds to the new temperature of its row. */
  function Part(e: Entry, s: Setting, t: seq<real>): (v: real)
    requires EntryFits(e, s, |t|)
  {
    var c := s.cap[e.row / s.area];
    if e.row == e.col then (1.0 - e.val * s.dt / c) * t[e.col] + s.p[e.row] * s.dt / c
    else 0.0 - e.val * t[e.col] * s.dt / c
  }

  /** The new temperature of row r gathered from a list of triples. */
  function Gather(m: seq<Entry>, s: Setting, t: seq<real>, r: nat): (v: real)
    requires Fits(m, s, |t|)
  {
    if m == [] then 0.0
    else
      var e := m[|m| - 1];
      Gather(m[..|m| - 1], s, t, r) + (if e.row == r then Part(e, s, t) else 0.0)
  }

  function Step(m: seq<Entry>, s: Setting, t: seq<real>): (r: seq<real>)
    requires Fits(m, s, |t|)
    ensures |r| == |t|
  {
    seq(|t|, r requires 0 <= r < |t| => Gather(m, s, t, r))
  }

  function Steps(m: seq<Entry>, s: Setting, t: seq<real>, iter: nat): (r: seq<real>)
    requires Fits(m, s, |t|)
    ensures |r| == |t|
  {
    if iter == 0 then t else Step(m, s, Steps(m, s, t, iter - 1))
  }

  // ---- The stepping loop ------------------------------------------------------------------------------------------

  const BLOCK: nat := 8

  method AddPart(e: Entry, s: Setting, tp: array<real>, t: array<real>)
    requires tp != t && t.Length == tp.Length && EntryFits(e, s, tp.Length)
    modifies t
    ensures t[e.row] == old(t[e.row]) + Part(e, s, tp[..])
    ensures forall r :: 0 <= r < t.Length && r != e.row ==> t[r] == old(t[r])
  {
    var c := s.cap[e.row / s.area];
    if e.row == e.col {
      var a := 1.0 - e.val * s.dt / c;
      var b := a * tp[e.col] + s.p[e.row] * s.dt / c;
      t[e.row] := t[e.row] + b;
    } else {
      var a := e.val * tp[e.col] * s.dt / c;
      t[e.row] := t[e.row] - a;
    }
  }

  ghost predicate Gathered(m: seq<Entry>, s: Setting, tp: seq<real>, t: seq<real>)
    requires Fits(m, s, |tp|) && |t| == |tp|
  {
    forall r :: 0 <= r < |t| ==> t[r] == Gather(m, s, tp, r)
  }

  lemma GatherOne(m: seq<Entry>, b: nat, s: Setting, tp: seq<real>, t: seq<real>, t2: seq<real>)
    requires Fits(m, s, |tp|) && b < |m| && |t| == |tp| == |t2| && Gathered(m[..b], s, tp, t)
    requires t2[m[b].row] == t[m[b].row] + Part(m[b], s, tp)
    requires forall r :: 0 <= r < |t| && r != m[b].row ==> t2[r] == t[r]
    ensures Gathered(m[..b + 1], s, tp, t2)
  {
    hide Part;
    assert m[..b + 1][..b] == m[..b];
  }

  /** One pass over the triples in blocks, accumulating into a zeroed array. */
  method Pass(m: seq<Entry>, s: Setting, tp: array<real>, t: array<real>)
    requires tp != t && t.Length == tp.Length && Fits(m, s, tp.Length) && forall r :: 0 <= r < t.Length ==> t[r] == 0.0
    modifies t
    ensures t[..] == Step(m, s, tp[..])
  {
    hide Part;
    var j := 0;
    while j < |m|
      invariant 0 <= j <= |m| && Gathered(m[..j], s, tp[..], t[..])
    {
      var bound := if j + BLOCK < |m| then j + BLOCK else |m|;
      var b := j;
      while b < bound
        invariant j <= b <= bound && Gathered(m[..b], s, tp[..], t[..])
      {
        ghost var was := t[..];
        AddPart(m[b], s, tp, t);
        GatherOne(m, b, s, tp[..], was, t[..]);
        b := b + 1;
      }
      j := bound;
    }
    assert m[..|m|] == m;
  }

  method Clear(t: array<real>)
    modifies t
    ensures forall r :: 0 <= r < t.Length ==> t[r] == 0.0
  {
    var k := 0;
    while k < t.Length
      invariant 0 <= k <= t.Length && forall r :: 0 <= r < k ==> t[r] == 0.0
    {
      t[k] := 0.0;
      k := k + 1;
    }
  }

  /** The arrays change roles after every pass. */
  method Transient(m: seq<Entry>, s: Setting, start: array<real>, iter: nat) returns (result: array<real>)
    requires Fits(m, s, start.Length)
    modifies start
    ensures result[..] == Steps(m, s, old(start[..]), iter)
  {
    hide Gather;
    var tp := start;
    var t := new real[start.Length](_ => 0.0);
    var iit := 0;
    ghost var first := start[..];
    while iit < iter
      invariant 0 <= iit <= iter && tp != t && t.Length == tp.Length == |first|
      invariant (t == start || fresh(t)) && (tp == start || fresh(tp))
      invariant forall r :: 0 <= r < t.Length ==> t[r] == 0.0
      invariant tp[..] == Steps(m, s, first, iit)
    {
      Pass(m, s, tp, t);
      tp, t := t, tp;
      Clear(t);
      iit := iit + 1;
    }
    result := tp;
  }

  // ---- The step size ----------------------------------------------------------------------------------------------

  ghost predicate Scannable(m: seq<Entry>, cap: seq<real>, area: nat) {
    && area > 0 && (forall k :: 0 <= k < |cap| ==> cap[k] > 0.0)
    && forall b :: 0 <= b < |m| ==> m[b].row / area < |cap| && (m[b].row == m[b].col ==> m[b].val > 0.0)
  }

  /** 100 s, or the smallest time constant of any node. */
  ghost predicate IsLimit(m: seq<Entry>, cap: seq<real>, area: nat, dt: real)
    requires Scannable(m, cap, area)
  {
    && 0.0 < dt <= 100.0
    && (forall b :: 0 <= b < |m| && m[b].row == m[b].col ==> dt <= cap[m[b].row / area] / m[b].val)
    && (dt == 100.0 || exists b :: 0 <= b < |m| && m[b].row == m[b].col && dt == cap[m[b].row / area] / m[b].val)
  }

  lemma Quotient(c: real, g: real)
    requires c > 0.0 && g > 0.0
    ensures c / g > 0.0
  {}

  method ScanLimit(m: seq<Entry>, cap: seq<real>, area: nat) returns (dt: real)
    requires Scannable(m, cap, area)
    ensures IsLimit(m, cap, area, dt)
  {
    dt := 100.0;
    var j := 0;
    while j < |m|
      invariant 0 <= j <= |m| && 0.0 < dt <= 100.0
      invariant forall b :: 0 <= b < j && m[b].row == m[b].col ==> dt <= cap[m[b].row / area] / m[b].val
      invariant dt == 100.0 || exists b :: 0 <= b < j && m[b].row == m[b].col && dt == cap[m[b].row / area] / m[b].val
    {
      if m[j].row == m[j].col {
        var c := cap[m[j].row / area];
        Quotient(c, m[j].val);
        if c / m[j].val < dt { dt := c / m[j].val; }
      }
      j := j + 1;
    }
  }

  lemma SlowEnough(epoch: real, n: nat, dt: real)
    requires dt > 0.0 && n > 0 && epoch / (n as real) >= dt
    ensures n <= (epoch / dt).Floor
  {
    var x := n as real;
    assert epoch == (epoch / x) * x;
    assert (epoch / x) * x >= dt * x;
    assert epoch / dt >= x by {
      assert epoch == (epoch / dt) * dt;
    }
  }

  /** The fewest steps, from 10 up, that keep each step strictly below the limit. */
  method CalculateTimeStep(m: seq<Entry>, cap: seq<real>, area: nat, epoch: real) returns (iter: nat, ghost limit: real)
    requires Scannable(m, cap, area)
    ensures IsLimit(m, cap, area, limit) && iter >= 10 && epoch / (iter as real) < limit
    ensures iter == 10 || epoch / ((iter - 1) as real) >= limit
  {
    var dt := ScanLimit(m, cap, area);
    limit := dt;
    iter := 10;
    while epoch / (iter as real) >= dt
      invariant iter >= 10 && (iter == 10 || epoch / ((iter - 1) as real) >= dt)
      decreases (epoch / dt).Floor - iter
    {
      SlowEnough(epoch, iter, dt);
      iter := iter + 1;
    }
  }
}
