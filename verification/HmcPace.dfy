/** Bandwidth of one crossbar port, arbitration order, and the two clock domains of the cube. */
module HmcPace {
  import opened Commands
  import opened HmcCube

  // ---- Bandwidth --------------------------------------------------------------------------------------------------

  /** Two flits leave a busy port per logic cycle. */
  const XBAR_BANDWIDTH: nat := 2

  function Drained(busy: int): (b: int) { if busy > 0 then busy - XBAR_BANDWIDTH else busy }

  function Flits(h: seq<nat>): (n: nat) { if h == [] then 0 else Flits(h[..|h| - 1]) + h[|h| - 1] }

  function Positive(busy: int): (n: nat) { if busy > 0 then busy else 0 }

  /** Flits of cycles a to b, both counted: at most two a cycle for all but one packet. */
  ghost predicate WindowOk(h: seq<nat>, a: nat, b: nat)
    requires a < b <= |h|
  {
    Flits(h[a..b]) <= XBAR_BANDWIDTH * (b - a - 1) + MAX_FLITS
  }

  ghost predicate WindowNow(h: seq<nat>, busy: int, a: nat)
    requires a < |h|
  {
    Flits(h[a..]) <= XBAR_BANDWIDTH * (|h| - a - 1) + Positive(busy)
  }

  /** `h` lists the flits a port admitted per cycle; every window obeys the bound, and those ending now a tighter one. */
  ghost predicate Paced(h: seq<nat>, busy: int) {
    && busy <= MAX_FLITS
    && (forall a: nat, b: nat :: a < b <= |h| ==> WindowOk(h, a, b))
    && forall a: nat :: a < |h| ==> WindowNow(h, busy, a)
  }

  lemma FlitsAppend(h: seq<nat>, x: nat)
    ensures Flits(h + [x]) == Flits(h) + x
  {
    assert (h + [x])[..|h|] == h;
  }

  /** A new cycle begins: the port drains and has admitted nothing yet. */
  lemma NextCycle(h: seq<nat>, busy: int)
    requires Paced(h, busy)
    ensures Paced(h + [0], Drained(busy))
  {
    var g, n := h + [0], |h|;
    forall a: nat | a < |g| ensures WindowNow(g, Drained(busy), a) {
      if a < n {
        assert g[a..] == h[a..] + [0];
        FlitsAppend(h[a..], 0);
        assert WindowNow(h, busy, a);
      } else {
        assert g[a..] == [] + [0];
        FlitsAppend([], 0);
      }
    }
    EndingNow(g, Drained(busy), h);
  }

  /** A free port admits a packet. */
  lemma Admit(h: seq<nat>, busy: int, f: nat)
    requires Paced(h, busy) && h != [] && busy <= 0 && f <= MAX_FLITS
    ensures Paced(h[|h| - 1 := h[|h| - 1] + f], f)
  {
    var n := |h| - 1;
    var g := h[n := h[n] + f];
    forall a: nat | a < |g| ensures WindowNow(g, f, a) {
      assert g[a..] == h[a..n] + [h[n] + f] && h[a..] == h[a..n] + [h[n]];
      FlitsAppend(h[a..n], h[n] + f);
      FlitsAppend(h[a..n], h[n]);
      assert WindowNow(h, busy, a);
    }
    forall a: nat, b: nat | a < b <= n ensures WindowOk(h[..n], a, b) {
      assert h[..n][a..b] == h[a..b];
      assert WindowOk(h, a, b);
    }
    EndingNow(g, f, h[..n]);
  }

  lemma SliceOfPrefix(g: seq<nat>, n: nat, a: nat, b: nat)
    requires a <= b <= n <= |g|
    ensures g[..n][a..b] == g[a..b]
  {}

  /** Windows that end before the last cycle are those of the shorter history. */
  lemma EndingNow(g: seq<nat>, busy: int, h: seq<nat>)
    requires |g| == |h| + 1 && g[..|h|] == h && busy <= MAX_FLITS
    requires forall a: nat, b: nat :: a < b <= |h| ==> WindowOk(h, a, b)
    requires forall a: nat :: a < |g| ==> WindowNow(g, busy, a)
    ensures Paced(g, busy)
  {
    forall a: nat, b: nat | a < b <= |g| ensures WindowOk(g, a, b) {
      if b <= |h| {
        SliceOfPrefix(g, |h|, a, b);
        assert WindowOk(h, a, b);
      } else {
        assert g[a..b] == g[a..];
        assert WindowNow(g, busy, a);
      }
    }
  }

  /** What is left of a packet's time at its port after k cycles. */
  function DrainedFor(busy: int, k: nat): (b: int) { if k == 0 then busy else Drained(DrainedFor(busy, k - 1)) }

  /** A port that admits f flits is free again after exactly half as many cycles, rounded up. */
  lemma {:induction false} BusyFor(f: nat, k: nat)
    ensures DrainedFor(f, k) <= 0 <==> 2 * k >= f
    ensures 2 * k <= f ==> DrainedFor(f, k) == f - 2 * k
  {
    if k > 0 { BusyFor(f, k - 1); }
  }

  // ---- Arbitration ------------------------------------------------------------------------------------------------

  /** Where a source goes in the list: before the first source number smaller than its age. */
  method Position(queue: seq<nat>, age: nat) returns (k: nat)
    ensures k <= |queue| && (forall j :: 0 <= j < k ==> age <= queue[j]) && (k < |queue| ==> age > queue[k])
  {
    k := 0;
    while k < |queue| && age <= queue[k]
      invariant k <= |queue| && forall j :: 0 <= j < k ==> age <= queue[j]
    {
      k := k + 1;
    }
  }

  function Around(start: nat, i: nat, n: nat): (p: nat)
    requires start < n && i < n
    ensures p < n
  {
    if i + start < n then i + start else i + start - n
  }

  lemma AroundIsMod(start: nat, i: nat, n: nat)
    requires start < n && i < n
    ensures (i + start) % n == Around(start, i, n)
  {
    ModStep(i + start, n);
  }

  lemma ModStep(x: nat, n: nat)
    requires 0 < n && x < 2 * n
    ensures x % n == if x < n then x else x - n
  {
    var q, r := x / n, x % n;
    assert x == q * n + r;
    assert q >= 2 ==> q * n >= 2 * n;
    assert q == 1 ==> q * n == n;
  }

  /** Every source with a positive age once, and no other. */
  method BuildAgeQueue(ages: seq<nat>, clk: nat) returns (queue: seq<nat>)
    requires |ages| > 0
    ensures Distinct(queue) && forall p :: p in queue <==> 0 <= p < |ages| && ages[p] > 0
  {
    queue := [];
    var n := |ages|;
    var start := clk % n;
    var i := 0;
    while i < n
      invariant i <= n && Distinct(queue)
      invariant forall p :: p in queue <==> exists j :: 0 <= j < i && p == Around(start, j, n) && ages[p] > 0
    {
      AroundIsMod(start, i, n);
      var pos := (i + start) % n;
      if ages[pos] > 0 {
        assert pos !in queue;
        var k := Position(queue, ages[pos]);
        ghost var was := queue;
        queue := queue[..k] + [pos] + queue[k..];
        InsertDistinct(was, k, pos);
      }
      i := i + 1;
    }
    forall p | 0 <= p < n && ages[p] > 0 ensures p in queue {
      var j := if p >= start then p - start else p + n - start;
      assert p == Around(start, j, n);
    }
  }

  lemma InsertDistinct(s: seq<nat>, k: nat, x: nat)
    requires Distinct(s) && k <= |s| && x !in s
    ensures Distinct(s[..k] + [x] + s[k..])
    ensures forall p :: p in s[..k] + [x] + s[k..] <==> p == x || p in s
  {
    var w := s[..k] + [x] + s[k..];
    assert s == s[..k] + s[k..];
    forall i, j | 0 <= i < j < |w| ensures w[i] != w[j] {
      assert i != k ==> w[i] == s[if i < k then i else i - 1];
      assert j != k ==> w[j] == s[if j < k then j else j - 1];
    }
  }

  // ---- Clocks -----------------------------------------------------------------------------------------------------

  const PS_PER_DRAM: nat := 800

  lemma PeriodPositive(speed: nat)
    requires speed > 0
    ensures 1000000 / speed > 0 <==> speed <= 1000000
  {}

  lemma Product(a: int, b: int, c: nat)
    ensures (a + b) * c == a * c + b * c && (b >= 0 ==> b * c >= 0) && (b == 1 ==> b * c == c)
  {}

  lemma PeriodFits(speed: nat)
    requires speed > 0
    ensures var ps := 1000000 / speed; ps * speed <= 1000000 < (ps + 1) * speed
    ensures 800 < 1000000 / speed ==> 800 * speed <= 1000000
  {
    var ps := 1000000 / speed;
    assert 1000000 == ps * speed + 1000000 % speed;
    Product(ps, 1, speed);
    Product(800, ps - 800, speed);
  }

  /** The logic period from the link's width in bits and speed in MHz, no longer than the memory's. */
  function PsPerLogic(linkWidth: nat, linkSpeed: nat): (p: nat)
    requires 1 <= linkWidth <= 128 && 0 < linkSpeed / (128 / linkWidth)
    ensures p <= 800 && (p > 0 <==> linkSpeed / (128 / linkWidth) <= 1000000)
    ensures var mhz := linkSpeed / (128 / linkWidth); p * mhz <= 1000000 && (p < 800 ==> 1000000 < (p + 1) * mhz)
  {
    PeriodPositive(linkSpeed / (128 / linkWidth));
    PeriodFits(linkSpeed / (128 / linkWidth));
    var ps := 1000000 / (linkSpeed / (128 / linkWidth));
    if ps > PS_PER_DRAM then PS_PER_DRAM else ps
  }

  /** a divided by b, rounded up. */
  function RoundUp(a: nat, b: nat): (q: nat)
    requires b > 0
  {
    (a + b - 1) / b
  }

  lemma RoundUpIs(a: nat, b: nat, q: nat)
    requires b > 0 && a <= q * b < a + b
    ensures RoundUp(a, b) == q
  {
    var x := a + b - 1;
    var d := x / b - q;
    assert x == (x / b) * b + x % b;
    assert d * b == x - q * b - x % b;
    Unit(d, b);
  }

  lemma Unit(d: int, b: nat)
    requires 0 - b < d * b < b
    ensures d == 0
  {}
}
