/** Nobody waits forever for a turn: round robin over the command queues, and the staggered refresh counter. */
module Fairness {
  import opened Commands
  import opened Timing
  import opened Channel
  import opened ChannelHistory
  import opened Queueing
  import opened ControllerSafety

  // ---- Round robin over queues ------------------------------------------------------------------------------------

  /** How many queues are looked at until queue j, starting after idx: between 1 and n. */
  function Distance(idx: int, j: int, n: int): (d: int) { if j > idx then j - idx else j - idx + n }

  /** Queue j has a command to issue now and no refresh holds it. */
  ghost predicate Ready(u: Setup, s: Chan, cq: CmdQ, clk: nat, j: int)
    requires QueuesAskable(u, s, cq) && 0 <= j < |cq.queues|
  {
    !Blocked(cq, j) && !FirstReady(u, s, cq.queues[j], clk, 0).NotReady?
  }

  /** The call issues for queue j, or stops at a ready queue strictly nearer to j than the last one. */
  lemma {:induction false} CallServesOrApproaches(u: Setup, s: Chan, cq: CmdQ, clk: nat, tries: nat, j: int)
    requires QueuesAskable(u, s, cq) && 0 <= j < |cq.queues| && Ready(u, s, cq, clk, j)
    requires tries >= Distance(cq.idx, j, |cq.queues|)
    ensures var r := GetCommandToIssue(u, s, cq, clk, tries);
      && !r.1.NotReady? && 0 <= r.0.idx < |r.0.queues| == |cq.queues|
      && (r.0.idx == j || Distance(r.0.idx, j, |cq.queues|) < Distance(cq.idx, j, |cq.queues|))
      && (r.0.idx == j && r.1.Go? ==> FirstReady(u, s, cq.queues[j], clk, 0) == r.1)
    decreases tries
  {
    hide FirstReady, Dispatch, Askable;
    var next := cq.(idx := NextIdx(cq));
    if Blocked(next, next.idx) || FirstReady(u, s, next.queues[next.idx], clk, 0).NotReady? {
      assert next.idx != j;
      CallServesOrApproaches(u, s, next, clk, tries - 1, j);
    }
    DispatchKeepsIdx(u, s, next, clk);
  }

  lemma DispatchKeepsIdx(u: Setup, s: Chan, cq: CmdQ, clk: nat)
    requires QueuesAskable(u, s, cq)
    ensures forall x :: Addressed(u.dram, x) ==>
      var r := Dispatch(u, s, cq, x); r.0.idx == cq.idx && |r.0.queues| == |cq.queues|
  {}

  /** One call as the scheduler makes it: the state it sees. */
  datatype Call = Call(s: Chan, cq: CmdQ, clk: nat)

  /** The channel and the queues are as in every reachable state. */
  ghost predicate WellPosed(u: Setup, c: Call, n: nat) {
    && u.WellFormed() && ChanOk(u.dram, c.s) && QueuesOk(u, c.cq)
    && QueuesAskable(u, c.s, c.cq) && |c.cq.queues| == n
  }

  /** Consecutive calls; anything may change between two calls except where the round robin stands. */
  ghost predicate CallsInTurn(u: Setup, calls: seq<Call>, n: nat) {
    && (forall k :: 0 <= k < |calls| ==> WellPosed(u, calls[k], n))
    && forall k :: 0 <= k < |calls| - 1 ==> calls[k + 1].cq.idx == Result(u, calls[k], n).0.idx
  }

  ghost function Result(u: Setup, c: Call, n: nat): (r: (CmdQ, Reply))
    requires WellPosed(u, c, n)
  {
    GetCommandToIssue(u, c.s, c.cq, c.clk, n)
  }

  /** The call issues the first ready command of queue j. */
  ghost predicate Serves(u: Setup, c: Call, n: nat, j: int)
    requires WellPosed(u, c, n) && 0 <= j < n
  {
    var r := Result(u, c, n);
    r.0.idx == j && r.1.Go? && r.1 == FirstReady(u, c.s, c.cq.queues[j], c.clk, 0)
  }

  /** A queue that is ready at each of as many calls as there are queues is served by one of them. */
  lemma ServedWithinOneRound(u: Setup, calls: seq<Call>, n: nat, j: int) returns (k: nat)
    requires CallsInTurn(u, calls, n) && 0 <= j < n <= |calls|
    requires forall i :: 0 <= i < |calls| ==> Ready(u, calls[i].s, calls[i].cq, calls[i].clk, j)
    ensures k < n && Serves(u, calls[k], n, j)
  {
    k := ServedBy(u, calls, n, j);
  }

  lemma {:induction false} ServedBy(u: Setup, calls: seq<Call>, n: nat, j: int) returns (k: nat)
    requires CallsInTurn(u, calls, n) && 0 <= j < n && |calls| > 0 && |calls| >= Distance(calls[0].cq.idx, j, n)
    requires forall i :: 0 <= i < |calls| ==> Ready(u, calls[i].s, calls[i].cq, calls[i].clk, j)
    ensures k < Distance(calls[0].cq.idx, j, n) && k < |calls| && Serves(u, calls[k], n, j)
    decreases |calls|
  {
    hide GetCommandToIssue, FirstReady, QueuesAskable, ChanOk, QueuesOk;
    var c := calls[0];
    assert WellPosed(u, c, n) && Ready(u, c.s, c.cq, c.clk, j);
    IdxInRange(u, c, n);
    CallServesOrApproaches(u, c.s, c.cq, c.clk, n, j);
    CallNeverAborts(u, c, n);
    k := 0;
    if Result(u, c, n).0.idx != j {
      assert Result(u, c, n).0.idx == calls[1].cq.idx;
      k := ServedBy(u, calls[1..], n, j);
      k := k + 1;
    }
  }

  lemma CallNeverAborts(u: Setup, c: Call, n: nat)
    requires WellPosed(u, c, n)
    ensures !Result(u, c, n).1.Abort?
  {
    hide GetCommandToIssue, Chosen;
    SearchIsOk(u, c.s, c.cq, c.clk, n);
  }

  lemma IdxInRange(u: Setup, c: Call, n: nat)
    requires WellPosed(u, c, n)
    ensures 0 <= c.cq.idx < n
  {}

  // ---- The refresh counter ----------------------------------------------------------------------------------------

  /** How many refreshes until the counter is back where it started. */
  function Period(u: Setup): (p: int) {
    if u.policy.BankStaggered? then u.dram.ranks * u.dram.banksPerGroup * u.dram.bankgroups else u.dram.ranks
  }

  /** The place of a rank, or of a bank, in the order of refresh: bankgroup fastest, then bank, then rank. */
  function Place(u: Setup, rank: int, bankgroup: int, bank: int): (p: int) {
    if u.policy.BankStaggered? then (rank * u.dram.banksPerGroup + bank) * u.dram.bankgroups + bankgroup else rank
  }

  function PlaceOf(u: Setup, n: Counter): (p: int) { Place(u, n.rank, n.bankgroup, n.bank) }

  predicate InRange(u: Setup, n: Counter) { u.dram.Holds(Loc(n.rank, n.bankgroup, n.bank)) }

  lemma PlaceInRange(u: Setup, n: Counter)
    requires u.dram.WellFormed() && InRange(u, n)
    ensures 0 <= PlaceOf(u, n) < Period(u)
  {
    if u.policy.BankStaggered? {
      BlockIndex(n.rank, u.dram.ranks, u.dram.banksPerGroup, n.bank);
      BlockIndex(n.rank * u.dram.banksPerGroup + n.bank, u.dram.ranks * u.dram.banksPerGroup, u.dram.bankgroups, n.bankgroup);
    }
  }

  /** Next of a digit below b: it grows by one, or returns to zero. */
  lemma Carry(x: int, b: int)
    requires 0 <= x < b
    ensures (x + 1) % b == if x + 1 == b then 0 else x + 1
  {
    if x + 1 < b { DivideBlock(0, b, x + 1); }
  }

  lemma Grow(a: int, b: int)
    ensures (a + 1) * b == a * b + b
  {}

  /** The counter is a mixed-radix number that each refresh increases by one, modulo its period. */
  lemma CounterCounts(u: Setup, n: Counter)
    requires u.dram.WellFormed() && InRange(u, n) && !u.policy.RankSimultaneous?
    ensures InRange(u, IterateNext(u, n))
    ensures PlaceOf(u, IterateNext(u, n)) == if PlaceOf(u, n) + 1 == Period(u) then 0 else PlaceOf(u, n) + 1
  {
    var r, b, g := u.dram.ranks, u.dram.banksPerGroup, u.dram.bankgroups;
    Carry(n.bankgroup, g);
    Carry(n.bank, b);
    Carry(n.rank, r);
    if u.policy.BankStaggered? {
      PlaceInRange(u, n);
      PlaceInRange(u, IterateNext(u, n));
      Grow(n.rank, b);
      Grow(n.rank * b + n.bank, g);
      if n.bankgroup + 1 == g && n.bank + 1 == b {
        Grow(n.rank * b + n.bank, g);
        assert (n.rank * b + n.bank + 1) * g == (n.rank + 1) * b * g;
      }
    }
  }

  lemma PlaceInjective(u: Setup, n: Counter, m: Counter)
    requires u.dram.WellFormed() && InRange(u, n) && InRange(u, m) && PlaceOf(u, n) == PlaceOf(u, m)
    ensures n.rank == m.rank
    ensures u.policy.BankStaggered? ==> n.bankgroup == m.bankgroup && n.bank == m.bank
  {
    if u.policy.BankStaggered? {
      var b, g := u.dram.banksPerGroup, u.dram.bankgroups;
      DivideBlock(n.rank * b + n.bank, g, n.bankgroup);
      DivideBlock(m.rank * b + m.bank, g, m.bankgroup);
      DivideBlock(n.rank, b, n.bank);
      DivideBlock(m.rank, b, m.bank);
    }
  }

  /** The counter after k refreshes. */
  function After(u: Setup, n: Counter, k: nat): (m: Counter)
    requires u.dram.WellFormed()
  {
    if k == 0 then n else IterateNext(u, After(u, n, k - 1))
  }

  lemma {:induction false} AfterPlace(u: Setup, n: Counter, k: nat)
    requires u.dram.WellFormed() && InRange(u, n) && !u.policy.RankSimultaneous? && k < Period(u)
    ensures InRange(u, After(u, n, k))
    ensures PlaceOf(u, After(u, n, k)) ==
      (if PlaceOf(u, n) + k < Period(u) then PlaceOf(u, n) + k else PlaceOf(u, n) + k - Period(u))
  {
    hide Place, IterateNext;
    PlaceInRange(u, n);
    if k > 0 {
      AfterPlace(u, n, k - 1);
      CounterCounts(u, After(u, n, k - 1));
    }
  }

  /** Among any period of consecutive refreshes, each rank (or bank) is named by exactly one, wherever the counter stands. */
  lemma EachOncePerPeriod(u: Setup, n: Counter, target: Counter) returns (k: nat)
    requires u.dram.WellFormed() && InRange(u, n) && InRange(u, target) && !u.policy.RankSimultaneous?
    ensures k < Period(u) && NextRefresh(u, After(u, n, k)) == NextRefresh(u, target)
    ensures forall m: nat :: m < Period(u) && NextRefresh(u, After(u, n, m)) == NextRefresh(u, target) ==> m == k
  {
    PlaceInRange(u, n);
    PlaceInRange(u, target);
    var from, to := PlaceOf(u, n), PlaceOf(u, target);
    k := if to >= from then to - from else to - from + Period(u);
    AfterPlace(u, n, k);
    PlaceInjective(u, After(u, n, k), target);
    forall m: nat | m < Period(u) && NextRefresh(u, After(u, n, m)) == NextRefresh(u, target) ensures m == k {
      AfterPlace(u, n, m);
      SameTurn(u, After(u, n, m), target);
    }
  }

  lemma SameTurn(u: Setup, n: Counter, m: Counter)
    requires !u.policy.RankSimultaneous? && NextRefresh(u, n) == NextRefresh(u, m)
    ensures PlaceOf(u, n) == PlaceOf(u, m)
  {}

  /** Counter and refresh queue after some cycles from the start, nothing being taken from the queue. */
  function Ticks(u: Setup, t: nat): (r: (Counter, seq<Command>))
    requires u.dram.WellFormed() && RefreshInterval(u) > 0
  {
    if t == 0 then (Counter(0, 0, 0, 0), []) else var (n, q) := Ticks(u, t - 1); RefreshTick(u, n, q)
  }

  /** The k-th refresh is asked for at the end of cycle k times the interval, for the k-th place in the order. */
  lemma {:induction false} RefreshSchedule(u: Setup, t: nat)
    requires u.dram.WellFormed() && RefreshInterval(u) > 0
    ensures var (n, q) := Ticks(u, t); var asked := if t == 0 then 0 else (t - 1) / RefreshInterval(u);
      && n.clk == t && |q| == asked && n == After(u, Counter(0, 0, 0, 0), asked).(clk := t)
      && forall k :: 0 <= k < asked ==> q[k] == NextRefresh(u, After(u, Counter(0, 0, 0, 0), k))
  {
    if t > 0 {
      RefreshSchedule(u, t - 1);
      var i := RefreshInterval(u);
      var before := if t == 1 then 0 else (t - 2) / i;
      DivStep(t - 1, i);
      AfterAnyClock(u, Counter(0, 0, 0, 0), before);
    }
  }

  lemma DivStep(x: nat, i: int)
    requires i > 0
    ensures x > 0 ==> x / i == (x - 1) / i + (if x % i == 0 then 1 else 0)
    ensures x == 0 ==> x / i == 0
  {
    if x > 0 {
      var q, r := x / i, x % i;
      assert x == q * i + r;
      if r == 0 {
        Grow(q - 1, i);
        DivideBlock(q - 1, i, i - 1);
      } else {
        DivideBlock(q, i, r - 1);
      }
    } else {
      DivideBlock(0, i, 0);
    }
  }

  lemma {:induction false} AfterAnyClock(u: Setup, n: Counter, k: nat)
    requires u.dram.WellFormed()
    ensures After(u, n, k).clk == n.clk
  {
    if k > 0 { AfterAnyClock(u, n, k - 1); }
  }

  /** Under rank staggering the same rank is asked for again no later than tREFI cycles after. */
  lemma RankWithinInterval(u: Setup)
    requires u.dram.WellFormed() && u.policy.RankStaggered?
    ensures Period(u) * RefreshInterval(u) <= u.dram.tREFI
  {
    var r, t := u.dram.ranks, u.dram.tREFI;
    assert t == (t / r) * r + t % r;
  }
}
