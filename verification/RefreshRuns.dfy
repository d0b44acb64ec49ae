/** Refresh requests over whole runs: when each rank or bank is asked for, and in which order requests are served. */
module RefreshRuns {
  import opened Commands
  import opened Timing
  import opened Channel
  import opened ChannelHistory
  import opened Queueing
  import opened ControllerSafety
  import opened ControllerRuns
  import opened RefreshProgress
  import opened Fairness

  ghost function CommandsOf(h: seq<Issued>): (q: seq<Command>)
    ensures |q| == |h|
  {
    seq(|h|, i requires 0 <= i < |h| => h[i].cmd)
  }

  // ---- Requests follow the schedule -------------------------------------------------------------------------------

  /** The counter and the requests of a run are those of the counter alone, and request k was made k + 1 intervals in. */
  ghost predicate OnSchedule(u: Setup, y: System)
    requires u.dram.WellFormed() && RefreshInterval(u) > 0
  {
    && Ticks(u, y.ctrl.clk) == (y.ctrl.refresh, CommandsOf(y.requests))
    && forall k :: 0 <= k < |y.requests| ==> y.requests[k].clk == (k + 1) * RefreshInterval(u)
  }

  /** What a refresh tick appends does not depend on what is queued. */
  lemma TickAppends(u: Setup, n: Counter, q: seq<Command>, w: seq<Command>)
    requires u.dram.WellFormed() && RefreshInterval(u) > 0
    ensures RefreshTick(u, n, q).0 == RefreshTick(u, n, w).0
    ensures RefreshTick(u, n, q).1 == q + RefreshTick(u, n, []).1 && |RefreshTick(u, n, []).1| <= 1
    ensures RefreshTick(u, n, q).1[|q|..] == RefreshTick(u, n, []).1
  {}

  lemma StageFields(u: Setup, s: Ctrl)
    requires Callable(u, s) && IssueStage(u, s).Some?
    ensures IssueStage(u, s).value.refresh == s.refresh && IssueStage(u, s).value.clk == s.clk
  {
    hide Choose, GetCommandToIssue, Issue, QueuesAskable;
  }

  lemma TickFields(u: Setup, s: Ctrl)
    requires Callable(u, s) && ClockTick(u, s).Some?
    ensures ClockTick(u, s).value.refresh == RefreshTick(u, s.refresh, s.chan.refreshQ).0
    ensures ClockTick(u, s).value.clk == s.clk + 1
  {
    hide IssueStage, ScheduleTransaction, Askable, RefreshTick;
    StageFields(u, BeginTick(u, s));
    ScheduleShape(u, IssueStage(u, BeginTick(u, s)).value);
  }

  lemma StepKeepsSchedule(u: Setup, y: System, e: Event)
    requires SystemOk(u, y) && OnSchedule(u, y) && Step(u, y, e).Some?
    ensures OnSchedule(u, Step(u, y, e).value)
  {
    hide Inv, ClockTick, Ticks, Filed, Owed, RefreshTick, IterateNext;
    var w := Step(u, y, e).value;
    if e.Cycle? {
      var n, t := y.ctrl.refresh, y.ctrl.clk;
      TickFields(u, y.ctrl);
      TickAppends(u, n, y.ctrl.chan.refreshQ, CommandsOf(y.requests));
      TickAppends(u, n, CommandsOf(y.requests), []);
      assert Ticks(u, t + 1) == RefreshTick(u, n, CommandsOf(y.requests)) by { TicksNext(u, t); }
      var add := Asked(u, y.ctrl);
      assert CommandsOf(y.requests + add) == CommandsOf(y.requests) + CommandsOf(add);
      assert CommandsOf(add) == RefreshTick(u, n, []).1;
      RefreshSchedule(u, t);
      RefreshSchedule(u, t + 1);
      if add != [] { RequestTime(t, RefreshInterval(u)); }
    } else {
      assert w.ctrl.refresh == y.ctrl.refresh && w.ctrl.clk == y.ctrl.clk && w.requests == y.requests;
    }
  }

  lemma TicksNext(u: Setup, t: nat)
    requires u.dram.WellFormed() && RefreshInterval(u) > 0
    ensures Ticks(u, t + 1) == RefreshTick(u, Ticks(u, t).0, Ticks(u, t).1)
  {}

  /** Where the count of whole intervals grows, the time is a whole number of them. */
  lemma RequestTime(t: nat, i: int)
    requires i > 0 && t / i == (if t == 0 then 0 else (t - 1) / i) + 1
    ensures t == (t / i) * i
  {
    DivStep(t, i);
    assert t == (t / i) * i + t % i;
  }

  lemma {:induction false} StepsKeepSchedule(u: Setup, y: System, es: seq<Event>)
    requires SystemOk(u, y) && OnSchedule(u, y)
    ensures Steps(u, y, es).Some? && OnSchedule(u, Steps(u, y, es).value)
  {
    hide SystemOk, Step, OnSchedule;
    StepsKeepOk(u, y, es);
    if es != [] {
      StepsKeepSchedule(u, y, es[..|es| - 1]);
      StepsKeepOk(u, y, es[..|es| - 1]);
      StepKeepsSchedule(u, Steps(u, y, es[..|es| - 1]).value, es[|es| - 1]);
    }
  }

  lemma InitialOnSchedule(u: Setup)
    requires u.dram.WellFormed() && RefreshInterval(u) > 0
    ensures OnSchedule(u, Initial(u))
  {}

  lemma {:induction false} AfterAfter(u: Setup, n: Counter, a: nat, b: nat)
    requires u.dram.WellFormed()
    ensures After(u, After(u, n, a), b) == After(u, n, a + b)
  {
    if b > 0 { AfterAfter(u, n, a, b - 1); }
  }

  lemma {:induction false} AfterInRange(u: Setup, n: Counter, k: nat)
    requires u.dram.WellFormed() && InRange(u, n) && !u.policy.RankSimultaneous?
    ensures InRange(u, After(u, n, k))
  {
    hide Place, IterateNext;
    if k > 0 {
      AfterInRange(u, n, k - 1);
      CounterCounts(u, After(u, n, k - 1));
    }
  }

  /** Interval number a starts no later than t + i - 1, and j intervals later the time is still below t + p * i. */
  lemma WindowHolds(t: nat, i: int, j: nat, p: int)
    requires t >= 1 && i > 0 && j < p
    ensures var a := (t - 1) / i; t <= (a + j + 1) * i < t + p * i
  {
    var a := (t - 1) / i;
    assert t - 1 == a * i + (t - 1) % i;
    Spread(a, j + 1, i);
    Grow(j, i);
    BlockIndex(j, p, i, i - 1);
  }

  lemma Spread(a: int, b: int, c: int)
    ensures (a + b) * c == a * c + b * c
  {}

  lemma CountReaches(m: nat, i: int, clk: nat)
    requires i > 0 && (m + 1) * i < clk
    ensures m < (clk - 1) / i
  {
    var q := (clk - 1) / i;
    assert clk - 1 == q * i + (clk - 1) % i;
    Grow(q, i);
    assert q + 1 <= m + 1 ==> (q + 1) * i <= (m + 1) * i;
  }

  /**
   * In every run under a staggered policy, any period of intervals after the first cycle contains a request for each rank,
   * or for each bank.
   */
  lemma EveryPeriodAsksForEach(u: Setup, es: seq<Event>, t: nat, target: Counter) returns (k: nat)
    requires u.WellFormed() && RefreshInterval(u) > 0 && !u.policy.RankSimultaneous? && t >= 1 && InRange(u, target)
    requires Steps(u, Initial(u), es).Some? && Steps(u, Initial(u), es).value.ctrl.clk >= t + Period(u) * RefreshInterval(u)
    ensures var y := Steps(u, Initial(u), es).value;
      && k < |y.requests| && t <= y.requests[k].clk < t + Period(u) * RefreshInterval(u)
      && y.requests[k].cmd == NextRefresh(u, target)
  {
    hide Steps, Initial, SystemOk, IterateNext, Place, Ticks;
    InitIsOk(u);
    InitialOnSchedule(u);
    StepsKeepSchedule(u, Initial(u), es);
    var y, i, start := Steps(u, Initial(u), es).value, RefreshInterval(u), Counter(0, 0, 0, 0);
    RefreshSchedule(u, y.ctrl.clk);
    var a := (t - 1) / i;
    AfterInRange(u, start, a);
    var j := EachOncePerPeriod(u, After(u, start, a), target);
    AfterAfter(u, start, a, j);
    k := a + j;
    WindowHolds(t, i, j, Period(u));
    CountReaches(k, i, y.ctrl.clk);
    assert CommandsOf(y.requests)[k] == y.requests[k].cmd;
  }

  /** Under rank staggering, any tREFI consecutive cycles after the first contain a request for each rank, in every run. */
  lemma EveryIntervalAsksForEachRank(u: Setup, es: seq<Event>, t: nat, r: int) returns (k: nat)
    requires u.WellFormed() && RefreshInterval(u) > 0 && u.policy.RankStaggered? && t >= 1 && 0 <= r < u.dram.ranks
    requires Steps(u, Initial(u), es).Some? && Steps(u, Initial(u), es).value.ctrl.clk >= t + u.dram.tREFI
    ensures var y := Steps(u, Initial(u), es).value;
      && k < |y.requests| && t <= y.requests[k].clk < t + u.dram.tREFI
      && y.requests[k].cmd.kind.Refresh? && y.requests[k].cmd.rank == r
  {
    hide Steps, Initial;
    RankWithinInterval(u);
    k := EveryPeriodAsksForEach(u, es, t, Counter(0, r, 0, 0));
  }

  // ---- Requests are served in order -------------------------------------------------------------------------------

  /** The refresh commands of a history, in order. */
  ghost function Refreshes(h: seq<Issued>): seq<Command> {
    if h == [] then []
    else Refreshes(h[..|h| - 1]) + (if h[|h| - 1].cmd.IsRefresh() then [h[|h| - 1].cmd] else [])
  }

  lemma RefreshesAppend(h: seq<Issued>, e: Issued)
    ensures Refreshes(h + [e]) == Refreshes(h) + (if e.cmd.IsRefresh() then [e.cmd] else [])
  {
    assert (h + [e])[..|h|] == h;
  }

  /** Refreshes issued, then those still waiting. */
  ghost function Line(s: Ctrl): seq<Command> { Refreshes(s.trace) + s.chan.refreshQ }

  lemma IssueKeepsLine(u: Setup, s: Ctrl, x: Command)
    requires QueuesAskable(u, s.chan, s.cq) && Addressed(u.dram, x) && IssueCommand(u, s, x).Some?
    requires x.IsRefresh() ==> s.chan.refreshQ != [] && x == s.chan.refreshQ[0]
    ensures Line(IssueCommand(u, s, x).value) == Line(s)
  {
    hide IssueCommand, QueuesAskable, Issue;
    IssuedCommand(u, s, x);
    IssuedRefreshQ(u, s, x);
    RefreshesAppend(s.trace, Issued(x, s.clk));
  }

  lemma SecondKeepsLine(u: Setup, s: Ctrl, first: Command)
    requires Inv(u, s) && QueuesAskable(u, s.chan, s.cq) && SecondCommand(u, s, first).Some?
    ensures Line(SecondCommand(u, s, first).value) == Line(s)
  {
    hide BooksOk, TraceOk, RefreshOk, GetCommandToIssue, IssueCommand, Chosen, Sound, Line;
    SearchOf(u, s);
    var f := GetCommandToIssue(u, s.chan, s.cq, s.clk, u.NumQueues());
    if f.1.Go? {
      SearchedKind(u, s.chan, s.cq, s.clk, f);
      if f.1.cmd.IsReadWrite() != first.IsReadWrite() { IssueKeepsLine(u, s.(cq := f.0), f.1.cmd); }
      SameLine(s, s.(cq := f.0));
    }
    SameLine(s, s.(cq := f.0));
  }

  lemma SameLine(s: Ctrl, s': Ctrl)
    requires s'.trace == s.trace && s'.chan == s.chan
    ensures Line(s') == Line(s)
  {}

  /** A cycle's commands serve the head of the line or nobody. */
  lemma StageKeepsLine(u: Setup, s: Ctrl)
    requires Inv(u, s) && Callable(u, s)
    ensures IssueStage(u, s).Some? && Line(IssueStage(u, s).value) == Line(s)
  {
    hide BooksOk, ChannelOk, RefreshOk, GetCommandToIssue, IssueCommand, SecondCommand, FinishRefresh, Sound, Chosen, Line;
    IssueStageKeepsInv(u, s);
    if s.chan.refreshQ != [] {
      IssueRefreshWork(u, s);
      RefreshIsFifo(u, s);
    }
    var f := if s.chan.refreshQ == [] then (s.cq, NotReady) else FinishRefresh(u, s.chan, s.cq, s.clk);
    var m := s.(cq := f.0);
    SameLine(s, m);
    if f.1.NotReady? {
      SearchOf(u, m);
      var g := GetCommandToIssue(u, s.chan, f.0, s.clk, u.NumQueues());
      SameLine(m, m.(cq := g.0));
      if g.1.Go? {
        SearchedNotRefresh(u, m, g);
        IssueSearched(u, m, g.0, g.1.cmd);
        IssueKeepsLine(u, m.(cq := g.0), g.1.cmd);
        if u.dual { SecondKeepsLine(u, IssueCommand(u, m.(cq := g.0), g.1.cmd).value, g.1.cmd); }
      }
    } else {
      IssueKeepsLine(u, m, f.1.cmd);
      if u.dual { SecondKeepsLine(u, IssueCommand(u, m, f.1.cmd).value, f.1.cmd); }
    }
  }

  lemma SearchedNotRefresh(u: Setup, s: Ctrl, f: (CmdQ, Reply))
    requires Inv(u, s) && QueuesAskable(u, s.chan, s.cq) && SearchOk(u, s.chan, s.cq, s.clk, f) && f.1.Go?
    ensures !f.1.cmd.IsRefresh()
  {
    hide BooksOk, TraceOk, RefreshOk, SearchOk;
    SearchedKind(u, s.chan, s.cq, s.clk, f);
  }

  /** Refreshes issued so far, then the waiting ones, are the requests made so far, in order. */
  ghost predicate InOrder(y: System) { Line(y.ctrl) == CommandsOf(y.requests) }

  lemma StepKeepsOrder(u: Setup, y: System, e: Event)
    requires SystemOk(u, y) && InOrder(y)
    ensures Step(u, y, e).Some? && InOrder(Step(u, y, e).value)
  {
    hide Inv, IssueStage, Filed, Owed, EndTick, RefreshTick, Refreshes;
    StepKeepsOk(u, y, e);
    if e.Cycle? {
      var s := y.ctrl;
      var b := BeginTick(u, s);
      TickKeepsInv(u, s);
      BeginKeepsInv(u, s);
      BeginShape(u, s);
      StageKeepsLine(u, b);
      EndShape(u, IssueStage(u, b).value);
      TickAppends(u, s.refresh, s.chan.refreshQ, []);
      var add := Asked(u, s);
      assert CommandsOf(add) == RefreshTick(u, s.refresh, []).1;
      assert CommandsOf(y.requests + add) == CommandsOf(y.requests) + CommandsOf(add);
    }
  }

  lemma {:induction false} StepsKeepOrder(u: Setup, y: System, es: seq<Event>)
    requires SystemOk(u, y) && InOrder(y)
    ensures Steps(u, y, es).Some? && InOrder(Steps(u, y, es).value)
  {
    hide SystemOk, Step, InOrder;
    StepsKeepOk(u, y, es);
    if es != [] {
      StepsKeepOrder(u, y, es[..|es| - 1]);
      StepsKeepOk(u, y, es[..|es| - 1]);
      StepKeepsOrder(u, Steps(u, y, es[..|es| - 1]).value, es[|es| - 1]);
    }
  }

  /** First in, first out: in every run the refreshes issued are exactly the oldest requests, in the order they were made. */
  lemma EveryRunServesInOrder(u: Setup, es: seq<Event>)
    requires u.WellFormed() && RefreshInterval(u) > 0
    ensures Steps(u, Initial(u), es).Some?
    ensures var y := Steps(u, Initial(u), es).value;
      && Refreshes(y.ctrl.trace) + y.ctrl.chan.refreshQ == CommandsOf(y.requests)
      && Refreshes(y.ctrl.trace) == CommandsOf(y.requests)[..|Refreshes(y.ctrl.trace)|]
  {
    InitIsOk(u);
    StepsKeepOrder(u, Initial(u), es);
  }
}
