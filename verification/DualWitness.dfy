/** Six events from the initial state after which a read is lost for ever, for a whole family of configurations. */
module DualWitness {
  import opened Commands
  import opened Timing
  import opened Channel
  import opened ChannelHistory
  import opened ChannelSafety
  import opened Address
  import opened Queueing
  import opened ControllerSafety
  import opened ControllerRuns
  import opened Fairness
  import opened DualIssue

  function Wr(u: Setup, a: nat): Command { TransToCommand(u, true, a) }

  function Rd(u: Setup, b: nat): Command { TransToCommand(u, false, b) }

  /**
   * Two ranks of high-bandwidth memory in dual-command mode, with a command queue per rank and a unified transaction queue; a
   * write on one rank does not delay a read on the other, and a row opened for writing takes one cycle longer than for reading.
   */
  ghost predicate Prone(u: Setup, a: nat, b: nat) {
    && u.WellFormed() && u.dual && u.unified && !u.perBank && u.cmdQueueSize >= 1 && u.transQueueSize >= 2
    && RefreshInterval(u) > 3 && u.dram.ranks == 2 && u.dram.IsHBM() && u.dram.tRCDRD == 1 && u.dram.tRCDWR == 2
    && -3 <= u.dram.WriteToReadO() <= 0
    && Wr(u, a).rank == 0 && Rd(u, b).rank == 1
  }

  /** The write of a and the read of b are offered, then four cycles pass. */
  function Events(a: nat, b: nat): seq<Event> { [Offer(a, true), Offer(b, false), Cycle, Cycle, Cycle, Cycle] }

  lemma Placed(u: Setup, a: nat, b: nat)
    requires Prone(u, a, b)
    ensures u.NumQueues() == 2 && u.QueueIndex(Wr(u, a).At()) == 0 && u.QueueIndex(Rd(u, b).At()) == 1
    ensures u.dram.Holds(Wr(u, a).At()) && u.dram.Holds(Rd(u, b).At()) && Wr(u, a).IsWrite() && Rd(u, b).IsRead()
  {
    hide AddressMapping;
    CommandInRange(u, true, a);
    CommandInRange(u, false, b);
  }

  // ---- Searching two queues of at most one entry --------------------------------------------------------------------

  lemma FirstReadyOne(u: Setup, s: Chan, q: seq<Command>, clk: nat)
    requires Askable(u, s, q) && |q| <= 1
    ensures q == [] ==> FirstReady(u, s, q, clk, 0) == NotReady
    ensures |q| == 1 ==> q[0] in q
    ensures |q| == 1 && ChanReply(u.dram, s, q[0], clk).NotReady? ==> FirstReady(u, s, q, clk, 0) == NotReady
    ensures |q| == 1 && ChanReply(u.dram, s, q[0], clk).Go? && !ChanReply(u.dram, s, q[0], clk).cmd.kind.Precharge? ==>
      FirstReady(u, s, q, clk, 0) == ChanReply(u.dram, s, q[0], clk)
  {
    if |q| == 1 {
      assert q[0] in q;
      assert FirstReady(u, s, q, clk, 1) == NotReady;
    }
  }

  lemma SearchTwo(u: Setup, s: Chan, cq: CmdQ, clk: nat)
    requires QueuesAskable(u, s, cq) && |cq.queues| == 2 && !cq.inRef
    ensures var i := 1 - cq.idx; var x, y := FirstReady(u, s, cq.queues[i], clk, 0), FirstReady(u, s, cq.queues[cq.idx], clk, 0);
      && (x.Go? ==> GetCommandToIssue(u, s, cq, clk, 2) == Dispatch(u, s, cq.(idx := i), x.cmd))
      && (x.NotReady? && y.Go? ==> GetCommandToIssue(u, s, cq, clk, 2) == Dispatch(u, s, cq, y.cmd))
      && (x.NotReady? && y.NotReady? ==> GetCommandToIssue(u, s, cq, clk, 2) == (cq, NotReady))
  {
    hide FirstReady, Dispatch, Askable;
    var next := cq.(idx := NextIdx(cq));
    assert next.(idx := NextIdx(next)) == cq;
    assert GetCommandToIssue(u, s, cq, clk, 0) == (cq, NotReady);
    assert FirstReady(u, s, cq.queues[1 - cq.idx], clk, 0).NotReady? ==>
      GetCommandToIssue(u, s, cq, clk, 2) == GetCommandToIssue(u, s, next, clk, 1);
  }

  // ---- What the banks show ------------------------------------------------------------------------------------------

  /** Closed, and free to be activated. */
  ghost predicate Idle(u: Setup, s: Chan, x: Command) {
    && x.At() in s.banks && s.banks[x.At()].phase.Closed? && s.banks[x.At()].earliest[Index(Activate)] == 0
    && s.banks[x.At()].earliest[Index(x.kind)] == 0 && 0 <= x.rank < |s.fourAw| && s.fourAw[x.rank] == []
  }

  /** Open at x's row, with x free from time t on. */
  ghost predicate Opened(s: Chan, x: Command, t: nat) {
    && x.At() in s.banks && s.banks[x.At()].phase.Open? && s.banks[x.At()].openRow == x.row
    && s.banks[x.At()].earliest[Index(x.kind)] == t
  }

  lemma IdleAnswers(u: Setup, s: Chan, x: Command, clk: nat)
    requires u.dram.WellFormed() && Shaped(u.dram, s) && u.dram.IsHBM() && x.IsReadWrite() && u.dram.Holds(x.At()) && Idle(u, s, x)
    ensures ChanReply(u.dram, s, x, clk) == Go(x.(kind := Activate))
  {}

  lemma OpenedAnswers(u: Setup, s: Chan, x: Command, clk: nat, t: nat)
    requires u.dram.WellFormed() && Shaped(u.dram, s) && x.IsReadWrite() && u.dram.Holds(x.At()) && Opened(s, x, t)
    ensures ChanReply(u.dram, s, x, clk) == if clk >= t then Go(x) else NotReady
  {}

  /** Activating for x frees x once the row is open, and leaves a bank of the other rank as it was. */
  lemma ActivateEffect(u: Setup, s: Chan, x: Command, y: Command, clk: nat)
    requires u.dram.WellFormed() && ChanOk(u.dram, s) && u.dram.IsHBM() && u.dram.tRCDRD >= 0 && u.dram.tRCDWR >= 0
    requires x.IsReadWrite() && u.dram.Holds(x.At()) && u.dram.Holds(y.At()) && x.rank != y.rank
    requires Sound(u.dram, s, x.(kind := Activate), clk)
    ensures Issue(u.dram, s, x.(kind := Activate), clk).Some?
    ensures var w := Issue(u.dram, s, x.(kind := Activate), clk).value;
      && ((s.banks[x.At()].earliest[Index(x.kind)] <= clk ==>
             Opened(w, x, clk + if x.IsRead() then u.dram.tRCDRD else u.dram.tRCDWR))
      && w.refreshQ == s.refreshQ && w.banks[y.At()] == s.banks[y.At()]
      && |w.fourAw| == |s.fourAw| == u.dram.ranks && w.fourAw[y.rank] == s.fourAw[y.rank])
  {
    hide RaiseAll, ListMax, Sound, Issue, Imposed;
    var act := x.(kind := Activate);
    SoundIsAddressed(u.dram, s, act, clk);
    IssueBank(u.dram, s, act, clk, x.At());
    IssueWindows(u.dram, s, act, clk, y.rank);
    RaiseAllIsMax(s.banks[x.At()].earliest, Imposed(u.dram, act, x.At()), clk, x.kind);
    OpenTime(u, x, s.banks[x.At()].earliest[Index(x.kind)], clk);
    OtherRankUntouched(u, s, act, y.At(), clk);
  }

  lemma OpenTime(u: Setup, x: Command, v: nat, clk: nat)
    requires u.dram.IsHBM() && u.dram.tRCDRD >= 0 && u.dram.tRCDWR >= 0 && x.IsReadWrite()
    ensures ListMax(v, Imposed(u.dram, x.(kind := Activate), x.At()), clk, x.kind)
         == Max(v, clk + if x.IsRead() then u.dram.tRCDRD else u.dram.tRCDWR)
  {
    hide ListMax;
    var ds := Imposed(u.dram, x.(kind := Activate), x.At());
    var d := Delay(x.kind, if x.IsRead() then u.dram.tRCDRD else u.dram.tRCDWR);
    assert ds == SameBankDelays(u.dram, Activate);
    assert ds[1] == Delay(Read, u.dram.tRCDRD) && ds[2] == Delay(Write, u.dram.tRCDWR);
    assert ds[3] == Delay(ReadPrecharge, u.dram.tRCDRD) && ds[4] == Delay(WritePrecharge, u.dram.tRCDWR);
    assert d in ds;
    assert forall e :: e in ds && e.next == x.kind ==> e == d;
  }

  lemma OtherRankUntouched(u: Setup, s: Chan, act: Command, l: Loc, clk: nat)
    requires u.dram.WellFormed() && Shaped(u.dram, s) && Addressed(u.dram, act) && Issue(u.dram, s, act, clk).Some?
    requires act.kind.Activate? && u.dram.Holds(l) && l.rank != act.rank
    ensures Issue(u.dram, s, act, clk).value.banks[l] == s.banks[l]
    ensures Issue(u.dram, s, act, clk).value.refreshQ == s.refreshQ
  {
    var v := UpdateState(u.dram, s, act).value;
    assert v.banks[l] == s.banks[l] && Imposed(u.dram, act, l) == [];
    assert Issue(u.dram, s, act, clk).value.banks[l] == v.banks[l].(earliest := RaiseAll(v.banks[l].earliest, [], clk));
  }

  // ---- The four cycles ----------------------------------------------------------------------------------------------

  /** Time t, no refresh asked for, the two command queues and the transaction queue as given. */
  ghost predicate Scene(u: Setup, s: Ctrl, t: nat, idx: int, queues: seq<seq<Command>>, unscheduled: seq<Tok>) {
    && Inv(u, s) && s.clk == t && s.refresh.clk == t && s.chan.refreshQ == [] && !s.cq.inRef
    && s.cq.queues == queues && |queues| == 2 && s.cq.idx == idx && ToksT(s.unifiedQ) == unscheduled
  }

  lemma SceneBegins(u: Setup, s: Ctrl, t: nat, idx: int, queues: seq<seq<Command>>, unscheduled: seq<Tok>)
    requires Scene(u, s, t, idx, queues, unscheduled) && RefreshInterval(u) > 3 && t <= 3
    ensures Callable(u, s) && BeginTick(u, s) == s.(refresh := s.refresh.(clk := t + 1))
    ensures Inv(u, BeginTick(u, s)) && Callable(u, BeginTick(u, s)) && QueuesAskable(u, s.chan, s.cq)
  {
    hide BooksOk, ChannelOk, RefreshOk, QueuesAskable;
    InvCallable(u, s);
    BeginKeepsInv(u, s);
    BeginIsCallable(u, s);
    assert t > 0 ==> t % RefreshInterval(u) != 0 by { SmallMod(t, RefreshInterval(u)); }
  }

  lemma SmallMod(t: nat, i: int)
    requires t < i
    ensures t % i == t
  {}

  /** With no refresh waiting, a cycle's first command is what the search finds. */
  lemma ChoosesSearch(u: Setup, s: Ctrl)
    requires Callable(u, s) && s.chan.refreshQ == []
    ensures Choose(u, s) == GetCommandToIssue(u, s.chan, s.cq, s.clk, u.NumQueues())
  {}

  /** The front transaction moves to its command queue, or nothing happens when there is none. */
  lemma Schedules(u: Setup, s: Ctrl, n: int)
    requires u.WellFormed() && u.unified && |s.cq.queues| == u.NumQueues() == 2 && 0 <= n < 2
    requires s.unifiedQ != [] ==>
      u.QueueIndex(TransToCommand(u, s.unifiedQ[0].isWrite, s.unifiedQ[0].addr).At()) == n && |s.cq.queues[n]| < u.cmdQueueSize
    ensures var e := EndTick(u, s);
      && e.clk == s.clk + 1 && e.chan == s.chan && e.refresh == s.refresh && e.cq == s.cq.(queues := e.cq.queues)
      && (s.unifiedQ == [] ==> e.cq.queues == s.cq.queues && e.unifiedQ == [])
      && (s.unifiedQ != [] ==>
            var x := TransToCommand(u, s.unifiedQ[0].isWrite, s.unifiedQ[0].addr);
            e.unifiedQ == s.unifiedQ[1..] && e.cq.queues == s.cq.queues[n := s.cq.queues[n] + [x]])
  {
    hide TransToCommand, Setup.WellFormed;
  }

  /** A cycle in which no queue has anything. */
  lemma FirstCycle(u: Setup, a: nat, b: nat, s: Ctrl)
    requires Prone(u, a, b) && Scene(u, s, 0, 0, [[], []], [Tok(true, a), Tok(false, b)])
    ensures Callable(u, s) && ClockTick(u, s).Some? && ClockTick(u, s).value.chan == s.chan
    ensures Scene(u, ClockTick(u, s).value, 1, 0, [[Wr(u, a)], []], [Tok(false, b)])
  {
    hide Inv, QueuesAskable, GetCommandToIssue, FirstReady, Setup.NumQueues, Setup.QueueIndex, Setup.WellFormed, TransToCommand,
      Callable, BeginTick, IssueStage, EndTick, Choose, Dispatch, Askable;
    SceneBegins(u, s, 0, 0, [[], []], [Tok(true, a), Tok(false, b)]);
    TickKeepsInv(u, s);
    Placed(u, a, b);
    var m := BeginTick(u, s);
    ChoosesSearch(u, m);
    AskableQueues(u, m.chan, m.cq);
    FirstReadyOne(u, m.chan, [], 0);
    SearchTwo(u, m.chan, m.cq, 0);
    StageIdle(u, m);
    assert ToksT(s.unifiedQ)[0] == Tok(true, a);
    Schedules(u, m, 0);
    assert ToksT(s.unifiedQ[1..]) == ToksT(s.unifiedQ)[1..];
    PushFirst(m.cq.queues, Wr(u, a));
  }

  lemma PushFirst(queues: seq<seq<Command>>, x: Command)
    requires queues == [[], []]
    ensures queues[0 := queues[0] + [x]] == [[x], []]
  {
    assert queues[0] + [x] == [x];
  }

  lemma PlainIssue(u: Setup, s: Ctrl, x: Command)
    requires QueuesAskable(u, s.chan, s.cq) && Addressed(u.dram, x) && !x.IsReadWrite() && IssueCommand(u, s, x).Some?
    ensures var a := IssueCommand(u, s, x).value; a == s.(chan := a.chan, trace := a.trace)
  {
    hide Issue, QueuesAskable;
    PlainAccount(u, s, x);
  }

  /** A stage that activates for x and finds nothing else to issue. */
  lemma ActivatingStage(u: Setup, m: Ctrl, x: Command, y: Command, n: int)
    requires Inv(u, m) && Callable(u, m) && u.dual && u.dram.IsHBM() && u.dram.tRCDRD >= 0 && u.dram.tRCDWR >= 0 && u.NumQueues() == 2
    requires Choose(u, m) == (m.cq.(idx := n), Go(x.(kind := Activate))) && x.IsReadWrite() && u.dram.Holds(x.At())
    requires u.dram.Holds(y.At()) && x.rank != y.rank && Idle(u, m.chan, x)
    ensures var w := Issue(u.dram, m.chan, x.(kind := Activate), m.clk);
      && w.Some? && Opened(w.value, x, m.clk + if x.IsRead() then u.dram.tRCDRD else u.dram.tRCDWR)
      && w.value.banks[y.At()] == m.chan.banks[y.At()] && w.value.refreshQ == m.chan.refreshQ
      && |w.value.fourAw| == |m.chan.fourAw| == u.dram.ranks && w.value.fourAw[y.rank] == m.chan.fourAw[y.rank]
      && QueuesAskable(u, w.value, m.cq.(idx := n))
      && (GetCommandToIssue(u, w.value, m.cq.(idx := n), m.clk, 2) == (m.cq.(idx := n), NotReady) ==>
            IssueStage(u, m).Some? && IssueStage(u, m).value == m.(cq := m.cq.(idx := n), chan := w.value, trace := IssueStage(u, m).value.trace))
  {
    hide BooksOk, TraceOk, RefreshOk, Choose, GetCommandToIssue, Issue, IssueCommand, IssueStage, Sound, QueuesAskable, Setup.NumQueues;
    FirstDebt(u, m, Tok(false, 0));
    AfterFirstIs(u, m);
    var act := x.(kind := Activate);
    PlainIssue(u, m.(cq := m.cq.(idx := n)), act);
    ActivateEffect(u, m.chan, x, y, m.clk);
  }

  lemma SecondCycle(u: Setup, a: nat, b: nat, s: Ctrl)
    requires Prone(u, a, b) && Scene(u, s, 1, 0, [[Wr(u, a)], []], [Tok(false, b)])
    requires Idle(u, s.chan, Wr(u, a)) && Idle(u, s.chan, Rd(u, b))
    ensures Callable(u, s) && ClockTick(u, s).Some?
    ensures Scene(u, ClockTick(u, s).value, 2, 0, [[Wr(u, a)], [Rd(u, b)]], [])
    ensures Opened(ClockTick(u, s).value.chan, Wr(u, a), 3) && Idle(u, ClockTick(u, s).value.chan, Rd(u, b))
  {
    hide Inv, QueuesAskable, GetCommandToIssue, FirstReady, Setup.NumQueues, Setup.QueueIndex, Setup.WellFormed, TransToCommand,
      Callable, BeginTick, IssueStage, EndTick, Choose, Askable, Issue, ChanReply;
    var x, y := Wr(u, a), Rd(u, b);
    SceneBegins(u, s, 1, 0, [[x], []], [Tok(false, b)]);
    TickKeepsInv(u, s);
    Placed(u, a, b);
    var m := BeginTick(u, s);
    ChoosesSearch(u, m);
    AskableQueues(u, m.chan, m.cq);
    FirstReadyOne(u, m.chan, m.cq.queues[1], 1);
    FirstReadyOne(u, m.chan, m.cq.queues[0], 1);
    IdleAnswers(u, m.chan, x, 1);
    SearchTwo(u, m.chan, m.cq, 1);
    ActivatingStage(u, m, x, y, 0);
    var w := Issue(u.dram, m.chan, x.(kind := Activate), 1).value;
    AskableQueues(u, w, m.cq);
    FirstReadyOne(u, w, m.cq.queues[1], 1);
    FirstReadyOne(u, w, m.cq.queues[0], 1);
    OpenedAnswers(u, w, x, 1, 3);
    SearchTwo(u, w, m.cq, 1);
    assert ToksT(s.unifiedQ)[0] == Tok(false, b);
    Schedules(u, IssueStage(u, m).value, 1);
    assert ToksT(s.unifiedQ[1..]) == ToksT(s.unifiedQ)[1..];
    PushSecond(m.cq.queues, x, y);
  }

  lemma ThirdCycle(u: Setup, a: nat, b: nat, s: Ctrl)
    requires Prone(u, a, b) && Scene(u, s, 2, 0, [[Wr(u, a)], [Rd(u, b)]], [])
    requires Opened(s.chan, Wr(u, a), 3) && Idle(u, s.chan, Rd(u, b))
    ensures Callable(u, s) && ClockTick(u, s).Some?
    ensures Scene(u, ClockTick(u, s).value, 3, 1, [[Wr(u, a)], [Rd(u, b)]], [])
    ensures Opened(ClockTick(u, s).value.chan, Wr(u, a), 3) && Opened(ClockTick(u, s).value.chan, Rd(u, b), 3)
  {
    hide Inv, QueuesAskable, GetCommandToIssue, FirstReady, Setup.NumQueues, Setup.QueueIndex, Setup.WellFormed, TransToCommand,
      Callable, BeginTick, IssueStage, EndTick, Choose, Askable, Issue, ChanReply;
    var x, y := Wr(u, a), Rd(u, b);
    SceneBegins(u, s, 2, 0, [[x], [y]], []);
    TickKeepsInv(u, s);
    Placed(u, a, b);
    var m := BeginTick(u, s);
    ChoosesSearch(u, m);
    AskableQueues(u, m.chan, m.cq);
    FirstReadyOne(u, m.chan, m.cq.queues[1], 2);
    IdleAnswers(u, m.chan, y, 2);
    SearchTwo(u, m.chan, m.cq, 2);
    ActivatingStage(u, m, y, x, 1);
    var w := Issue(u.dram, m.chan, y.(kind := Activate), 2).value;
    AskableQueues(u, w, m.cq.(idx := 1));
    FirstReadyOne(u, w, m.cq.queues[1], 2);
    FirstReadyOne(u, w, m.cq.queues[0], 2);
    OpenedAnswers(u, w, x, 2, 3);
    OpenedAnswers(u, w, y, 2, 3);
    SearchTwo(u, w, m.cq.(idx := 1), 2);
    assert |ToksT(s.unifiedQ)| == 0;
    Schedules(u, IssueStage(u, m).value, 1);
  }

  /** Both column commands are ready: the write goes out, and the search for a second command takes the read. */
  lemma FourthCycle(u: Setup, a: nat, b: nat, s: Ctrl)
    requires Prone(u, a, b) && Scene(u, s, 3, 1, [[Wr(u, a)], [Rd(u, b)]], [])
    requires Opened(s.chan, Wr(u, a), 3) && Opened(s.chan, Rd(u, b), 3)
    ensures Callable(u, s) && Callable(u, BeginTick(u, s)) && DropsNow(u, BeginTick(u, s))
    ensures var m := BeginTick(u, s); var (cq, r) := Choose(u, m);
      && r.Go? && r.cmd.IsReadWrite() && AllFollowable(u, m.chan, r.cmd, cq) && TakesColumn(u, m.chan, r.cmd, cq, m.clk, 1, 0)
      && cq.queues == [[], [Rd(u, b)]]
  {
    hide BooksOk, TraceOk, RefreshOk, QueuesAskable, GetCommandToIssue, FirstReady, Setup.NumQueues, Setup.QueueIndex, Setup.WellFormed, TransToCommand,
      Callable, BeginTick, Choose, Askable, Issue, ChanReply, TakesColumn, AllFollowable, Dispatch, Sound;
    var x, y := Wr(u, a), Rd(u, b);
    SceneBegins(u, s, 3, 1, [[x], [y]], []);
    Placed(u, a, b);
    var m := BeginTick(u, s);
    ChoosesSearch(u, m);
    AskableQueues(u, m.chan, m.cq);
    FirstReadyOne(u, m.chan, m.cq.queues[0], 3);
    OpenedAnswers(u, m.chan, x, 3, 3);
    SearchTwo(u, m.chan, m.cq, 3);
    OtherIdx(u, m.chan, m.cq, 0);
    DispatchOnly(u, m.chan, m.cq.(idx := 0), x, y);
    FirstDebt(u, m, Tok(false, 0));
    var cq := Choose(u, m).0;
    EveryFollowable(u, m.chan, x, cq, 3);
    SecondIsTaken(u, m.chan, x, y, cq);
  }

  lemma OtherIdx(u: Setup, s: Chan, cq: CmdQ, i: int)
    requires QueuesAskable(u, s, cq) && 0 <= i < |cq.queues|
    ensures QueuesAskable(u, s, cq.(idx := i))
  {}

  lemma DispatchOnly(u: Setup, s: Chan, cq: CmdQ, x: Command, y: Command)
    requires QueuesAskable(u, s, cq) && Addressed(u.dram, x) && x.IsReadWrite() && u.QueueIndex(x.At()) == 0 && cq.queues == [[x], [y]]
    ensures Dispatch(u, s, cq, x) == (cq.(queues := [[], [y]]), Go(x))
  {
    hide Setup.QueueIndex;
    assert [x][0] == x && [x][1..] == [];
    assert EraseRW([x], x) == Some([]);
    assert cq.queues[0 := []] == [[], [y]];
  }

  lemma SecondIsTaken(u: Setup, s: Chan, x: Command, y: Command, cq: CmdQ)
    requires u.dram.WellFormed() && ChanOk(u.dram, s) && QueuesAskable(u, s, cq) && cq.queues == [[], [y]] && cq.idx == 0 && !cq.inRef
    requires x.IsWrite() && y.IsRead() && x.rank != y.rank && Sound(u.dram, s, x, 3) && u.dram.Holds(y.At()) && Opened(s, y, 3)
    requires -3 <= u.dram.WriteToReadO() <= 0 && AllFollowable(u, s, x, cq)
    ensures TakesColumn(u, s, x, cq, 3, 1, 0)
  {
    hide Sound, Issue, ChanReply, AnswerAfter, Undelayed, Imposed;
    OpenedAnswers(u, s, y, 3, 3);
    SecondColumnIff(u.dram, s, x, y, 3);
    AnswerAfterIs(u.dram, s, x, y, 3);
    assert cq.queues[1] == [y] && Followable(u, s, x, cq.queues[1]);
    assert WillingAfter(u, s, x, cq.queues[1], 3, 0);
  }

  lemma PushSecond(queues: seq<seq<Command>>, x: Command, y: Command)
    requires queues == [[x], []]
    ensures queues[1 := queues[1] + [y]] == [[x], [y]]
  {
    assert queues[1] + [y] == [y];
  }

  lemma AskableQueues(u: Setup, s: Chan, cq: CmdQ)
    requires QueuesAskable(u, s, cq)
    ensures forall n :: 0 <= n < |cq.queues| ==> Askable(u, s, cq.queues[n])
    ensures u.dram.WellFormed() && Shaped(u.dram, s) && |cq.queues| == u.NumQueues()
  {}

  // ---- The run ------------------------------------------------------------------------------------------------------

  lemma StepsOne(u: Setup, y: System, es: seq<Event>, e: Event)
    requires Steps(u, y, es).Some?
    ensures Steps(u, y, es + [e]) == Step(u, Steps(u, y, es).value, e)
  {
    assert (es + [e])[..|es|] == es;
  }

  /** An accepted transaction of an address with nothing pending joins the unified queue and touches nothing else. */
  lemma OfferEffect(u: Setup, y: System, addr: nat, isWrite: bool)
    requires u.unified && |y.ctrl.unifiedQ| < u.transQueueSize
    requires At(y.ctrl.pendingWr, addr) == [] && At(y.ctrl.pendingRd, addr) == []
    ensures var w := Step(u, y, Offer(addr, isWrite));
      && w.Some? && w.value.ctrl.chan == y.ctrl.chan && w.value.ctrl.cq == y.ctrl.cq && w.value.ctrl.refresh == y.ctrl.refresh
      && w.value.ctrl.clk == y.ctrl.clk && ToksT(w.value.ctrl.unifiedQ) == ToksT(y.ctrl.unifiedQ) + [Tok(isWrite, addr)]
      && |w.value.ctrl.unifiedQ| == |y.ctrl.unifiedQ| + 1
      && (forall o :: o != addr ==> At(w.value.ctrl.pendingRd, o) == At(y.ctrl.pendingRd, o) && At(w.value.ctrl.pendingWr, o) == At(y.ctrl.pendingWr, o))
  {
    ToksTAppend(y.ctrl.unifiedQ, Trans(addr, isWrite, y.ctrl.clk, 0));
  }

  /** After the two offers: both transactions wait, no bank has been touched. */
  lemma AfterOffers(u: Setup, a: nat, b: nat)
    requires Prone(u, a, b)
    ensures u.dram.WellFormed()
    ensures var y := Steps(u, Initial(u), [Offer(a, true), Offer(b, false)]);
      && y.Some? && Scene(u, y.value.ctrl, 0, 0, [[], []], [Tok(true, a), Tok(false, b)])
      && Idle(u, y.value.ctrl.chan, Wr(u, a)) && Idle(u, y.value.ctrl.chan, Rd(u, b))
  {
    hide SystemOk, Inv, TransToCommand, Step, InitCtrl, Steps, Setup.WellFormed, Setup.QueueIndex, Setup.NumQueues;
    ProneIsWellFormed(u, a, b);
    Placed(u, a, b);
    DifferentAddresses(u, a, b);
    InitScene(u);
    EveryRunIsOk(u, [Offer(a, true), Offer(b, false)]);
    var y0 := Initial(u);
    var e1, e2 := Offer(a, true), Offer(b, false);
    NoSteps(u, y0);
    StepsOne(u, y0, [], e1);
    assert [] + [e1] == [e1];
    OfferEffect(u, y0, a, true);
    var y1 := Step(u, y0, e1).value;
    StepsOne(u, y0, [e1], e2);
    assert [e1] + [e2] == [e1, e2];
    OfferEffect(u, y1, b, false);
    var y2 := Step(u, y1, e2).value;
    SystemInv(u, y2);
    assert ToksT(y2.ctrl.unifiedQ) == [Tok(true, a), Tok(false, b)];
  }

  lemma SystemInv(u: Setup, y: System)
    requires SystemOk(u, y)
    ensures Inv(u, y.ctrl)
  {}

  lemma NoSteps(u: Setup, y: System)
    ensures Steps(u, y, []) == Some(y)
  {}

  lemma DifferentAddresses(u: Setup, a: nat, b: nat)
    requires Prone(u, a, b)
    ensures a != b
  {
    hide AddressMapping;
  }

  lemma InitScene(u: Setup)
    requires u.WellFormed() && u.NumQueues() == 2
    ensures var s := InitCtrl(u);
      && s.cq.queues == [[], []] && s.cq.idx == 0 && !s.cq.inRef && s.chan.refreshQ == [] && s.clk == s.refresh.clk == 0
      && s.unifiedQ == [] && s.pendingRd == map[] && s.pendingWr == map[]
      && (forall l :: u.dram.Holds(l) ==> l in s.chan.banks && s.chan.banks[l] == FRESH_BANK)
      && |s.chan.fourAw| == u.dram.ranks && forall r :: 0 <= r < u.dram.ranks ==> s.chan.fourAw[r] == []
  {}

  /** After the six events the read of b is owed and nothing waits for it. */
  lemma ReadIsLost(u: Setup, a: nat, b: nat)
    requires Prone(u, a, b)
    ensures u.dram.WellFormed() && Steps(u, Initial(u), Events(a, b)).Some?
    ensures var y := Steps(u, Initial(u), Events(a, b)).value;
      |y.ctrl.cq.queues| == u.NumQueues() && Lost(u, y.ctrl, Tok(false, b)) && SystemOk(u, y)
  {
    hide Inv, Callable, ClockTick, BeginTick, Scene, Idle, Opened, DropsNow, SystemOk, Asked, Lost, InitCtrl, Steps, TakesColumn,
      AllFollowable, Choose;
    AfterOffers(u, a, b);
    var y0 := Initial(u);
    var e2 := [Offer(a, true), Offer(b, false)];
    var s0 := Steps(u, y0, e2).value.ctrl;
    FirstCycle(u, a, b, s0);
    StepsOne(u, y0, e2, Cycle);
    var s1 := ClockTick(u, s0).value;
    SecondCycle(u, a, b, s1);
    StepsOne(u, y0, e2 + [Cycle], Cycle);
    var s2 := ClockTick(u, s1).value;
    ThirdCycle(u, a, b, s2);
    StepsOne(u, y0, e2 + [Cycle] + [Cycle], Cycle);
    var s3 := ClockTick(u, s2).value;
    FourthCycle(u, a, b, s3);
    SceneInv(u, s3, 3, 1, [[Wr(u, a)], [Rd(u, b)]], []);
    TickDrops(u, s3, 1, 0);
    StepsOne(u, y0, e2 + [Cycle] + [Cycle] + [Cycle], Cycle);
    assert e2 + [Cycle] + [Cycle] + [Cycle] + [Cycle] == Events(a, b);
    EveryRunIsOk(u, Events(a, b));
  }

  lemma SceneInv(u: Setup, s: Ctrl, t: nat, idx: int, queues: seq<seq<Command>>, unscheduled: seq<Tok>)
    requires Scene(u, s, t, idx, queues, unscheduled)
    ensures Inv(u, s)
  {}

  /** Every prone configuration loses the read for ever: no continuation issues a read of b or returns every read of b. */
  lemma ReadIsNeverReturned(u: Setup, a: nat, b: nat, more: seq<Event>)
    requires Prone(u, a, b)
    ensures u.dram.WellFormed() && Steps(u, Initial(u), Events(a, b)).Some? && Steps(u, Steps(u, Initial(u), Events(a, b)).value, more).Some?
    ensures var y := Steps(u, Initial(u), Events(a, b)).value; var w := Steps(u, y, more).value;
      NothingIssuedFor(y.ctrl, w.ctrl, Tok(false, b)) && multiset(w.accepted)[Tok(false, b)] > multiset(w.returned)[Tok(false, b)]
  {
    hide Steps, Lost, SystemOk, Initial, Prone;
    ReadIsLost(u, a, b);
    ProneIsWellFormed(u, a, b);
    LostForever(u, Steps(u, Initial(u), Events(a, b)).value, more, Tok(false, b));
  }

  lemma ProneIsWellFormed(u: Setup, a: nat, b: nat)
    requires Prone(u, a, b)
    ensures u.WellFormed() && u.dram.WellFormed() && !DualSafe(u) && RefreshInterval(u) > 0
  {}

  // ---- A configuration ----------------------------------------------------------------------------------------------

  /** The delays within a rank are at least one cycle. */
  ghost predicate RankGapsPositive(c: Config) {
    c.CcdL() > 0 && c.CcdS() > 0 && c.ReadToWrite() > 0 && c.WriteToReadL() > 0 && c.WriteToReadS() > 0
  }

  lemma MapLowBit(lay: Layout, a: nat)
    requires lay == Layout(0, PerField(0, 0, 0, 0, 0, 0), PerField(0, 1, 0, 0, 0, 0)) && a < 2
    ensures AddressMapping(lay, a) == PerField(0, a, 0, 0, 0, 0)
  {
    assert Low(a, 1) == 2 * Low(a / 2, 0) + a % 2;
  }

  lemma SmallPowers()
    ensures Pow2(0) == 1 && Pow2(1) == 2
  {}

  lemma ProneWhen(u: Setup)
    requires u.dram.ranks == 2 && u.dram.bankgroups == u.dram.banksPerGroup == 1 && u.dram.protocol.HBM2?
    requires u.dram.burstCycle == 1 && u.dram.AL == 0 && u.dram.CL == 3 && u.dram.CWL == 1 && u.dram.tRTRS == 1
    requires u.dram.tRCDRD == 1 && u.dram.tRCDWR == 2 && u.dram.tREFI == 1000 && u.policy.RankStaggered?
    requires u.lay == Layout(0, PerField(0, 0, 0, 0, 0, 0), PerField(0, 1, 0, 0, 0, 0))
    requires u.dual && u.unified && !u.perBank && u.cmdQueueSize == u.transQueueSize == 8 && u.dram.tWTR_L == u.dram.tWTR_S == 1
    ensures Prone(u, 0, 1) && u.dram.WriteToReadO() == 0 && RankGapsPositive(u.dram)
  {
    hide AddressMapping, Pow2;
    SmallPowers();
    MapLowBit(u.lay, 0);
    MapLowBit(u.lay, 1);
  }

  /** One of the family: read latency 3, write latency 1, burst and rank switch of one cycle each; the low address bit is the rank. */
  lemma ProneExample() returns (u: Setup)
    ensures Prone(u, 0, 1) && u.dram.WriteToReadO() == 0 && RankGapsPositive(u.dram)
  {
    hide Prone, RankGapsPositive;
    var dram := Config(protocol := HBM2, ranks := 2, bankgroups := 1, banksPerGroup := 1, burstCycle := 1, AL := 0, CL := 3, CWL := 1,
      tCCD_L := 1, tCCD_S := 1, tRTRS := 1, tRTP := 1, tWTR_L := 1, tWTR_S := 1, tWR := 1, tRP := 1,
      tRRD_L := 1, tRRD_S := 1, tRAS := 1, tRCD := 2, tRCDRD := 1, tRCDWR := 2, tRFC := 1, tRFCb := 1,
      tREFI := 1000, tREFIb := 1000, tFAW := 1, t32AW := 1, tPPD := 0, tCKESR := 1, tXS := 1);
    u := Setup(dram, Layout(0, PerField(0, 0, 0, 0, 0, 0), PerField(0, 1, 0, 0, 0, 0)), RankStaggered, false, 8, 8, true, false, true);
    ProneWhen(u);
  }

  /** The positive column delays cannot be dropped: there is a configuration, a run and a read that no continuation answers. */
  lemma DualSafeIsNeeded(more: seq<Event>) returns (u: Setup, y: System)
    ensures u.WellFormed() && RefreshInterval(u) > 0 && !DualSafe(u)
    ensures Steps(u, Initial(u), Events(0, 1)) == Some(y) && Steps(u, y, more).Some?
    ensures var w := Steps(u, y, more).value; multiset(w.accepted)[Tok(false, 1)] > multiset(w.returned)[Tok(false, 1)]
  {
    u := ProneExample();
    ProneIsWellFormed(u, 0, 1);
    ReadIsNeverReturned(u, 0, 1, more);
    y := Steps(u, Initial(u), Events(0, 1)).value;
  }

  /** If the mapping never leaves rank 0, the delays across ranks do not matter. */
  lemma OneRankHasNoHazard(u: Setup)
    requires u.lay.width.ra == 0 && RankGapsPositive(u.dram)
    ensures !Hazard(u)
  {
    hide Pow2;
    SmallPowers();
    forall v, a: nat, w, b: nat ensures !Close(u, v, a, w, b) {
      hide AddressMapping;
      assert AddressMapping(u.lay, a).Of(Ra) < Pow2(u.lay.width.Of(Ra)) && AddressMapping(u.lay, b).Of(Ra) < Pow2(u.lay.width.Of(Ra));
    }
  }

  /** So positive delays are not necessary in every configuration. */
  lemma HazardIsFiner() returns (u: Setup)
    ensures u.WellFormed() && RefreshInterval(u) > 0 && !DualSafe(u) && !Hazard(u)
  {
    hide Prone, Hazard, RankGapsPositive, Pow2;
    SmallPowers();
    u := ProneExample();
    ProneIsWellFormed(u, 0, 1);
    u := u.(lay := Layout(0, PerField(0, 0, 0, 0, 0, 0), PerField(0, 0, 0, 0, 0, 0)));
    OneRankHasNoHazard(u);
  }

  /** Every prone configuration has the hazard. */
  lemma ProneHasHazard(u: Setup, a: nat, b: nat)
    requires Prone(u, a, b)
    ensures Hazard(u)
  {
    hide AddressMapping, TransToCommand;
    Placed(u, a, b);
    assert Close(u, true, a, false, b);
  }
}
