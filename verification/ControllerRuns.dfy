/** Whole controller cycles and whole runs: nothing exits, nothing is lost, writes wait for reads. */
module ControllerRuns {
  import opened Commands
  import opened Timing
  import opened Channel
  import opened ChannelHistory
  import opened Address
  import opened Queueing
  import opened ControllerSafety
  import opened ChannelSafety

  // ---- Scheduling -----------------------------------------------------------------------------------------------

  /** The transaction queue the scheduler looks at. */
  function Source(u: Setup, s: Ctrl, draining: int): seq<Trans> {
    if u.unified then s.unifiedQ else if draining > 0 then s.writeBuf else s.readQ
  }

  /** The front transaction of that queue, moved to its command queue. */
  function Moved(u: Setup, s: Ctrl, draining: int): (r: Ctrl)
    requires u.WellFormed() && |s.cq.queues| == u.NumQueues() && Source(u, s, draining) != []
    ensures |r.cq.queues| == |s.cq.queues|
  {
    var q := Source(u, s, draining);
    var cmd := TransToCommand(u, q[0].isWrite, q[0].addr);
    CommandInRange(u, q[0].isWrite, q[0].addr);
    IndexInRange(u, cmd.At());
    var n := u.QueueIndex(cmd.At());
    var s' := s.(cq := s.cq.(queues := s.cq.queues[n := s.cq.queues[n] + [cmd]]));
    if u.unified then s'.(unifiedQ := q[1..]) else if draining > 0 then s'.(writeBuf := q[1..]) else s'.(readQ := q[1..])
  }

  lemma MoveUnschedules(u: Setup, s: Ctrl, draining: int, k: Tok)
    requires u.WellFormed() && |s.cq.queues| == u.NumQueues() && Source(u, s, draining) != []
    ensures Unscheduled(s, k) ==
      Unscheduled(Moved(u, s, draining), k) + if k == TokT(Source(u, s, draining)[0]) then 1 else 0
  {
    hide Setup.NumQueues, Setup.QueueIndex, AddressMapping;
    ToksTFront(Source(u, s, draining));
  }

  lemma MoveSchedules(u: Setup, s: Ctrl, draining: int, k: Tok)
    requires u.WellFormed() && |s.cq.queues| == u.NumQueues() && Source(u, s, draining) != [] && k.addr >= 0
    ensures Scheduled(u, Moved(u, s, draining).cq, k) ==
      Scheduled(u, s.cq, k) + if k == TokT(Source(u, s, draining)[0]) then 1 else 0
  {
    hide Setup.NumQueues, Setup.QueueIndex, AddressMapping;
    var t := Source(u, s, draining)[0];
    var cmd := TransToCommand(u, t.isWrite, t.addr);
    HomeInRange(u, k.addr);
    HomeInRange(u, t.addr);
    var n := Home(u, t.addr);
    assert Moved(u, s, draining).cq.queues == s.cq.queues[n := s.cq.queues[n] + [cmd]];
    ToksCAppend(s.cq.queues[n], cmd);
    assert TokC(cmd) == TokT(t);
  }

  lemma MoveKeepsBalance(u: Setup, s: Ctrl, draining: int)
    requires BooksOk(u, s) && Source(u, s, draining) != []
    ensures Balanced(u, Moved(u, s, draining))
  {
    hide Unscheduled, Scheduled, OrderOk, ModeOk, Setup.NumQueues, Setup.QueueIndex, AddressMapping;
    var s' := Moved(u, s, draining);
    forall k: Tok | k.addr >= 0 ensures BalancedAt(u, s', k) {
      assert BalancedAt(u, s, k);
      MoveUnschedules(u, s, draining, k);
      MoveSchedules(u, s, draining, k);
    }
  }

  /** The front transaction may be moved: a split-mode write has no pending read of its address. */
  predicate MayMove(u: Setup, s: Ctrl, draining: int)
    requires Source(u, s, draining) != []
  {
    var t := Source(u, s, draining)[0];
    u.unified || !t.isWrite || At(s.pendingRd, t.addr) == []
  }

  lemma FrontWriteIsLast(q: seq<Trans>)
    requires q != [] && q[0].isWrite && ReadsFirst(ToksT(q))
    ensures Tok(false, q[0].addr) !in ToksT(q[1..])
  {
    var ts, rest := ToksT(q), ToksT(q[1..]);
    assert ts[0].write;
    forall j | 0 <= j < |rest| ensures rest[j] != Tok(false, q[0].addr) {
      assert rest[j] == ts[j + 1];
    }
  }

  /** A moved write leaves no read of its address behind in a transaction queue. */
  lemma MovedWriteIsLast(u: Setup, s: Ctrl, draining: int)
    requires BooksOk(u, s) && Source(u, s, draining) != [] && MayMove(u, s, draining)
    requires Source(u, s, draining)[0].isWrite
    ensures var a := Source(u, s, draining)[0].addr;
      && (u.unified ==> Tok(false, a) !in ToksT(s.unifiedQ[1..]))
      && Tok(false, a) !in ToksT(s.readQ)
  {
    hide Setup.NumQueues, Setup.QueueIndex, AddressMapping, ReadsFirst, Scheduled;
    var a := Source(u, s, draining)[0].addr;
    if u.unified {
      FrontWriteIsLast(s.unifiedQ);
    } else {
      assert BalancedAt(u, s, Tok(false, a));
    }
  }

  lemma MoveKeepsQueues(u: Setup, s: Ctrl, draining: int)
    requires BooksOk(u, s) && Source(u, s, draining) != []
    ensures QueuesOk(u, Moved(u, s, draining).cq)
  {
    hide Balanced, OrderOk, Setup.NumQueues, Setup.QueueIndex, AddressMapping;
  }

  lemma MoveKeepsOrder(u: Setup, s: Ctrl, draining: int)
    requires BooksOk(u, s) && Source(u, s, draining) != [] && MayMove(u, s, draining)
    ensures OrderOk(u, Moved(u, s, draining))
  {
    hide Balanced, AddressMapping, Setup.NumQueues, Setup.QueueIndex, Scheduled;
    var q, s' := Source(u, s, draining), Moved(u, s, draining);
    var t := q[0];
    var cmd := TransToCommand(u, t.isWrite, t.addr);
    HomeInRange(u, t.addr);
    var n := Home(u, t.addr);
    ToksTFront(q);
    assert TokT(t) in ToksT(q);
    ToksCAppend(s.cq.queues[n], cmd);
    if t.isWrite {
      MovedWriteIsLast(u, s, draining);
    }
    ReadsFirstAppend(ToksC(s.cq.queues[n]), TokC(cmd));
    ReadsFirstTail(ToksT(s.unifiedQ), ToksT(s'.unifiedQ));
    assert forall k :: k in ToksT(s'.unifiedQ) ==> k in ToksT(s.unifiedQ);
    assert forall k :: k in ToksT(s'.readQ) ==> k in ToksT(s.readQ);
    assert s'.cq.queues == s.cq.queues[n := s.cq.queues[n] + [cmd]];
  }

  lemma ReadsFirstTail(a: seq<Tok>, b: seq<Tok>)
    requires ReadsFirst(a) && (b == a || (a != [] && b == a[1..]))
    ensures ReadsFirst(b)
  {
    if b != a { assert forall i :: 0 <= i < |b| ==> b[i] == a[i + 1]; }
  }

  lemma MoveKeepsBooks(u: Setup, s: Ctrl, draining: int, left: int)
    requires BooksOk(u, s) && Source(u, s, draining) != [] && MayMove(u, s, draining)
    requires 0 <= draining <= |s.writeBuf| && (u.unified ==> draining == 0)
    requires left == if !u.unified && Source(u, s, draining)[0].isWrite then draining - 1 else draining
    ensures BooksOk(u, Moved(u, s, draining).(draining := left))
  {
    hide Balanced, OrderOk, Setup.NumQueues, Setup.QueueIndex, AddressMapping;
    MoveKeepsBalance(u, s, draining);
    MoveKeepsQueues(u, s, draining);
    MoveKeepsOrder(u, s, draining);
    var m := Moved(u, s, draining);
    BooksFields(u, m, m.(draining := left));
  }

  /** Balance and order do not look at the drain counter. */
  lemma BooksFields(u: Setup, m: Ctrl, m': Ctrl)
    requires u.WellFormed() && QueuesOk(u, m.cq) && Balanced(u, m) && OrderOk(u, m)
    requires m' == m.(draining := m'.draining)
    ensures QueuesOk(u, m'.cq) && Balanced(u, m') && OrderOk(u, m')
  {
    forall t: Tok | t.addr >= 0 ensures BalancedAt(u, m', t) {
      assert BalancedAt(u, m, t);
    }
  }

  lemma DrainKeepsBooks(u: Setup, s: Ctrl, d: int)
    requires BooksOk(u, s) && 0 <= d <= |s.writeBuf|
    ensures BooksOk(u, s.(draining := d))
  {
    hide Balanced, OrderOk, QueuesOk;
    BooksFields(u, s, s.(draining := d));
  }

  /** Scheduling changes the queues by one move at most. */
  lemma ScheduleKeepsBooks(u: Setup, s: Ctrl)
    requires BooksOk(u, s) && |s.cq.queues| == u.NumQueues()
    ensures BooksOk(u, ScheduleTransaction(u, s))
  {
    hide Balanced, OrderOk, QueuesOk, Setup.NumQueues, Setup.QueueIndex, AddressMapping, QueueEmpty;
    var s' := ScheduleTransaction(u, s);
    var d := if s.draining == 0 && !u.unified &&
       (|s.writeBuf| >= u.transQueueSize || (|s.writeBuf| > 8 && QueueEmpty(s.cq))) then |s.writeBuf| else s.draining;
    if s' == s.(draining := s'.draining) {
      DrainKeepsBooks(u, s, s'.draining);
    } else {
      MoveKeepsBooks(u, s, d, s'.draining);
    }
  }

  lemma EndKeepsInv(u: Setup, s: Ctrl)
    requires Inv(u, s) && |s.cq.queues| == u.NumQueues()
    ensures Inv(u, EndTick(u, s))
  {
    hide Balanced, OrderOk, ModeOk, Legal, Replay, ChanOk, ScheduleTransaction, RefIndices;
    ScheduleKeepsBooks(u, s);
    var m := ScheduleTransaction(u, s);
    ScheduleShape(u, s);
    BooksIgnoreRest(u, m, EndTick(u, s));
  }

  lemma ScheduleShape(u: Setup, s: Ctrl)
    requires u.WellFormed() && |s.cq.queues| == u.NumQueues()
    ensures var m := ScheduleTransaction(u, s);
      && m == s.(cq := s.cq.(queues := m.cq.queues), draining := m.draining, unifiedQ := m.unifiedQ, readQ := m.readQ,
                 writeBuf := m.writeBuf)
  {
    hide Setup.NumQueues, Setup.QueueIndex, AddressMapping, QueueEmpty;
  }

  // ---- Dual issue ---------------------------------------------------------------------------------------------

  predicate IsColumn(k: Kind) { k.Read? || k.ReadPrecharge? || k.Write? || k.WritePrecharge? }

  /** No bank can take a column command at this time. */
  ghost predicate ColumnsHeld(s: Chan, clk: nat) {
    forall l, k :: l in s.banks && IsColumn(k) ==> !s.banks[l].phase.Open? || clk < s.banks[l].earliest[Index(k)]
  }

  /** A column command imposes a positive delay on every column command of every other bank, and of its own unless it closes it. */
  lemma ColumnImposes(c: Config, x: Command, l: Loc, k: Kind) returns (d: Delay)
    requires ColumnGapsPositive(c) && c.Holds(l) && c.Holds(x.At()) && x.IsReadWrite() && IsColumn(k) && !Closes(x, l)
    ensures d in Imposed(c, x, l) && d.next == k && d.gap > 0
  {
    var read := if x.IsRead()
      then (match ScopeOf(x.At(), l) case OtherRanks => c.ReadToReadO() case OtherGroupsSameRank => c.CcdS() case _ => c.CcdL())
      else (match ScopeOf(x.At(), l) case OtherRanks => c.WriteToReadO() case OtherGroupsSameRank => c.WriteToReadS() case _ => c.WriteToReadL());
    var write := if x.IsRead()
      then (match ScopeOf(x.At(), l) case OtherRanks => c.ReadToWriteO() case _ => c.ReadToWrite())
      else (match ScopeOf(x.At(), l) case OtherRanks => c.WriteToWriteO() case OtherGroupsSameRank => c.CcdS() case _ => c.CcdL());
    var ds := Imposed(c, x, l);
    assert ColumnDelays(read, write) <= ds;
    d := if k.Read? then ds[0] else if k.Write? then ds[1] else if k.ReadPrecharge? then ds[2] else ds[3];
  }

  lemma ColumnsAreHeld(c: Config, s: Chan, x: Command, clk: nat)
    requires c.WellFormed() && ColumnGapsPositive(c) && ChanOk(c, s) && Sound(c, s, x, clk) && x.IsReadWrite()
    ensures Issue(c, s, x, clk).Some? && ColumnsHeld(Issue(c, s, x, clk).value, clk)
  {
    hide Imposed, RaiseAll, Sound;
    SoundIsAddressed(c, s, x, clk);
    IssueKeepsOk(c, s, x, clk);
    var s' := Issue(c, s, x, clk).value;
    forall l, k | l in s'.banks && IsColumn(k)
      ensures !s'.banks[l].phase.Open? || clk < s'.banks[l].earliest[Index(k)]
    {
      assert c.Holds(l);
      IssuePhase(c, s, x, clk, l);
      if !Closes(x, l) {
        var d := ColumnImposes(c, x, l, k);
        IssueRaises(c, s, x, clk, l);
        RaiseAllIsMax(s.banks[l].earliest, Imposed(c, x, l), clk, k);
      }
    }
  }

  lemma SoundIsAddressed(c: Config, s: Chan, x: Command, clk: nat)
    requires c.WellFormed() && Shaped(c, s) && Sound(c, s, x, clk)
    ensures Addressed(c, x)
  {
  }

  // ---- One cycle ------------------------------------------------------------------------------------------------

  /** Each write issued on the way from s to s' found no read of its address pending in s. */
  ghost predicate WritesAlone(s: Ctrl, s': Ctrl) {
    && s.trace <= s'.trace
    && forall i :: |s.trace| <= i < |s'.trace| && s'.trace[i].cmd.IsWrite() ==>
         At(s.pendingRd, s'.trace[i].cmd.hexAddr) == []
  }

  lemma SearchedIdle(u: Setup, s: Ctrl, cq': CmdQ)
    requires Inv(u, s) && cq' == s.cq.(idx := cq'.idx) && 0 <= cq'.idx < |s.cq.queues|
    ensures Inv(u, s.(cq := cq'))
  {
    hide Balanced, OrderOk, ModeOk, Legal, Replay, ChanOk, RefIndices;
    BooksIgnoreRest(u, s, s.(cq := cq'));
  }

  lemma TakenIdle(u: Setup, s: Ctrl, cq': CmdQ, x: Command)
    requires Inv(u, s) && QueuesAskable(u, s.chan, s.cq) && SearchOk(u, s.chan, s.cq, s.clk, (cq', Go(x))) && !x.IsReadWrite()
    ensures Inv(u, s.(cq := cq'))
  {
    hide Chosen, Sound;
    var n, i :| 0 <= n < |s.cq.queues| && !Blocked(s.cq, n) && Chosen(u, s.chan, s.cq.queues[n], s.clk, x, i) && Taken(s.cq, cq', x, n);
    SearchedIdle(u, s, cq');
  }

  lemma HeldMeansNoColumn(c: Config, s: Chan, x: Command, clk: nat)
    requires c.WellFormed() && Shaped(c, s) && Sound(c, s, x, clk) && ColumnsHeld(s, clk)
    ensures !x.IsReadWrite()
  {
    assert x.Touches(x.At()) || x.IsRankCmd();
    assert IsColumn(x.kind) <==> x.IsReadWrite();
  }

  /** A column command that leaves its queue unissued: what waits shrinks, what is owed does not. */
  lemma DropKeepsInv(u: Setup, s: Ctrl, cq': CmdQ, x: Command)
    requires Inv(u, s) && !DualSafe(u) && QueuesAskable(u, s.chan, s.cq)
    requires SearchOk(u, s.chan, s.cq, s.clk, (cq', Go(x))) && x.IsReadWrite()
    ensures Inv(u, s.(cq := cq'))
  {
    hide Chosen, Sound, TraceOk, ChanOk, RefIndices, Waiting, Owing, OrderOk, CmdOk;
    var n, i :| 0 <= n < |s.cq.queues| && !Blocked(s.cq, n) && Chosen(u, s.chan, s.cq.queues[n], s.clk, x, i) && Taken(s.cq, cq', x, n);
    TakenKeepsQueues(u, s, cq', x, n);
    var m := s.(cq := cq');
    OwingIgnores(s, m);
    forall t: Tok | t.addr >= 0 ensures BalancedAt(u, m, t) {
      assert BalancedAt(u, s, t);
      WaitingAfterTake(u, s, cq', x, n, t);
    }
    SameChannel(u, s, m);
  }

  lemma OwingIgnores(s: Ctrl, s': Ctrl)
    requires s'.pendingRd == s.pendingRd && s'.pendingWr == s.pendingWr
    ensures forall k :: Owing(s', k) == Owing(s, k)
  {}

  lemma SameChannel(u: Setup, s: Ctrl, s': Ctrl)
    requires ChannelOk(u, s) && s'.chan == s.chan && s'.trace == s.trace && s'.clk == s.clk
    ensures ChannelOk(u, s')
  {}

  /** The second search of a cycle never exits; with column commands held it loses nothing. */
  lemma SecondKeepsInv(u: Setup, s: Ctrl, first: Command)
    requires Inv(u, s) && QueuesAskable(u, s.chan, s.cq)
    requires DualSafe(u) && first.IsReadWrite() ==> ColumnsHeld(s.chan, s.clk)
    ensures var r := SecondCommand(u, s, first);
      && r.Some? && Inv(u, r.value) && s.trace <= r.value.trace
      && (first.IsReadWrite() ==> forall i :: |s.trace| <= i < |r.value.trace| ==> !r.value.trace[i].cmd.IsReadWrite())
      && (DualSafe(u) ==> WritesAlone(s, r.value))
  {
    hide Balanced, OrderOk, ModeOk, QueuesOk, Legal, Replay, RefIndices, GetCommandToIssue, Issue, Account, Chosen;
    SearchIsOk(u, s.chan, s.cq, s.clk, u.NumQueues());
    var r := GetCommandToIssue(u, s.chan, s.cq, s.clk, u.NumQueues());
    if r.1.NotReady? {
      SearchedIdle(u, s, r.0);
    } else {
      var x := r.1.cmd;
      if DualSafe(u) && first.IsReadWrite() { HeldMeansNoColumn(u.dram, s.chan, x, s.clk); }
      if x.IsReadWrite() == first.IsReadWrite() {
        if x.IsReadWrite() { DropKeepsInv(u, s, r.0, x); } else { TakenIdle(u, s, r.0, x); }
      } else {
        IssueSearched(u, s, r.0, x);
      }
    }
  }

  lemma IssuedCommand(u: Setup, s: Ctrl, x: Command)
    requires QueuesAskable(u, s.chan, s.cq) && Addressed(u.dram, x) && IssueCommand(u, s, x).Some?
    ensures var s' := IssueCommand(u, s, x).value;
      && s'.trace == s.trace + [Issued(x, s.clk)] && s'.clk == s.clk
      && Some(s'.chan) == Issue(u.dram, s.chan, x, s.clk)
      && (!x.IsReadWrite() ==> s'.pendingRd == s.pendingRd)
  {
  }

  /** Both commands of a cycle, in terms of the state the first one leaves. */
  lemma AfterFirst(u: Setup, s: Ctrl, cq: CmdQ, x: Command)
    requires Inv(u, s) && QueuesAskable(u, s.chan, cq) && Sound(u.dram, s.chan, x, s.clk)
    requires IssueCommand(u, s.(cq := cq), x).Some? && Inv(u, IssueCommand(u, s.(cq := cq), x).value)
    requires DualSafe(u) && x.IsWrite() ==> At(s.pendingRd, x.hexAddr) == []
    ensures var a := IssueCommand(u, s.(cq := cq), x).value;
      var r := if u.dual then SecondCommand(u, a, x) else Some(a);
      r.Some? && Inv(u, r.value) && s.trace <= r.value.trace && (DualSafe(u) ==> WritesAlone(s, r.value))
  {
    hide Balanced, OrderOk, ModeOk, Legal, Replay, RefIndices, GetCommandToIssue, Issue, IssueCommand, SecondCommand, Account, RefreshOk;
    IssuedCommand(u, s.(cq := cq), x);
    var a := IssueCommand(u, s.(cq := cq), x).value;
    if u.dual {
      if DualSafe(u) && x.IsReadWrite() { ColumnsAreHeld(u.dram, s.chan, x, s.clk); }
      SecondKeepsInv(u, a, x);
    }
  }

  /** Issuing never exits and keeps the invariant; writes are issued only when no read of their address is pending. */
  lemma IssueStageKeepsInv(u: Setup, s: Ctrl)
    requires Inv(u, s) && Callable(u, s)
    ensures var r := IssueStage(u, s);
      r.Some? && Inv(u, r.value) && s.trace <= r.value.trace && (DualSafe(u) ==> WritesAlone(s, r.value))
  {
    hide Balanced, OrderOk, ModeOk, Legal, Replay, RefIndices, GetCommandToIssue, Issue, IssueCommand, SecondCommand, Account, Chosen, FinishRefresh, Sound;
    if s.chan.refreshQ != [] { IssueRefreshWork(u, s); }
    var f := if s.chan.refreshQ == [] then (s.cq, NotReady) else FinishRefresh(u, s.chan, s.cq, s.clk);
    if f.1.NotReady? {
      var m := s.(cq := f.0);
      SearchIsOk(u, s.chan, f.0, s.clk, u.NumQueues());
      var r := GetCommandToIssue(u, s.chan, f.0, s.clk, u.NumQueues());
      if r.1.NotReady? {
        SearchedIdle(u, m, r.0);
      } else {
        IssueSearched(u, m, r.0, r.1.cmd);
        AfterFirst(u, s, r.0, r.1.cmd);
      }
    } else {
      RefreshWorkIsNoWrite(u, s);
      AfterFirst(u, s, f.0, f.1.cmd);
    }
  }

  lemma RefreshWorkIsNoWrite(u: Setup, s: Ctrl)
    requires Inv(u, s) && Callable(u, s) && s.chan.refreshQ != []
    ensures var f := FinishRefresh(u, s.chan, s.cq, s.clk); f.1.Go? ==> !f.1.cmd.IsReadWrite()
  {
    assert RefreshKind(u, s.chan.refreshQ[0]);
    RefreshReply(u.dram, s.chan, s.chan.refreshQ[0], s.clk);
  }

  /** A whole cycle never exits and keeps the invariant. */
  lemma TickKeepsInv(u: Setup, s: Ctrl)
    requires Inv(u, s)
    ensures Callable(u, s) && ClockTick(u, s).Some? && Inv(u, ClockTick(u, s).value) && s.trace <= ClockTick(u, s).value.trace
    ensures DualSafe(u) ==> WritesAlone(s, ClockTick(u, s).value)
  {
    hide Inv, BeginTick, IssueStage, EndTick;
    InvCallable(u, s);
    BeginKeepsInv(u, s);
    var b := BeginTick(u, s);
    BeginShape(u, s);
    IssueStageKeepsInv(u, b);
    var m := IssueStage(u, b).value;
    EndKeepsInv(u, m);
    EndShape(u, m);
  }

  lemma BeginShape(u: Setup, s: Ctrl)
    requires Callable(u, s)
    ensures var b := BeginTick(u, s); b.trace == s.trace && b.pendingRd == s.pendingRd && b.clk == s.clk && b.cq == s.cq
    ensures BeginTick(u, s).returnQ == s.returnQ
  {
  }

  lemma EndShape(u: Setup, s: Ctrl)
    requires u.WellFormed() && |s.cq.queues| == u.NumQueues()
    ensures var e := EndTick(u, s);
      e.trace == s.trace && e.pendingRd == s.pendingRd && e.returnQ == s.returnQ && e.chan == s.chan && e.clk == s.clk + 1
  {
    hide ScheduleTransaction;
    ScheduleShape(u, s);
  }

  // ---- The ledger -----------------------------------------------------------------------------------------------

  /** Pending reads are filed under their own address. */
  ghost predicate Filed(m: Pending) {
    forall a, t :: a in m && t in m[a] ==> TokT(t) == Tok(false, a)
  }

  /** Completions still owed: waiting to be returned, or reads waiting for their data. */
  ghost function Owed(s: Ctrl, k: Tok): nat {
    multiset(ToksT(s.returnQ))[k] + if k.write then 0 else |At(s.pendingRd, k.addr)|
  }

  lemma {:induction false} CompletedTokens(ts: seq<Trans>, at: nat)
    ensures ToksT(Completed(ts, at)) == ToksT(ts)
  {
    if ts != [] {
      CompletedTokens(ts[1..], at);
      ToksTFront(ts);
      ToksTFront(Completed(ts, at));
      assert Completed(ts, at)[1..] == Completed(ts[1..], at);
    }
  }

  lemma {:induction false} SameTokens(ts: seq<Tok>, k: Tok, j: Tok)
    requires forall i :: 0 <= i < |ts| ==> ts[i] == k
    ensures multiset(ts)[j] == if j == k then |ts| else 0
  {
    if ts != [] {
      SameTokens(ts[..|ts| - 1], k, j);
      assert ts == ts[..|ts| - 1] + [ts[|ts| - 1]];
    }
  }

  lemma AccountKeepsOwed(u: Setup, s: Ctrl, x: Command, k: Tok)
    requires Filed(s.pendingRd) && Account(u, s, x).Some?
    ensures Owed(Account(u, s, x).value, k) == Owed(s, k) && Filed(Account(u, s, x).value.pendingRd)
  {
    if x.IsRead() {
      var ts := At(s.pendingRd, x.hexAddr);
      CompletedTokens(ts, Later(s.clk, u.dram.ReadDelay()));
      var done := Completed(ts, Later(s.clk, u.dram.ReadDelay()));
      assert ToksT(s.returnQ + done) == ToksT(s.returnQ) + ToksT(done);
      forall i | 0 <= i < |ts| ensures ToksT(ts)[i] == Tok(false, x.hexAddr) { assert ts[i] in ts; }
      SameTokens(ToksT(ts), Tok(false, x.hexAddr), k);
    }
  }

  lemma IssueKeepsOwed(u: Setup, s: Ctrl, x: Command, k: Tok)
    requires QueuesAskable(u, s.chan, s.cq) && Addressed(u.dram, x) && Filed(s.pendingRd) && IssueCommand(u, s, x).Some?
    ensures Owed(IssueCommand(u, s, x).value, k) == Owed(s, k) && Filed(IssueCommand(u, s, x).value.pendingRd)
  {
    hide Issue, Filed;
    AccountKeepsOwed(u, s, x, k);
  }

  lemma IssueStageKeepsOwed(u: Setup, s: Ctrl, k: Tok)
    requires Callable(u, s) && Filed(s.pendingRd) && IssueStage(u, s).Some?
    ensures Owed(IssueStage(u, s).value, k) == Owed(s, k) && Filed(IssueStage(u, s).value.pendingRd)
  {
    hide Choose, IssueCommand, Filed, GetCommandToIssue, QueuesAskable;
    var c := Choose(u, s);
    var m := s.(cq := c.0);
    if c.1.Go? {
      IssueKeepsOwed(u, m, c.1.cmd, k);
      var a := IssueCommand(u, m, c.1.cmd).value;
      if u.dual {
        var r := GetCommandToIssue(u, a.chan, a.cq, a.clk, u.NumQueues());
        if r.1.Go? && r.1.cmd.IsReadWrite() != c.1.cmd.IsReadWrite() {
          IssueKeepsOwed(u, a.(cq := r.0), r.1.cmd, k);
        }
      }
    }
  }

  /** A cycle turns pending reads into completions one for one. */
  lemma TickKeepsOwed(u: Setup, s: Ctrl, k: Tok)
    requires Callable(u, s) && Filed(s.pendingRd) && ClockTick(u, s).Some?
    ensures Owed(ClockTick(u, s).value, k) == Owed(s, k) && Filed(ClockTick(u, s).value.pendingRd)
  {
    hide IssueStage, EndTick, BeginTick, Filed;
    var b := BeginTick(u, s);
    BeginShape(u, s);
    IssueStageKeepsOwed(u, b, k);
    EndShape(u, IssueStage(u, b).value);
  }

  /** Accepting a transaction owes exactly one completion of it. */
  lemma AddOwesOne(u: Setup, s: Ctrl, addr: nat, isWrite: bool, k: Tok)
    requires Filed(s.pendingRd)
    ensures var s' := AddTransaction(u, s, addr, isWrite);
      Owed(s', k) == Owed(s, k) + (if k == Tok(isWrite, addr) then 1 else 0) && Filed(s'.pendingRd)
  {
    hide ToksT, Filed;
    var t := Trans(addr, isWrite, s.clk, 0);
    ToksTAppend(s.returnQ, t.(complete := s.clk + 1));
    InsertFiled(s.pendingRd, t);
  }

  lemma InsertFiled(m: Pending, t: Trans)
    requires Filed(m)
    ensures !t.isWrite ==> Filed(Insert(m, t))
    ensures forall a :: |At(Insert(m, t), a)| == |At(m, a)| + if a == t.addr then 1 else 0
  {}

  /** Returning a transaction pays exactly one. */
  lemma ReturnPaysOne(s: Ctrl, clk: nat, k: Tok)
    ensures var (s', t) := ReturnDoneTrans(s, clk);
      && Owed(s, k) == Owed(s', k) + (if t.Some? && k == TokT(t.value) then 1 else 0)
      && s' == s.(returnQ := s'.returnQ)
      && (t.Some? ==> t.value.complete <= clk)
  {
    var i := FirstDone(s.returnQ, clk);
    if i < |s.returnQ| { TokensWithout(s.returnQ, i); }
  }

  lemma TokensWithout(q: seq<Trans>, i: nat)
    requires i < |q|
    ensures multiset(ToksT(q)) == multiset(ToksT(q[..i] + q[i + 1..])) + multiset{TokT(q[i])}
  {
    assert ToksT(q) == ToksT(q[..i]) + [TokT(q[i])] + ToksT(q[i + 1..]);
    assert ToksT(q[..i] + q[i + 1..]) == ToksT(q[..i]) + ToksT(q[i + 1..]);
  }

  // ---- Runs -------------------------------------------------------------------------------------------------------

  /** What the outside does to a controller: offer a transaction, let a cycle pass, collect a completion. */
  datatype Event = Offer(addr: nat, isWrite: bool) | Cycle | Collect(clk: nat)

  /** A transaction and the time it was given back. */
  datatype Handed = Handed(trans: Trans, clk: nat)

  /**
   * A controller together with what it has accepted, what it has given back, the reads it answered from a pending write, and the
   * refreshes its counter asked for.
   */
  datatype System = System(ctrl: Ctrl, accepted: seq<Tok>, returned: seq<Tok>, requests: seq<Issued>,
                           handed: seq<Handed>, forwarded: seq<Trans>)

  /** What a cycle's refresh tick appends to the list of requests, with the time. */
  ghost function Asked(u: Setup, s: Ctrl): seq<Issued>
    requires Callable(u, s)
  {
    var q := RefreshTick(u, s.refresh, s.chan.refreshQ).1[|s.chan.refreshQ|..];
    seq(|q|, i requires 0 <= i < |q| => Issued(q[i], s.clk))
  }

  /** The answer to a read whose address has a pending write: it has its data in the next cycle. */
  ghost function Answered(s: Ctrl, addr: nat, isWrite: bool): seq<Trans> {
    if !isWrite && At(s.pendingWr, addr) != [] then [Trans(addr, false, s.clk, s.clk + 1)] else []
  }

  /** One event; None where the program exits. An offer is taken only when there is room. */
  ghost function Step(u: Setup, y: System, e: Event): Option<System> {
    match e
    case Offer(addr, isWrite) =>
      if WillAcceptTransaction(u, y.ctrl, isWrite)
      then Some(y.(ctrl := AddTransaction(u, y.ctrl, addr, isWrite), accepted := y.accepted + [Tok(isWrite, addr)],
                   forwarded := y.forwarded + Answered(y.ctrl, addr, isWrite)))
      else Some(y)
    case Cycle =>
      if !Callable(u, y.ctrl) then None
      else
        var r := ClockTick(u, y.ctrl);
        if r.None? then None else Some(y.(ctrl := r.value, requests := y.requests + Asked(u, y.ctrl)))
    case Collect(clk) =>
      var (s', t) := ReturnDoneTrans(y.ctrl, clk);
      Some(y.(ctrl := s', returned := if t.Some? then y.returned + [TokT(t.value)] else y.returned,
              handed := if t.Some? then y.handed + [Handed(t.value, clk)] else y.handed))
  }

  ghost function Steps(u: Setup, y: System, es: seq<Event>): Option<System> {
    if es == [] then Some(y)
    else
      var p := Steps(u, y, es[..|es| - 1]);
      if p.None? then None else Step(u, p.value, es[|es| - 1])
  }

  function Initial(u: Setup): System
    requires u.dram.WellFormed()
  {
    System(InitCtrl(u), [], [], [], [], [])
  }

  /** The invariant of whole systems: accepted is owed plus returned, for every address and direction. */
  ghost predicate SystemOk(u: Setup, y: System) {
    && Inv(u, y.ctrl) && Filed(y.ctrl.pendingRd)
    && forall k: Tok :: multiset(y.accepted)[k] == Owed(y.ctrl, k) + multiset(y.returned)[k]
  }

  lemma StepKeepsOk(u: Setup, y: System, e: Event)
    requires SystemOk(u, y)
    ensures Step(u, y, e).Some? && SystemOk(u, Step(u, y, e).value)
  {
    hide Inv, Filed, ClockTick, AddTransaction, Owed, ReturnDoneTrans, Callable, Asked;
    match e
    case Offer(addr, isWrite) =>
      AddKeepsInv(u, y.ctrl, addr, isWrite);
      AddOwesOne(u, y.ctrl, addr, isWrite, Tok(isWrite, addr));
      forall k: Tok { AddOwesOne(u, y.ctrl, addr, isWrite, k); }
    case Cycle =>
      TickKeepsInv(u, y.ctrl);
      TickKeepsOwed(u, y.ctrl, Tok(false, 0));
      forall k: Tok { TickKeepsOwed(u, y.ctrl, k); }
    case Collect(clk) =>
      ReturnPaysOne(y.ctrl, clk, Tok(false, 0));
      forall k: Tok { ReturnPaysOne(y.ctrl, clk, k); }
      ReturnKeepsInv(u, y.ctrl, clk);
  }

  lemma ReturnKeepsInv(u: Setup, s: Ctrl, clk: nat)
    requires Inv(u, s)
    ensures Inv(u, ReturnDoneTrans(s, clk).0)
  {
    hide Balanced, OrderOk, ModeOk, Legal, Replay, ChanOk, RefIndices;
    BooksIgnoreRest(u, s, ReturnDoneTrans(s, clk).0);
  }

  lemma InitIsOk(u: Setup)
    requires u.WellFormed() && RefreshInterval(u) > 0
    ensures SystemOk(u, Initial(u))
  {
    SizesPositive(u);
    var s := InitCtrl(u);
    forall t: Tok | t.addr >= 0 ensures BalancedAt(u, s, t) { HomeInRange(u, t.addr); }
  }

  lemma {:induction false} StepsKeepOk(u: Setup, y: System, es: seq<Event>)
    requires SystemOk(u, y)
    ensures Steps(u, y, es).Some? && SystemOk(u, Steps(u, y, es).value)
  {
    hide SystemOk, Step;
    if es != [] {
      StepsKeepOk(u, y, es[..|es| - 1]);
      StepKeepsOk(u, Steps(u, y, es[..|es| - 1]).value, es[|es| - 1]);
    }
  }

  /** Every run, of any length and any mix of events: no exit is reached and the whole invariant holds at its end. */
  lemma EveryRunIsOk(u: Setup, es: seq<Event>)
    requires u.WellFormed() && RefreshInterval(u) > 0
    ensures Steps(u, Initial(u), es).Some? && SystemOk(u, Steps(u, Initial(u), es).value)
  {
    InitIsOk(u);
    StepsKeepOk(u, Initial(u), es);
  }

  // ---- Per-address order over runs --------------------------------------------------------------------------------

  /** Reads of the address accepted so far have all got their data: each was returned or waits to be collected. */
  ghost predicate ReadsServed(y: System, a: int) {
    multiset(y.accepted)[Tok(false, a)] == multiset(y.returned)[Tok(false, a)] + multiset(ToksT(y.ctrl.returnQ))[Tok(false, a)]
  }

  /** In every run, a write is issued in a cycle only if every read of its address accepted before that cycle has been served. */
  lemma EveryRunOrdersWrites(u: Setup, es: seq<Event>, i: nat)
    requires u.WellFormed() && RefreshInterval(u) > 0 && DualSafe(u)
    ensures Steps(u, Initial(u), es).Some? && Step(u, Steps(u, Initial(u), es).value, Cycle).Some?
    ensures var y := Steps(u, Initial(u), es).value; var h := Step(u, y, Cycle).value.ctrl.trace;
      |y.ctrl.trace| <= i < |h| && h[i].cmd.IsWrite() ==> ReadsServed(y, h[i].cmd.hexAddr)
  {
    hide Inv, Steps, Initial, ClockTick, Filed, Callable, Asked;
    EveryRunIsOk(u, es);
    var y := Steps(u, Initial(u), es).value;
    StepKeepsOk(u, y, Cycle);
    TickKeepsInv(u, y.ctrl);
  }

  /**
   * A read offered while a write of its address is pending is answered from the write buffer: it is collectable from the next
   * cycle on, and no queue, pending map or bank learns of it.
   */
  lemma ReadBehindWriteIsAnswered(u: Setup, y: System, addr: nat)
    requires At(y.ctrl.pendingWr, addr) != [] && WillAcceptTransaction(u, y.ctrl, false)
    ensures var w := Step(u, y, Offer(addr, false));
      && w.Some? && w.value.ctrl == y.ctrl.(returnQ := w.value.ctrl.returnQ)
      && w.value.ctrl.returnQ == y.ctrl.returnQ + [Trans(addr, false, y.ctrl.clk, y.ctrl.clk + 1)]
      && ReturnDoneTrans(w.value.ctrl, y.ctrl.clk + 1).1.Some?
  {
    var q := y.ctrl.returnQ + [Trans(addr, false, y.ctrl.clk, y.ctrl.clk + 1)];
    DoneIsFound(q, y.ctrl.clk + 1, |y.ctrl.returnQ|);
  }

  lemma {:induction false} DoneIsFound(q: seq<Trans>, clk: nat, i: nat)
    requires i < |q| && q[i].complete <= clk
    ensures FirstDone(q, clk) <= i
  {
    if i > 0 && clk < q[0].complete { DoneIsFound(q[1..], clk, i - 1); }
  }
}
