/** What a controller's choices come to over whole runs: page policy, row hits, blocking, bounds, and the order of queues. */
module ControllerPolicy {
  import opened Commands
  import opened Timing
  import opened Channel
  import opened ChannelHistory
  import opened ChannelSafety
  import opened TimingRules
  import opened Address
  import opened Queueing
  import opened ControllerSafety
  import opened ControllerRuns
  import opened RefreshProgress
  import opened Fairness
  import opened DualIssue
  import opened RefreshRuns

  // ---- Spacing over runs ----------------------------------------------------------------------------------------------

  /** In every run, any two issued commands are as far apart as the parameters demand of them. */
  lemma EveryRunKeepsRules(u: Setup, es: seq<Event>, i: nat, j: nat, l: Loc)
    requires u.WellFormed() && RefreshInterval(u) > 0 && Steps(u, Initial(u), es).Some? && u.dram.Holds(l)
    requires var h := Steps(u, Initial(u), es).value.ctrl.trace; i < j < |h| && h[j].cmd.Touches(l)
    ensures var h := Steps(u, Initial(u), es).value.ctrl.trace; var g := Gap(u.dram, h[i].cmd, l, h[j].cmd.kind);
      g.Some? ==> h[j].clk >= h[i].clk + g.value
  {
    hide Steps, Initial, Legal, Gap;
    EveryRunIsOk(u, es);
    RulesAreKept(u.dram, Steps(u, Initial(u), es).value.ctrl.trace, i, j, l);
  }

  /** In every run with sensible parameters no two bursts meet on the data bus. */
  lemma EveryRunSharesNoBurst(u: Setup, es: seq<Event>, i: nat, j: nat)
    requires u.WellFormed() && RefreshInterval(u) > 0 && Steps(u, Initial(u), es).Some? && Sensible(u.dram)
    requires var h := Steps(u, Initial(u), es).value.ctrl.trace; i < j < |h| && h[i].cmd.IsReadWrite() && h[j].cmd.IsReadWrite()
    ensures var h := Steps(u, Initial(u), es).value.ctrl.trace; DataAt(u.dram, h[j]) >= DataAt(u.dram, h[i]) + u.dram.burstCycle
  {
    hide Steps, Initial, Legal;
    EveryRunIsOk(u, es);
    BurstsNeverOverlap(u.dram, Steps(u, Initial(u), es).value.ctrl.trace, i, j);
  }

  // ---- Precharging ----------------------------------------------------------------------------------------------------

  /** Entry i is the oldest of its bank in the queue. */
  ghost predicate OldestOfBank(q: seq<Command>, i: int)
    requires 0 <= i < |q|
  {
    forall p :: 0 <= p < i ==> q[p].At() != q[i].At()
  }

  /** Some entry of the queue still wants the row that the bank of entry i has open. */
  ghost predicate HitWaiting(h: seq<Issued>, q: seq<Command>, i: int)
    requires 0 <= i < |q|
  {
    exists p :: 0 <= p < |q| && q[p].At() == q[i].At() && RowOpen(h, q[i].At(), q[p].row)
  }

  /** A row may be closed for entry i exactly if it is the oldest of its bank and no hit waits or four have been served. */
  lemma ArbitrationIs(u: Setup, s: Ctrl, q: seq<Command>, i: int)
    requires u.WellFormed() && TraceOk(u, s) && Askable(u, s.chan, q) && 0 <= i < |q| && SomeRowOpen(s.trace, q[i].At())
    ensures q[i] in q && q[i].At() in s.chan.banks
    ensures ArbitratePrecharge(s.chan, q, i) <==>
      OldestOfBank(q, i) && (!HitWaiting(s.trace, q, i) || HitsSince(s.trace, q[i].At()) >= 4)
  {
    hide Legal, Replay, RowOpen, SomeRowOpen;
    assert q[i] in q;
    var l := q[i].At();
    RowHitsAreHistory(u.dram, s.trace, l);
    OpenIsHistory(u.dram, s.trace, l);
    var b := s.chan.banks[l];
    assert b == Replay(u.dram, s.trace).value.banks[l];
    forall p | 0 <= p < |q| ensures (q[p].row == b.openRow) == RowOpen(s.trace, l, q[p].row) {}
  }

  /** A precharge that the search issues closes a row that no queued command may still use. */
  lemma PrechargeIsJustified(u: Setup, s: Ctrl) returns (n: int, i: int)
    requires Inv(u, s) && QueuesAskable(u, s.chan, s.cq)
    requires var r := GetCommandToIssue(u, s.chan, s.cq, s.clk, u.NumQueues()).1; r.Go? && r.cmd.kind.Precharge?
    ensures var x := GetCommandToIssue(u, s.chan, s.cq, s.clk, u.NumQueues()).1.cmd;
      && 0 <= n < |s.cq.queues| && !Blocked(s.cq, n) && 0 <= i < |s.cq.queues[n]|
      && var q := s.cq.queues[n];
         && q[i].At() == x.At() && SomeRowOpen(s.trace, x.At()) && !RowOpen(s.trace, x.At(), q[i].row) && OldestOfBank(q, i)
         && (!HitWaiting(s.trace, q, i) || HitsSince(s.trace, x.At()) >= 4)
  {
    hide BooksOk, RefreshOk, Legal, Replay, RowOpen, SomeRowOpen, GetCommandToIssue, Sound, ChanReply, ArbitratePrecharge, HitWaiting;
    SearchOf(u, s);
    var r := GetCommandToIssue(u, s.chan, s.cq, s.clk, u.NumQueues());
    var x := r.1.cmd;
    n, i :| 0 <= n < |s.cq.queues| && !Blocked(s.cq, n) && Chosen(u, s.chan, s.cq.queues[n], s.clk, x, i) && Taken(s.cq, r.0, x, n);
    var q := s.cq.queues[n];
    assert Askable(u, s.chan, q) && q[i] in q;
    PrechargeAnswer(u, s, q[i], x);
    ArbitrationIs(u, s, q, i);
  }

  lemma PrechargeAnswer(u: Setup, s: Ctrl, e: Command, x: Command)
    requires u.dram.WellFormed() && ChanOk(u.dram, s.chan) && TraceOk(u, s) && e.IsReadWrite() && u.dram.Holds(e.At()) && x.kind.Precharge?
    requires ChanReply(u.dram, s.chan, e, s.clk) == Go(x)
    ensures x.At() == e.At() && SomeRowOpen(s.trace, e.At()) && !RowOpen(s.trace, e.At(), e.row)
  {
    hide Legal, Replay, RowOpen, SomeRowOpen;
    OpenIsHistory(u.dram, s.trace, e.At());
    var b := s.chan.banks[e.At()];
    assert b == Replay(u.dram, s.trace).value.banks[e.At()];
  }

  // ---- Queues ---------------------------------------------------------------------------------------------------------

  /** With a queue per bank, queues are numbered in the order of rank, bankgroup and bank. */
  lemma QueueOrder(u: Setup, l: Loc, m: Loc)
    requires u.dram.WellFormed() && u.dram.Holds(l) && u.dram.Holds(m) && u.perBank
    ensures u.QueueIndex(l) < u.QueueIndex(m) <==>
      l.rank < m.rank || (l.rank == m.rank && (l.bankgroup < m.bankgroup || (l.bankgroup == m.bankgroup && l.bank < m.bank)))
    ensures u.QueueIndex(l) == u.QueueIndex(m) <==> l == m
  {
    var b, p := u.dram.Banks(), u.dram.banksPerGroup;
    SizesPositive(u);
    BlockIndex(l.bankgroup, u.dram.bankgroups, p, l.bank);
    BlockIndex(m.bankgroup, u.dram.bankgroups, p, m.bank);
    BlocksInOrder(l.rank, l.bankgroup * p + l.bank, m.rank, m.bankgroup * p + m.bank, b);
    BlocksInOrder(l.bankgroup, l.bank, m.bankgroup, m.bank, p);
  }

  lemma BlocksInOrder(i: int, r: int, j: int, s: int, b: int)
    requires 0 <= r < b && 0 <= s < b
    ensures i * b + r < j * b + s <==> i < j || (i == j && r < s)
    ensures i * b + r == j * b + s <==> i == j && r == s
  {
    var d := j - i;
    assert j * b == i * b + d * b;
    assert (d >= 1 ==> d * b >= b) && (d <= -1 ==> d * b <= -b);
  }

  /** While a refresh is served, the queues kept from issuing are those of its rank, or of its bank, and no others. */
  lemma BlocksExactly(u: Setup, ref: Command, l: Loc)
    requires u.WellFormed() && RefreshKind(u, ref) && u.dram.Holds(l)
    ensures u.QueueIndex(l) in RefIndices(u, ref) <==>
      l.rank == ref.rank && (ref.kind.Refresh? || !u.perBank || l == ref.At())
    ensures forall n :: n in RefIndices(u, ref) ==> 0 <= n < u.NumQueues()
  {
    SizesPositive(u);
    IndexInRange(u, l);
    if !ref.kind.Refresh? {
      IndexInRange(u, ref.At());
      if u.perBank { QueueOrder(u, l, ref.At()); }
    }
  }

  /** A write is held back exactly while an earlier read of its own place stands in its queue. */
  lemma WriteHeldBackIff(u: Setup, cq: CmdQ, n: int, i: int)
    requires u.WellFormed() && QueuesOk(u, cq) && 0 <= n < |cq.queues| && 0 <= i < |cq.queues[n]|
    ensures var q := cq.queues[n];
      HasRWDependency(q, i) <==>
        exists p :: 0 <= p < i && q[p].IsRead() && q[p].At() == q[i].At() && q[p].row == q[i].row && q[p].column == q[i].column
  {
    hide QueuesOk, Setup.QueueIndex;
    var q := cq.queues[n];
    EntryPlace(u, cq, n, i);
    forall p | 0 <= p < i ensures q[p].rank == q[i].rank {
      EntryPlace(u, cq, n, p);
      SameQueueRank(u, q[p].At(), q[i].At());
    }
    if p :| 0 <= p < i && q[p].IsRead() && SamePlace(q[p], q[i]) { assert q[p].At() == q[i].At(); }
  }

  lemma EntryPlace(u: Setup, cq: CmdQ, n: int, i: int)
    requires u.WellFormed() && QueuesOk(u, cq) && 0 <= n < |cq.queues| && 0 <= i < |cq.queues[n]|
    ensures u.dram.Holds(cq.queues[n][i].At()) && u.QueueIndex(cq.queues[n][i].At()) == n
  {
    hide AddressMapping, Setup.QueueIndex;
    var x := cq.queues[n][i];
    assert x in cq.queues[n] && CmdOk(u, x);
    CommandInRange(u, x.IsWrite(), x.hexAddr);
  }

  lemma SameQueueRank(u: Setup, l: Loc, m: Loc)
    requires u.dram.WellFormed() && u.dram.Holds(l) && u.dram.Holds(m) && u.QueueIndex(l) == u.QueueIndex(m)
    ensures l.rank == m.rank
  {
    if u.perBank { QueueOrder(u, l, m); }
  }

  // ---- Requests for refresh -------------------------------------------------------------------------------------------

  /** In every run as many refreshes were asked for as whole intervals have passed, the interval that of the policy. */
  lemma RequestsSoFar(u: Setup, es: seq<Event>)
    requires u.WellFormed() && RefreshInterval(u) > 0 && Steps(u, Initial(u), es).Some?
    ensures var y := Steps(u, Initial(u), es).value;
      var interval := if u.policy.RankStaggered? then u.dram.tREFI / u.dram.ranks
        else if u.policy.BankStaggered? then u.dram.tREFIb else u.dram.tREFI;
      |y.requests| == if y.ctrl.clk == 0 then 0 else (y.ctrl.clk - 1) / interval
  {
    hide Steps, Initial, SystemOk, IterateNext, Ticks;
    InitIsOk(u);
    InitialOnSchedule(u);
    StepsKeepSchedule(u, Initial(u), es);
    RefreshSchedule(u, Steps(u, Initial(u), es).value.ctrl.clk);
  }

  // ---- Bounds ---------------------------------------------------------------------------------------------------------

  ghost predicate QueuesWithin(u: Setup, cq: CmdQ) { forall n :: 0 <= n < |cq.queues| ==> |cq.queues[n]| <= u.cmdQueueSize }

  /** No queue is longer than its configured size. */
  ghost predicate Bounded(u: Setup, s: Ctrl) {
    && |s.unifiedQ| <= u.transQueueSize && |s.readQ| <= u.transQueueSize && |s.writeBuf| <= u.transQueueSize
    && QueuesWithin(u, s.cq)
  }

  lemma TakenWithin(u: Setup, s: Ctrl, g: (CmdQ, Reply))
    requires Inv(u, s) && QueuesAskable(u, s.chan, s.cq) && SearchOk(u, s.chan, s.cq, s.clk, g) && QueuesWithin(u, s.cq)
    ensures QueuesWithin(u, g.0)
  {
    hide Chosen, Sound, BooksOk, ChannelOk, RefreshOk;
    if g.1.Go? {
      var x := g.1.cmd;
      var n, i :| 0 <= n < |s.cq.queues| && !Blocked(s.cq, n) && Chosen(u, s.chan, s.cq.queues[n], s.clk, x, i) && Taken(s.cq, g.0, x, n);
    }
  }

  lemma ChooseWithin(u: Setup, s: Ctrl)
    requires Inv(u, s) && Callable(u, s) && QueuesWithin(u, s.cq)
    ensures QueuesWithin(u, Choose(u, s).0)
  {
    hide BooksOk, ChannelOk, RefreshOk, GetCommandToIssue, FinishRefresh, Sound, Chosen;
    if s.chan.refreshQ != [] { IssueRefreshWork(u, s); FinishKeepsQueues(u, s); }
    var f := if s.chan.refreshQ == [] then (s.cq, NotReady) else FinishRefresh(u, s.chan, s.cq, s.clk);
    if f.1.NotReady? {
      SearchOf(u, s.(cq := f.0));
      TakenWithin(u, s.(cq := f.0), GetCommandToIssue(u, s.chan, f.0, s.clk, u.NumQueues()));
    }
  }

  ghost predicate SameWaiting(s: Ctrl, m: Ctrl) { m.unifiedQ == s.unifiedQ && m.readQ == s.readQ && m.writeBuf == s.writeBuf }

  lemma IssueKeepsBounds(u: Setup, s: Ctrl, x: Command)
    requires QueuesAskable(u, s.chan, s.cq) && Addressed(u.dram, x) && IssueCommand(u, s, x).Some?
    ensures IssueCommand(u, s, x).value.cq == s.cq && SameWaiting(s, IssueCommand(u, s, x).value)
  {
    hide Issue, QueuesAskable;
    AccountShape(u, s, x);
  }

  lemma StageKeepsBounds(u: Setup, s: Ctrl)
    requires Inv(u, s) && Callable(u, s) && QueuesWithin(u, s.cq)
    ensures IssueStage(u, s).Some? && QueuesWithin(u, IssueStage(u, s).value.cq) && SameWaiting(s, IssueStage(u, s).value)
  {
    hide Inv, Callable, Choose, IssueCommand, SecondCommand, GetCommandToIssue, IssueStage, QueuesWithin, QueuesAskable, Issue;
    StageOk(u, s);
    ChooseWithin(u, s);
    FirstDebt(u, s, Tok(false, 0));
    var (cq, r) := Choose(u, s);
    if r.Go? {
      AfterFirstIs(u, s);
      IssueKeepsBounds(u, s.(cq := cq), r.cmd);
      var a := IssueCommand(u, s.(cq := cq), r.cmd).value;
      if u.dual { SecondKeepsBounds(u, a, r.cmd); }
    } else {
      StageIdle(u, s);
    }
  }

  lemma SecondKeepsBounds(u: Setup, a: Ctrl, first: Command)
    requires Inv(u, a) && QueuesAskable(u, a.chan, a.cq) && SecondCommand(u, a, first).Some? && QueuesWithin(u, a.cq)
    ensures QueuesWithin(u, SecondCommand(u, a, first).value.cq) && SameWaiting(a, SecondCommand(u, a, first).value)
  {
    hide Inv, GetCommandToIssue, IssueCommand, QueuesWithin, QueuesAskable, SearchOk;
    SizeOf(u, a);
    SearchOf(u, a);
    var g := GetCommandToIssue(u, a.chan, a.cq, a.clk, u.NumQueues());
    TakenWithin(u, a, g);
    if g.1.Go? && g.1.cmd.IsReadWrite() != first.IsReadWrite() { IssueKeepsBounds(u, a.(cq := g.0), g.1.cmd); }
  }

  lemma ScheduleKeepsBounds(u: Setup, s: Ctrl)
    requires u.WellFormed() && |s.cq.queues| == u.NumQueues() && Bounded(u, s)
    ensures Bounded(u, EndTick(u, s))
  {
    hide AddressMapping, Setup.NumQueues, Setup.QueueIndex, QueueEmpty;
  }

  lemma StepKeepsBounds(u: Setup, y: System, e: Event)
    requires SystemOk(u, y) && Bounded(u, y.ctrl)
    ensures Step(u, y, e).Some? && Bounded(u, Step(u, y, e).value.ctrl)
  {
    hide Inv, Filed, Owed, Asked, Answered, IssueStage, EndTick, QueuesWithin;
    StepKeepsOk(u, y, e);
    if e.Cycle? {
      var s := y.ctrl;
      TickKeepsInv(u, s);
      BeginKeepsInv(u, s);
      BeginShape(u, s);
      var b := BeginTick(u, s);
      BeginIsCallable(u, s);
      StageKeepsBounds(u, b);
      var m := IssueStage(u, b).value;
      StageOk(u, b);
      ScheduleKeepsBounds(u, m);
    }
  }

  lemma {:induction false} EveryRunKeepsBounds(u: Setup, es: seq<Event>)
    requires u.WellFormed() && RefreshInterval(u) > 0
    ensures Steps(u, Initial(u), es).Some? && Bounded(u, Steps(u, Initial(u), es).value.ctrl)
  {
    hide SystemOk, Step, Bounded;
    EveryRunIsOk(u, es);
    if es == [] {
      InitialBounded(u);
    } else {
      EveryRunKeepsBounds(u, es[..|es| - 1]);
      EveryRunIsOk(u, es[..|es| - 1]);
      StepKeepsBounds(u, Steps(u, Initial(u), es[..|es| - 1]).value, es[|es| - 1]);
    }
  }

  lemma InitialBounded(u: Setup)
    requires u.dram.WellFormed()
    ensures Bounded(u, Initial(u).ctrl)
  {}

  /** In every run, a transaction is refused exactly when the queue it would join holds as many as the configuration allows. */
  lemma RefusedIffFull(u: Setup, es: seq<Event>, isWrite: bool)
    requires u.WellFormed() && RefreshInterval(u) > 0
    ensures Steps(u, Initial(u), es).Some?
    ensures var s := Steps(u, Initial(u), es).value.ctrl;
      !WillAcceptTransaction(u, s, isWrite) <==>
        |if u.unified then s.unifiedQ else if isWrite then s.writeBuf else s.readQ| == u.transQueueSize
  {
    hide Steps, Initial;
    EveryRunKeepsBounds(u, es);
  }

  // ---- Scheduling -----------------------------------------------------------------------------------------------------

  /** Time to write: the buffer is full, or it holds more than eight and no command waits. */
  ghost predicate TimeToDrain(u: Setup, s: Ctrl) {
    |s.writeBuf| >= u.transQueueSize || (|s.writeBuf| > 8 && forall n :: 0 <= n < |s.cq.queues| ==> s.cq.queues[n] == [])
  }

  /** Writes have the turn: a drain is under way or begins now. */
  ghost predicate WritesTurn(u: Setup, s: Ctrl) { s.draining > 0 || (s.draining == 0 && TimeToDrain(u, s) && |s.writeBuf| > 0) }

  /** The command queue of the transaction has room. */
  ghost predicate RoomFor(u: Setup, s: Ctrl, t: Trans)
    requires u.WellFormed() && |s.cq.queues| == u.NumQueues()
  {
    HomeInRange(u, t.addr);
    |s.cq.queues[Home(u, t.addr)]| < u.cmdQueueSize
  }

  /**
   * With separate queues, writes move only on their turn: the oldest write moves exactly if its command queue has room and no
   * read of its address is pending, and such a read ends the turn; off their turn the oldest read moves exactly if there is room.
   */
  lemma WritesWaitTheirTurn(u: Setup, s: Ctrl)
    requires u.WellFormed() && |s.cq.queues| == u.NumQueues() && !u.unified && ModeOk(u, s)
    ensures var m := ScheduleTransaction(u, s);
      if WritesTurn(u, s) then
        && s.writeBuf != [] && m.readQ == s.readQ
        && var t := s.writeBuf[0];
           if RoomFor(u, s, t) && At(s.pendingRd, t.addr) == [] then m.writeBuf == s.writeBuf[1..] && m.draining >= 0
           else m.writeBuf == s.writeBuf && (RoomFor(u, s, t) ==> m.draining == 0)
      else
        && m.writeBuf == s.writeBuf && m.draining == 0
        && m.readQ == if s.readQ != [] && RoomFor(u, s, s.readQ[0]) then s.readQ[1..] else s.readQ
  {
    hide AddressMapping, Setup.NumQueues, Setup.QueueIndex, Setup.WellFormed;
    if s.writeBuf != [] { HomeInRange(u, s.writeBuf[0].addr); }
    if s.readQ != [] { HomeInRange(u, s.readQ[0].addr); assert s.readQ[0] in s.readQ; }
    if s.writeBuf != [] { assert s.writeBuf[0] in s.writeBuf; }
  }

  /** With one queue the oldest transaction moves exactly if its command queue has room. */
  lemma OldestMoves(u: Setup, s: Ctrl)
    requires u.WellFormed() && |s.cq.queues| == u.NumQueues() && u.unified
    ensures var m := ScheduleTransaction(u, s);
      m.unifiedQ == if s.unifiedQ != [] && RoomFor(u, s, s.unifiedQ[0]) then s.unifiedQ[1..] else s.unifiedQ
  {
    hide AddressMapping, Setup.NumQueues, Setup.QueueIndex, Setup.WellFormed, QueueEmpty;
    if s.unifiedQ != [] { HomeInRange(u, s.unifiedQ[0].addr); }
  }

  /** A turn that begins takes the writes buffered at that moment, one each time one moves. */
  lemma DrainCounts(u: Setup, s: Ctrl)
    requires u.WellFormed() && |s.cq.queues| == u.NumQueues() && !u.unified && ModeOk(u, s) && WritesTurn(u, s)
    ensures var m := ScheduleTransaction(u, s); var turn := if s.draining > 0 then s.draining else |s.writeBuf|;
      m.draining == if m.writeBuf != s.writeBuf then turn - 1 else if RoomFor(u, s, s.writeBuf[0]) then 0 else turn
  {
    hide AddressMapping, Setup.NumQueues, Setup.QueueIndex, Setup.WellFormed;
    HomeInRange(u, s.writeBuf[0].addr);
    assert s.writeBuf[0] in s.writeBuf;
  }

  // ---- Commands come from transactions --------------------------------------------------------------------------------

  /** A column command for an accepted transaction: its kind by direction and page policy, its coordinates by its address. */
  ghost predicate Warranted(u: Setup, accepted: seq<Tok>, x: Command) {
    && x.hexAddr >= 0 && Tok(x.IsWrite(), x.hexAddr) in accepted
    && x.kind == (if x.IsWrite() then (if u.closePage then WritePrecharge else Write) else (if u.closePage then ReadPrecharge else Read))
    && var at := AddressMapping(u.lay, x.hexAddr);
       x.rank == at.ra && x.bankgroup == at.bg && x.bank == at.ba && x.row == at.ro && x.column == at.co
  }

  ghost predicate TraceWarranted(u: Setup, accepted: seq<Tok>, h: seq<Issued>, lo: int) {
    forall i :: 0 <= lo <= i < |h| && h[i].cmd.IsReadWrite() ==> Warranted(u, accepted, h[i].cmd)
  }

  /** Pending writes were accepted. */
  ghost predicate WritesAccepted(y: System) {
    forall a :: At(y.ctrl.pendingWr, a) != [] ==> Tok(true, a) in y.accepted
  }

  lemma OwingIsAccepted(u: Setup, y: System, k: Tok)
    requires SystemOk(u, y) && WritesAccepted(y) && Owing(y.ctrl, k) > 0
    ensures k in y.accepted
  {
    hide Inv, Filed;
    if !k.write { assert multiset(y.accepted)[k] > 0; }
  }

  lemma PendingShrinks(u: Setup, s: Ctrl, x: Command)
    requires QueuesAskable(u, s.chan, s.cq) && Addressed(u.dram, x) && IssueCommand(u, s, x).Some?
    ensures forall a :: At(IssueCommand(u, s, x).value.pendingWr, a) != [] ==> At(s.pendingWr, a) != []
    ensures forall a :: At(IssueCommand(u, s, x).value.pendingRd, a) != [] ==> At(s.pendingRd, a) != []
  {
    hide Issue, QueuesAskable;
  }

  lemma WaitingIsWarranted(u: Setup, s: Ctrl, x: Command, acc: seq<Tok>)
    requires Inv(u, s) && CmdOk(u, x) && x.IsReadWrite() && Waiting(u, s, TokC(x)) >= 1
    requires forall k: Tok :: Owing(s, k) > 0 ==> k in acc
    ensures Warranted(u, acc, x)
  {
    hide Waiting, OrderOk, ModeOk, ChannelOk, RefreshOk, AddressMapping;
    assert BalancedAt(u, s, TokC(x));
  }

  /** What one cycle's issuing adds to the trace, and that it makes nothing pending. */
  lemma StageIsWarranted(u: Setup, s: Ctrl, acc: seq<Tok>)
    requires Inv(u, s) && Callable(u, s) && forall k: Tok :: Owing(s, k) > 0 ==> k in acc
    ensures IssueStage(u, s).Some? && TraceWarranted(u, acc, IssueStage(u, s).value.trace, |s.trace|)
    ensures forall a :: At(IssueStage(u, s).value.pendingWr, a) != [] ==> At(s.pendingWr, a) != []
  {
    hide Inv, Callable, Choose, IssueCommand, SecondCommand, GetCommandToIssue, IssueStage, QueuesAskable, Issue, Waiting, Warranted, CmdOk, Sound;
    StageOk(u, s);
    FirstDebt(u, s, Tok(false, 0));
    var (cq, r) := Choose(u, s);
    if r.Go? {
      AfterFirstIs(u, s);
      PendingShrinks(u, s.(cq := cq), r.cmd);
      var a := IssueCommand(u, s.(cq := cq), r.cmd).value;
      if r.cmd.IsReadWrite() {
        FirstIsOfAddress(u, s);
        WaitingIsWarranted(u, s, r.cmd, acc);
      }
      assert TraceWarranted(u, acc, a.trace, |s.trace|);
      if u.dual { SecondIsWarranted(u, a, r.cmd, acc); }
    } else {
      StageIdle(u, s);
    }
  }

  lemma SecondIsWarranted(u: Setup, a: Ctrl, first: Command, acc: seq<Tok>)
    requires Inv(u, a) && QueuesAskable(u, a.chan, a.cq) && SecondCommand(u, a, first).Some? && Inv(u, SecondCommand(u, a, first).value)
    requires forall k: Tok :: Owing(a, k) > 0 ==> k in acc
    ensures var m := SecondCommand(u, a, first).value;
      && a.trace <= m.trace && TraceWarranted(u, acc, m.trace, |a.trace|)
      && forall b :: At(m.pendingWr, b) != [] ==> At(a.pendingWr, b) != []
  {
    hide Inv, GetCommandToIssue, IssueCommand, QueuesAskable, Waiting, Warranted, CmdOk, SearchOk, Debt, Issue;
    SizeOf(u, a);
    SecondDebt(u, a, first, Tok(false, 0));
    SearchOf(u, a);
    hide SecondDrops;
    var g := GetCommandToIssue(u, a.chan, a.cq, a.clk, u.NumQueues());
    if g.1.Go? && g.1.cmd.IsReadWrite() != first.IsReadWrite() {
      var x := g.1.cmd;
      IssuedCommand(u, a.(cq := g.0), x);
      PendingShrinks(u, a.(cq := g.0), x);
      if x.IsReadWrite() {
        TakenIsOk(u, a, g);
        assert SecondCommand(u, a, first).value.trace[|a.trace|].cmd == x;
        WaitingIsWarranted(u, a, x, acc);
      }
    }
  }

  lemma StepKeepsWarrants(u: Setup, y: System, e: Event)
    requires SystemOk(u, y) && WritesAccepted(y) && TraceWarranted(u, y.accepted, y.ctrl.trace, 0)
    ensures Step(u, y, e).Some? && WritesAccepted(Step(u, y, e).value)
    ensures TraceWarranted(u, Step(u, y, e).value.accepted, Step(u, y, e).value.ctrl.trace, 0)
  {
    hide Inv, Filed, Owed, Asked, Answered, IssueStage, EndTick, BeginTick, Warranted, ReturnDoneTrans, Callable;
    StepKeepsOk(u, y, e);
    match e {
      case Offer(addr, isWrite) =>
        AddWarrants(u, y, addr, isWrite);
      case Cycle =>
        var s := y.ctrl;
        TickKeepsInv(u, s);
        BeginKeepsInv(u, s);
        BeginPending(u, s);
        var b := BeginTick(u, s);
        BeginIsCallable(u, s);
        forall k: Tok | Owing(b, k) > 0 ensures k in y.accepted { OwingIsAccepted(u, y, k); }
        StageIsWarranted(u, b, y.accepted);
        var m := IssueStage(u, b).value;
        StageOk(u, b);
        EndPending(u, m);
        TraceGrows(u, y.accepted, b.trace, m.trace);
      case Collect(clk) => ReturnPaysOne(y.ctrl, clk, Tok(false, 0));
    }
  }

  lemma TraceGrows(u: Setup, acc: seq<Tok>, h: seq<Issued>, h': seq<Issued>)
    requires TraceWarranted(u, acc, h, 0) && h <= h' && TraceWarranted(u, acc, h', |h|)
    ensures TraceWarranted(u, acc, h', 0)
  {
    hide Warranted;
    forall i | 0 <= i < |h'| && h'[i].cmd.IsReadWrite() ensures Warranted(u, acc, h'[i].cmd) {
      if i < |h| { assert h'[i] == h[i]; }
    }
  }

  lemma BeginPending(u: Setup, s: Ctrl)
    requires Callable(u, s)
    ensures var b := BeginTick(u, s); b.trace == s.trace && b.pendingRd == s.pendingRd && b.pendingWr == s.pendingWr
  {}

  lemma EndPending(u: Setup, s: Ctrl)
    requires u.WellFormed() && |s.cq.queues| == u.NumQueues()
    ensures EndTick(u, s).trace == s.trace && EndTick(u, s).pendingWr == s.pendingWr
  {
    hide ScheduleTransaction;
    ScheduleShape(u, s);
  }

  lemma AddWarrants(u: Setup, y: System, addr: nat, isWrite: bool)
    requires WritesAccepted(y) && TraceWarranted(u, y.accepted, y.ctrl.trace, 0)
    ensures var w := Step(u, y, Offer(addr, isWrite)).value; WritesAccepted(w) && TraceWarranted(u, w.accepted, w.ctrl.trace, 0)
  {
    hide AddressMapping, Answered;
    var w := Step(u, y, Offer(addr, isWrite)).value;
    assert w.ctrl.trace == y.ctrl.trace && y.accepted <= w.accepted;
    forall i | 0 <= i < |w.ctrl.trace| && w.ctrl.trace[i].cmd.IsReadWrite() ensures Warranted(u, w.accepted, w.ctrl.trace[i].cmd) {
      assert Warranted(u, y.accepted, y.ctrl.trace[i].cmd);
    }
    forall a | At(w.ctrl.pendingWr, a) != [] ensures Tok(true, a) in w.accepted {
      assert At(y.ctrl.pendingWr, a) != [] || (isWrite && a == addr);
    }
  }

  /**
   * In every run every read or write command is for a transaction that was accepted, goes where its address maps, and closes its
   * row exactly under the close-page policy.
   */
  lemma {:induction false} EveryColumnIsWarranted(u: Setup, es: seq<Event>)
    requires u.WellFormed() && RefreshInterval(u) > 0
    ensures Steps(u, Initial(u), es).Some?
    ensures var y := Steps(u, Initial(u), es).value; WritesAccepted(y) && TraceWarranted(u, y.accepted, y.ctrl.trace, 0)
  {
    hide SystemOk, Step, WritesAccepted, TraceWarranted;
    EveryRunIsOk(u, es);
    if es == [] {
      InitialWarranted(u);
    } else {
      EveryColumnIsWarranted(u, es[..|es| - 1]);
      EveryRunIsOk(u, es[..|es| - 1]);
      StepKeepsWarrants(u, Steps(u, Initial(u), es[..|es| - 1]).value, es[|es| - 1]);
    }
  }

  lemma InitialWarranted(u: Setup)
    requires u.dram.WellFormed()
    ensures WritesAccepted(Initial(u)) && TraceWarranted(u, Initial(u).accepted, Initial(u).ctrl.trace, 0)
  {}
}
