/** Rank refresh: nothing else reaches the rank while it is pending, and it issues by a computed deadline. */
module RefreshProgress {
  import opened Commands
  import opened Timing
  import opened Channel
  import opened ChannelHistory
  import opened ChannelSafety
  import opened Queueing
  import opened ControllerSafety
  import opened ControllerRuns

  // ---- What commands do to the banks of a rank ------------------------------------------------------------------

  /** A delay list that never mentions a command type leaves its entry alone. */
  lemma Unmentioned(v: nat, ds: seq<Delay>, clk: nat, k: Kind)
    requires forall d :: d in ds ==> d.next != k
    ensures ListMax(v, ds, clk, k) == v
  {
  }

  lemma OtherRankQuiet(c: Config, b: Bank, b': Bank, x: Command, clk: nat, l: Loc)
    requires BankAfter(c, b, b', x, clk, l) && x.rank != l.rank
    ensures b'.phase == b.phase
    ensures b'.earliest[Index(Precharge)] == b.earliest[Index(Precharge)]
    ensures b'.earliest[Index(Refresh)] == b.earliest[Index(Refresh)]
  {
    hide RaiseAll, ListMax;
    var ds := Imposed(c, x, l);
    assert forall d :: d in ds ==> IsColumn(d.next);
    RaiseAllIsMax(b.earliest, ds, clk, Precharge);
    RaiseAllIsMax(b.earliest, ds, clk, Refresh);
    Unmentioned(b.earliest[Index(Precharge)], ds, clk, Precharge);
    Unmentioned(b.earliest[Index(Refresh)], ds, clk, Refresh);
  }

  /** Cycles by which one precharge may put off the next precharge of its rank. */
  function Pace(c: Config): (n: int)
    ensures n >= 1
  {
    if c.HasPPD() then Max(1, c.tPPD) else 1
  }

  /** The times that separate precharges from each other and from a refresh are not negative. */
  predicate SaneRowTimes(c: Config) { c.tRP >= 0 && (c.HasPPD() ==> c.tPPD >= 0) }

  lemma PrechargeEffect(c: Config, b: Bank, b': Bank, x: Command, clk: nat, l: Loc)
    requires BankAfter(c, b, b', x, clk, l) && SaneRowTimes(c) && x.kind.Precharge? && l.rank == x.rank
    ensures if l == x.At() then b'.phase.Closed? && b'.earliest[Index(Refresh)] <= Max(b.earliest[Index(Refresh)], clk + c.tRP)
      else && b'.phase == b.phase
           && b'.earliest[Index(Precharge)] <= Max(b.earliest[Index(Precharge)], clk + Pace(c))
           && b'.earliest[Index(Refresh)] == b.earliest[Index(Refresh)]
  {
    hide RaiseAll, ListMax;
    var ds := Imposed(c, x, l);
    RaiseAllIsMax(b.earliest, ds, clk, Precharge);
    RaiseAllIsMax(b.earliest, ds, clk, Refresh);
    if l == x.At() {
      assert forall d :: d in ds ==> d.gap == c.tRP;
    } else {
      assert forall d :: d in ds ==> d == Delay(Precharge, c.tPPD) && c.HasPPD();
      Unmentioned(b.earliest[Index(Refresh)], ds, clk, Refresh);
    }
  }

  // ---- The deadline -----------------------------------------------------------------------------------------------

  function OpenBanks(s: Chan, r: int): set<Loc> { set l | l in s.banks && l.rank == r && s.banks[l].phase.Open? }

  /**
   * The refresh of rank r is due by time d: every refresh entry of the rank is at most d, every open bank may be
   * precharged from p on, and d leaves the pace of precharges per open bank after p plus the last precharge time.
   */
  ghost predicate Due(c: Config, s: Chan, r: int, clk: nat, p: int, d: int) {
    && clk <= d
    && (forall l :: l in s.banks && l.rank == r ==> s.banks[l].earliest[Index(Refresh)] <= d)
    && (forall l :: l in OpenBanks(s, r) ==> s.banks[l].earliest[Index(Precharge)] <= p)
    && (OpenBanks(s, r) != {} ==> clk <= p && p + (|OpenBanks(s, r)| - 1) * Pace(c) + Max(1, c.tRP) <= d)
  }

  lemma DueAfterOther(c: Config, s: Chan, x: Command, at: nat, r: int, clk: nat, p: int, d: int)
    requires c.WellFormed() && ChanOk(c, s) && Sound(c, s, x, at) && x.rank != r && Due(c, s, r, clk, p, d)
    ensures Issue(c, s, x, at).Some? && Due(c, Issue(c, s, x, at).value, r, clk, p, d)
  {
    hide Issue, Sound;
    IssueKeepsOk(c, s, x, at);
    SoundIsAddressed(c, s, x, at);
    var s' := Issue(c, s, x, at).value;
    forall l | c.Holds(l) && l.rank == r
      ensures s'.banks[l].phase == s.banks[l].phase
      ensures s'.banks[l].earliest[Index(Precharge)] == s.banks[l].earliest[Index(Precharge)]
      ensures s'.banks[l].earliest[Index(Refresh)] == s.banks[l].earliest[Index(Refresh)]
    {
      IssueBank(c, s, x, at, l);
      OtherRankQuiet(c, s.banks[l], s'.banks[l], x, at, l);
    }
    assert OpenBanks(s', r) == OpenBanks(s, r);
  }

  /** One precharge of the rank: one bank fewer to wait for, one pace later. */
  lemma DueAfterPrecharge(c: Config, s: Chan, x: Command, r: int, clk: nat, p: int, d: int)
    requires c.WellFormed() && SaneRowTimes(c) && ChanOk(c, s) && Sound(c, s, x, clk)
    requires x.kind.Precharge? && x.rank == r && Due(c, s, r, clk, p, d)
    ensures Issue(c, s, x, clk).Some? && Due(c, Issue(c, s, x, clk).value, r, clk + 1, p + Pace(c), d)
  {
    hide Issue;
    IssueKeepsOk(c, s, x, clk);
    var s' := Issue(c, s, x, clk).value;
    assert x.Touches(x.At()) && x.At() in OpenBanks(s, r);
    forall l | c.Holds(l) && l.rank == r
      ensures if l == x.At() then s'.banks[l].phase.Closed? && s'.banks[l].earliest[Index(Refresh)] <= d
        else && s'.banks[l].phase == s.banks[l].phase
             && s'.banks[l].earliest[Index(Precharge)] <= Max(s.banks[l].earliest[Index(Precharge)], clk + Pace(c))
             && s'.banks[l].earliest[Index(Refresh)] == s.banks[l].earliest[Index(Refresh)]
    {
      PaceFits(|OpenBanks(s, r)|, Pace(c));
      IssueBank(c, s, x, clk, l);
      PrechargeEffect(c, s.banks[l], s'.banks[l], x, clk, l);
    }
    assert OpenBanks(s', r) == OpenBanks(s, r) - {x.At()};
    PaceFits(|OpenBanks(s, r)|, Pace(c));
  }

  lemma PaceFits(n: int, pace: int)
    requires pace >= 1
    ensures n >= 1 ==> (n - 1) * pace >= 0
    ensures (n - 1) * pace == (n - 2) * pace + pace
  {}

  /** A cycle in which the refresh gets no answer still leaves it due by the same time. */
  lemma DueAfterWait(c: Config, s: Chan, ref: Command, clk: nat, p: int, d: int)
    requires c.WellFormed() && ChanOk(c, s) && ref.kind.Refresh? && 0 <= ref.rank < c.ranks
    requires ChanReply(c, s, ref, clk).NotReady? && Due(c, s, ref.rank, clk, p, d)
    ensures Due(c, s, ref.rank, clk + 1, p, d)
  {
    ScanMeaning(c, s, ref, clk, 0, 0, 0);
    var l :| c.Holds(l) && l.rank == ref.rank && !RefReady(s.banks[l], clk);
    if s.banks[l].phase.Open? { assert l in OpenBanks(s, ref.rank); }
    forall o | o in OpenBanks(s, ref.rank) ensures clk < s.banks[o].earliest[Index(Precharge)] {
      assert !PreReady(s.banks[o], clk);
    }
    if o :| o in OpenBanks(s, ref.rank) { assert clk + 1 <= p; }
  }

  /** A deadline always exists: from any bound on the timing table, the bank count and the precharge time. */
  lemma DueByTable(c: Config, s: Chan, r: int, clk: nat, p: int)
    requires c.WellFormed() && Shaped(c, s)
    requires clk <= p
    requires forall l :: l in s.banks ==> s.banks[l].earliest[Index(Precharge)] <= p && s.banks[l].earliest[Index(Refresh)] <= p
    ensures Due(c, s, r, clk, p, p + |s.banks| * Pace(c) + Max(1, c.tRP))
  {
    SubsetSize(OpenBanks(s, r), s.banks.Keys);
    MorePace(|OpenBanks(s, r)|, |s.banks|, Pace(c));
  }

  lemma MorePace(a: int, b: int, pace: int)
    requires 0 <= a <= b && pace >= 1
    ensures (a - 1) * pace <= b * pace && 0 <= b * pace
  {}

  lemma SubsetSize<T>(a: set<T>, b: set<T>)
    requires a <= b
    ensures |a| <= |b|
  {
    assert |b| == |a| + |b - a|;
  }

  // ---- One cycle --------------------------------------------------------------------------------------------------

  /** While a rank refresh is in progress, searches never touch that rank. */
  lemma SearchAvoidsRank(u: Setup, s: Chan, cq: CmdQ, clk: nat, r: (CmdQ, Reply), ref: Command)
    requires u.WellFormed() && ChanOk(u.dram, s) && QueuesOk(u, cq) && QueuesAskable(u, s, cq)
    requires cq.inRef && ref.kind.Refresh? && cq.refIdx == RefIndices(u, ref)
    requires SearchOk(u, s, cq, clk, r) && r.1.Go?
    ensures r.1.cmd.rank != ref.rank
  {
    hide ChanOk, Sound, ChanReply;
    var x := r.1.cmd;
    var n, i :| 0 <= n < |cq.queues| && !Blocked(cq, n) && Chosen(u, s, cq.queues[n], clk, x, i) && Taken(cq, r.0, x, n);
    ChosenIsEntry(u, s, cq.queues[n], clk, x, i);
    var e := cq.queues[n][i];
    HomeOfEntry(u, cq, n, e);
    assert u.dram.Holds(e.At());
    IndexInRange(u, e.At());
    assert u.QueueIndex(e.At()) == n;
  }

  /** The refresh of rank r is the oldest request. */
  ghost predicate Pending(s: Ctrl, r: int) {
    s.chan.refreshQ != [] && s.chan.refreshQ[0].kind.Refresh? && s.chan.refreshQ[0].rank == r
  }

  /** From entry n of the trace on, rank r only sees precharges. */
  ghost predicate OnlyPrecharges(h: seq<Issued>, n: nat, r: int) {
    forall i :: n <= i < |h| && h[i].cmd.rank == r ==> h[i].cmd.kind.Precharge?
  }

  /** Still waiting: the rank saw only precharges since entry n, and the refresh is due by d. */
  ghost predicate StillDue(u: Setup, s: Ctrl, n: nat, r: int, clk: nat, d: int) {
    && Pending(s, r) && OnlyPrecharges(s.trace, n, r) && exists p :: Due(u.dram, s.chan, r, clk, p, d)
  }

  /** Issued at entry m, by time d, with only precharges of the rank between n and m. */
  ghost predicate RefreshedAt(h: seq<Issued>, n: nat, r: int, d: int, m: int) {
    && n <= m < |h| && h[m].cmd.kind.Refresh? && h[m].cmd.rank == r && h[m].clk <= d
    && forall i :: n <= i < m && h[i].cmd.rank == r ==> h[i].cmd.kind.Precharge?
  }

  ghost predicate Refreshed(h: seq<Issued>, n: nat, r: int, d: int) { exists m :: RefreshedAt(h, n, r, d, m) }

  /** The second command of a cycle leaves a refresh in progress alone. */
  lemma SecondAvoidsRank(u: Setup, s: Ctrl, first: Command, n: nat, r: int, clk: nat, d: int)
    requires Inv(u, s) && QueuesAskable(u, s.chan, s.cq) && (DualSafe(u) && first.IsReadWrite() ==> ColumnsHeld(s.chan, s.clk))
    requires s.cq.inRef && StillDue(u, s, n, r, clk, d)
    ensures var m := SecondCommand(u, s, first); m.Some? && StillDue(u, m.value, n, r, clk, d)
  {
    hide Balanced, OrderOk, ModeOk, Legal, Replay, RefIndices, GetCommandToIssue, Issue, Account, Chosen, Due, IssueCommand, RefreshDone, Sound;
    SecondKeepsInv(u, s, first);
    SearchIsOk(u, s.chan, s.cq, s.clk, u.NumQueues());
    var f := GetCommandToIssue(u, s.chan, s.cq, s.clk, u.NumQueues());
    var m := SecondCommand(u, s, first).value;
    if f.1.Go? && f.1.cmd.IsReadWrite() != first.IsReadWrite() {
      IssueOther(u, s, f, n, r, clk, d);
    }
  }

  /** Issuing a searched command while a refresh is in progress. */
  lemma IssueOther(u: Setup, s: Ctrl, f: (CmdQ, Reply), n: nat, r: int, clk: nat, d: int)
    requires Inv(u, s) && QueuesAskable(u, s.chan, s.cq) && QueuesAskable(u, s.chan, f.0)
    requires SearchOk(u, s.chan, s.cq, s.clk, f) && f.1.Go? && s.cq.inRef && StillDue(u, s, n, r, clk, d)
    requires Addressed(u.dram, f.1.cmd)
    ensures var m := IssueCommand(u, s.(cq := f.0), f.1.cmd); m.Some? && StillDue(u, m.value, n, r, clk, d) && m.value.cq.inRef
  {
    hide Balanced, OrderOk, ModeOk, Legal, Replay, RefIndices, GetCommandToIssue, Issue, Account, Chosen, Due, IssueCommand, Sound;
    var x := f.1.cmd;
    IssueSearched(u, s, f.0, x);
    SearchAvoidsRank(u, s.chan, s.cq, s.clk, f, s.chan.refreshQ[0]);
    IssuedCommand(u, s.(cq := f.0), x);
    IssuedRefreshQ(u, s.(cq := f.0), x);
    SearchedKind(u, s.chan, s.cq, s.clk, f);
    var p :| Due(u.dram, s.chan, r, clk, p, d);
    DueAfterOther(u.dram, s.chan, x, s.clk, r, clk, p, d);
  }

  lemma SearchedKind(u: Setup, s: Chan, cq: CmdQ, clk: nat, f: (CmdQ, Reply))
    requires ChanOk(u.dram, s) && QueuesAskable(u, s, cq) && SearchOk(u, s, cq, clk, f) && f.1.Go?
    ensures !f.1.cmd.IsRefresh() && f.0.inRef == cq.inRef
  {
    var x := f.1.cmd;
    var n, i :| 0 <= n < |cq.queues| && !Blocked(cq, n) && Chosen(u, s, cq.queues[n], clk, x, i) && Taken(cq, f.0, x, n);
    ChosenIsEntry(u, s, cq.queues[n], clk, x, i);
  }

  lemma IssuedRefreshQ(u: Setup, s: Ctrl, x: Command)
    requires QueuesAskable(u, s.chan, s.cq) && Addressed(u.dram, x) && IssueCommand(u, s, x).Some?
    ensures var m := IssueCommand(u, s, x).value; m.cq == s.cq && m.chan.refreshQ == RefreshDone(s.chan.refreshQ, x)
  {
  }

  lemma SecondAfter(u: Setup, s: Ctrl, x: Command, a: Ctrl, n: nat, r: int, clk: nat, d: int)
    requires Inv(u, s) && Inv(u, a) && QueuesAskable(u, a.chan, a.cq) && a.clk == s.clk
    requires Sound(u.dram, s.chan, x, s.clk) && Some(a.chan) == Issue(u.dram, s.chan, x, s.clk)
    requires a.cq.inRef && StillDue(u, a, n, r, clk, d)
    ensures var m := if u.dual then SecondCommand(u, a, x) else Some(a); m.Some? && StillDue(u, m.value, n, r, clk, d)
  {
    hide Inv, Sound, Issue, StillDue, SecondCommand;
    if u.dual {
      if DualSafe(u) && x.IsReadWrite() { HeldAfter(u, s, x, a); }
      SecondAvoidsRank(u, a, x, n, r, clk, d);
    }
  }

  lemma HeldAfter(u: Setup, s: Ctrl, x: Command, a: Ctrl)
    requires Inv(u, s) && u.dual && DualSafe(u) && a.clk == s.clk && x.IsReadWrite()
    requires Sound(u.dram, s.chan, x, s.clk) && Some(a.chan) == Issue(u.dram, s.chan, x, s.clk)
    ensures ColumnsHeld(a.chan, a.clk)
  {
    hide Issue, Sound, BooksOk, TraceOk, RefreshOk;
    ColumnsAreHeld(u.dram, s.chan, x, s.clk);
  }

  /** Refresh work of one cycle, before any second command: the refresh itself, or a precharge towards it. */
  lemma WorkProgress(u: Setup, s: Ctrl, n: nat, r: int, d: int)
    requires Inv(u, s) && Callable(u, s) && SaneRowTimes(u.dram) && n <= |s.trace|
    requires StillDue(u, s, n, r, s.clk, d)
    ensures var f := FinishRefresh(u, s.chan, s.cq, s.clk);
      && (f.1.NotReady? ==> f.0.inRef && StillDue(u, s.(cq := f.0), n, r, s.clk + 1, d))
      && (f.1.Go? ==>
            var a := IssueCommand(u, s.(cq := f.0), f.1.cmd);
            && a.Some? && a.value.clk == s.clk
            && if f.1.cmd.IsRefresh() then RefreshedAt(a.value.trace, n, r, d, |s.trace|)
               else a.value.cq.inRef && StillDue(u, a.value, n, r, s.clk + 1, d))
  {
    hide Balanced, OrderOk, ModeOk, Legal, Replay, RefIndices, Issue, Account, Due, IssueCommand, ChanReply;
    var ref, f := s.chan.refreshQ[0], FinishRefresh(u, s.chan, s.cq, s.clk);
    assert RefreshKind(u, ref);
    var p :| Due(u.dram, s.chan, r, s.clk, p, d);
    IssueRefreshWork(u, s);
    RefreshReply(u.dram, s.chan, ref, s.clk);
    if f.1.NotReady? {
      DueAfterWait(u.dram, s.chan, ref, s.clk, p, d);
    } else {
      var x := f.1.cmd;
      IssuedCommand(u, s.(cq := f.0), x);
      IssuedRefreshQ(u, s.(cq := f.0), x);
      DueInTime(u.dram, s.chan, r, s.clk, p, d);
      if !x.IsRefresh() {
        DueAfterPrecharge(u.dram, s.chan, x, r, s.clk, p, d);
      }
    }
  }

  lemma DueInTime(c: Config, s: Chan, r: int, clk: nat, p: int, d: int)
    requires Due(c, s, r, clk, p, d)
    ensures clk <= d
  {
  }

  /** One cycle's issuing: the pending refresh goes out, or stays due with the rank otherwise untouched. */
  lemma StageProgress(u: Setup, s: Ctrl, n: nat, r: int, d: int)
    requires Inv(u, s) && Callable(u, s) && SaneRowTimes(u.dram) && n <= |s.trace|
    requires StillDue(u, s, n, r, s.clk, d)
    ensures var m := IssueStage(u, s);
      m.Some? && (Refreshed(m.value.trace, n, r, d) || StillDue(u, m.value, n, r, s.clk + 1, d))
  {
    hide BooksOk, ChannelOk, RefreshOk, StillDue, GetCommandToIssue, Issue, IssueCommand, SecondCommand, FinishRefresh, Sound, Chosen, RefreshedAt;
    assert s.chan.refreshQ != [] by { DueIsPending(u, s, n, r, s.clk, d); }
    WorkProgress(u, s, n, r, d);
    IssueStageKeepsInv(u, s);
    var f := FinishRefresh(u, s.chan, s.cq, s.clk);
    IssueRefreshWork(u, s);
    if f.1.NotReady? {
      var m := s.(cq := f.0);
      SearchOf(u, m);
      var g := GetCommandToIssue(u, s.chan, f.0, s.clk, u.NumQueues());
      if g.1.Go? {
        IssueOther(u, m, g, n, r, s.clk + 1, d);
        IssueSearched(u, m, g.0, g.1.cmd);
        IssuedCommand(u, m.(cq := g.0), g.1.cmd);
        SecondAfter(u, m, g.1.cmd, IssueCommand(u, m.(cq := g.0), g.1.cmd).value, n, r, s.clk + 1, d);
      } else {
        DueIgnoresIdx(u, m, g.0, n, r, s.clk + 1, d);
      }
    } else {
      var a := IssueCommand(u, s.(cq := f.0), f.1.cmd).value;
      IssuedCommand(u, s.(cq := f.0), f.1.cmd);
      if f.1.cmd.IsRefresh() {
        RefreshWorkIsNoWrite(u, s);
        if u.dual { SecondKeepsInv(u, a, f.1.cmd); }
        RefreshedExtends(a.trace, IssueStage(u, s).value.trace, n, r, d, |s.trace|);
      } else {
        SecondAfter(u, s, f.1.cmd, a, n, r, s.clk + 1, d);
      }
    }
  }

  lemma DueIsPending(u: Setup, s: Ctrl, n: nat, r: int, clk: nat, d: int)
    requires StillDue(u, s, n, r, clk, d)
    ensures Pending(s, r)
  {
  }

  lemma DueIgnoresIdx(u: Setup, s: Ctrl, cq: CmdQ, n: nat, r: int, clk: nat, d: int)
    requires StillDue(u, s, n, r, clk, d)
    ensures StillDue(u, s.(cq := cq), n, r, clk, d)
  {
    var p :| Due(u.dram, s.chan, r, clk, p, d);
    assert Due(u.dram, s.(cq := cq).chan, r, clk, p, d);
  }

  lemma SearchOf(u: Setup, s: Ctrl)
    requires Inv(u, s) && QueuesAskable(u, s.chan, s.cq)
    ensures SearchOk(u, s.chan, s.cq, s.clk, GetCommandToIssue(u, s.chan, s.cq, s.clk, u.NumQueues()))
  {
    hide Balanced, OrderOk, ModeOk, TraceOk, RefreshOk, SearchOk, GetCommandToIssue;
    SearchIsOk(u, s.chan, s.cq, s.clk, u.NumQueues());
  }

  lemma RefreshedExtends(h: seq<Issued>, h': seq<Issued>, n: nat, r: int, d: int, m: int)
    requires RefreshedAt(h, n, r, d, m) && h <= h'
    ensures Refreshed(h', n, r, d)
  {
    assert RefreshedAt(h', n, r, d, m);
  }

  // ---- Whole runs ---------------------------------------------------------------------------------------------------

  /** The refresh has gone out in time, or it is still pending with time left. */
  ghost predicate Served(u: Setup, s: Ctrl, n: nat, r: int, d: int) {
    n <= |s.trace| && (Refreshed(s.trace, n, r, d) || StillDue(u, s, n, r, s.clk, d))
  }

  lemma BeginKeepsDue(u: Setup, s: Ctrl, n: nat, r: int, clk: nat, d: int)
    requires Callable(u, s) && StillDue(u, s, n, r, clk, d)
    ensures StillDue(u, BeginTick(u, s), n, r, clk, d)
  {
    var p :| Due(u.dram, s.chan, r, clk, p, d);
    var b := BeginTick(u, s);
    assert OpenBanks(b.chan, r) == OpenBanks(s.chan, r);
    assert Due(u.dram, b.chan, r, clk, p, d);
  }

  lemma EndKeepsDue(u: Setup, s: Ctrl, n: nat, r: int, clk: nat, d: int)
    requires u.WellFormed() && |s.cq.queues| == u.NumQueues() && StillDue(u, s, n, r, clk, d)
    ensures StillDue(u, EndTick(u, s), n, r, clk, d)
  {
    hide EndTick, Due;
    EndShape(u, s);
    var p :| Due(u.dram, s.chan, r, clk, p, d);
    assert Due(u.dram, EndTick(u, s).chan, r, clk, p, d);
  }

  lemma RefreshedLonger(h: seq<Issued>, h': seq<Issued>, n: nat, r: int, d: int)
    requires Refreshed(h, n, r, d) && h <= h'
    ensures Refreshed(h', n, r, d)
  {
    var m :| RefreshedAt(h, n, r, d, m);
    RefreshedExtends(h, h', n, r, d, m);
  }

  lemma TickServes(u: Setup, s: Ctrl, n: nat, r: int, d: int)
    requires Inv(u, s) && SaneRowTimes(u.dram) && Served(u, s, n, r, d)
    ensures Callable(u, s) && ClockTick(u, s).Some? && Served(u, ClockTick(u, s).value, n, r, d)
  {
    hide Inv, BeginTick, IssueStage, EndTick, StillDue, Refreshed;
    TickKeepsInv(u, s);
    var s' := ClockTick(u, s).value;
    if Refreshed(s.trace, n, r, d) {
      RefreshedLonger(s.trace, s'.trace, n, r, d);
    } else {
      BeginKeepsInv(u, s);
      BeginKeepsDue(u, s, n, r, s.clk, d);
      BeginShape(u, s);
      var b := BeginTick(u, s);
      StageProgress(u, b, n, r, d);
      var m := IssueStage(u, b).value;
      IssueStageKeepsInv(u, b);
      ClockHeld(u, b);
      EndShape(u, m);
      if StillDue(u, m, n, r, s.clk + 1, d) { EndKeepsDue(u, m, n, r, s.clk + 1, d); }
    }
  }

  lemma ClockHeld(u: Setup, s: Ctrl)
    requires Callable(u, s) && IssueStage(u, s).Some?
    ensures IssueStage(u, s).value.clk == s.clk
  {
    hide Choose, GetCommandToIssue, Issue, QueuesAskable;
  }

  lemma StepServes(u: Setup, y: System, e: Event, n: nat, r: int, d: int)
    requires SystemOk(u, y) && SaneRowTimes(u.dram) && Served(u, y.ctrl, n, r, d)
    ensures Step(u, y, e).Some? && Served(u, Step(u, y, e).value.ctrl, n, r, d)
  {
    hide Inv, ClockTick, Refreshed, Due, Callable;
    if e.Cycle? {
      TickServes(u, y.ctrl, n, r, d);
    } else {
      StepKeepsOk(u, y, e);
      var s, s' := y.ctrl, Step(u, y, e).value.ctrl;
      assert s'.trace == s.trace && s'.clk == s.clk && s'.chan == s.chan;
    }
  }

  lemma {:induction false} StepsServe(u: Setup, y: System, es: seq<Event>, n: nat, r: int, d: int)
    requires SystemOk(u, y) && SaneRowTimes(u.dram) && Served(u, y.ctrl, n, r, d)
    ensures Steps(u, y, es).Some? && Served(u, Steps(u, y, es).value.ctrl, n, r, d)
  {
    hide SystemOk, Served, Step;
    if es != [] {
      StepsServe(u, y, es[..|es| - 1], n, r, d);
      StepsKeepOk(u, y, es[..|es| - 1]);
      StepServes(u, Steps(u, y, es[..|es| - 1]).value, es[|es| - 1], n, r, d);
    }
  }

  /**
   * From any reachable state whose oldest refresh request is for rank r and due by d: every run that passes time d
   * has issued that refresh at a time at most d, and before it the rank saw nothing but precharges.
   */
  lemma RefreshMeetsDeadline(u: Setup, y: System, es: seq<Event>, r: int, p: int, d: int)
    requires SystemOk(u, y) && SaneRowTimes(u.dram)
    requires Pending(y.ctrl, r) && Due(u.dram, y.ctrl.chan, r, y.ctrl.clk, p, d)
    ensures Steps(u, y, es).Some?
    ensures var s := Steps(u, y, es).value.ctrl;
      && (Refreshed(s.trace, |y.ctrl.trace|, r, d) || OnlyPrecharges(s.trace, |y.ctrl.trace|, r))
      && (s.clk > d ==> Refreshed(s.trace, |y.ctrl.trace|, r, d))
  {
    hide SystemOk, Steps;
    var n := |y.ctrl.trace|;
    assert Served(u, y.ctrl, n, r, d);
    StepsServe(u, y, es, n, r, d);
  }

  /** While a rank only sees precharges, no bank of it is precharged twice. */
  lemma PrechargedOnce(c: Config, h: seq<Issued>, n: nat, r: int, i: nat, j: nat)
    requires c.WellFormed() && Legal(c, h) && n <= i < j < |h|
    requires forall m :: n <= m <= j && h[m].cmd.rank == r ==> h[m].cmd.kind.Precharge?
    requires h[i].cmd.rank == h[j].cmd.rank == r
    ensures h[i].cmd.At() != h[j].cmd.At()
  {
    hide Legal, Replay;
    var l := h[j].cmd.At();
    LegalIsSound(c, h, j);
    LegalPrefix(c, h, j);
    OpenRowIsHistory(c, h[..j], l);
    assert h[j].cmd.Touches(l);
    var row := Replay(c, h[..j]).value.banks[l].openRow;
    assert RowOpen(h[..j], l, row);
    var k :| OpenedBy(h[..j], l, row, k);
    assert k < n;
    assert !Closes(h[..j][i].cmd, l);
  }

  /** Requests leave the list in the order they came: only the oldest is ever issued. */
  lemma RefreshIsFifo(u: Setup, s: Ctrl)
    requires Inv(u, s) && Callable(u, s) && s.chan.refreshQ != []
    ensures var f := FinishRefresh(u, s.chan, s.cq, s.clk);
      f.1.Go? && f.1.cmd.IsRefresh() ==>
        f.1.cmd == s.chan.refreshQ[0] && RefreshDone(s.chan.refreshQ, f.1.cmd) == s.chan.refreshQ[1..]
  {
    assert RefreshKind(u, s.chan.refreshQ[0]);
    RefreshReply(u.dram, s.chan, s.chan.refreshQ[0], s.clk);
  }
}
