/** The command queue and the controller as objects with loops, refined to `Queueing`. */
module ControllerImpl {
  import opened Commands
  import opened Timing
  import opened Channel
  import opened ChannelHistory
  import opened ChannelStateImpl
  import opened Queueing

  /** The entry found first is the one that is removed; none is removed when none matches. */
  lemma {:induction false} EraseAt(q: seq<Command>, cmd: Command, i: int)
    requires 0 <= i <= |q| && forall k :: 0 <= k < i ==> !(q[k].hexAddr == cmd.hexAddr && q[k].kind == cmd.kind)
    requires i < |q| ==> q[i].hexAddr == cmd.hexAddr && q[i].kind == cmd.kind
    ensures EraseRW(q, cmd) == if i == |q| then None else Some(q[..i] + q[i + 1..])
  {
    if i > 0 {
      EraseAt(q[1..], cmd, i - 1);
      if i < |q| { assert [q[0]] + (q[1..][..i - 1] + q[1..][i..]) == q[..i] + q[i + 1..]; }
    } else if |q| > 0 {
      assert q[..0] + q[1..] == q[1..];
    }
  }

  /** Whether the queues can be asked does not depend on the refresh list. */
  lemma AskableSame(u: Setup, s: Chan, s': Chan, cq: CmdQ)
    requires QueuesAskable(u, s, cq) && s' == s.(refreshQ := s'.refreshQ)
    ensures QueuesAskable(u, s', cq)
  {
  }

  class CommandQueue {
    const u: Setup
    const chan: ChannelState
    var queues: seq<seq<Command>>
    var refIdx: set<int>
    var inRef: bool
    var idx: int

    ghost function State(): CmdQ reads this { CmdQ(queues, refIdx, inRef, idx) }

    ghost predicate Valid()
      reads this, chan
    {
      chan.cfg == u.dram && QueuesAskable(u, chan.State(), State())
    }

    constructor (u: Setup, chan: ChannelState)
      requires u.dram.WellFormed() && chan.cfg == u.dram && chan.Valid()
      ensures this.u == u && this.chan == chan && Valid() && State() == InitCtrl(u).cq
    {
      SizesPositive(u);
      this.u := u;
      this.chan := chan;
      queues := seq(u.NumQueues(), _ => []);
      refIdx := {};
      inRef := false;
      idx := 0;
    }

    method DoArbitratePrecharge(q: seq<Command>, i: int) returns (yes: bool)
      requires 0 <= i < |q| && q[i].At() in chan.banks
      ensures yes <==> ArbitratePrecharge(chan.State(), q, i)
    {
      for p := 0 to i
        invariant forall k :: 0 <= k < p ==> q[k].At() != q[i].At()
      {
        if q[p].At() == q[i].At() { return false; }
      }
      var hits := false;
      var openRow := chan.banks[q[i].At()].openRow;
      for p := i to |q|
        invariant !hits && forall k :: i <= k < p ==> !(q[k].row == openRow && q[k].At() == q[i].At())
      {
        if q[p].row == openRow && q[p].At() == q[i].At() {
          hits := true;
          break;
        }
      }
      yes := !hits || chan.banks[q[i].At()].rowHits >= 4;
    }

    method DoHasRWDependency(q: seq<Command>, i: int) returns (yes: bool)
      requires 0 <= i < |q|
      ensures yes <==> HasRWDependency(q, i)
    {
      for p := 0 to i
        invariant forall k :: 0 <= k < p ==> !(q[k].IsRead() && SamePlace(q[k], q[i]))
      {
        if q[p].IsRead() && SamePlace(q[p], q[i]) { return true; }
      }
      return false;
    }

    method GetFirstReadyInQueue(q: seq<Command>, clk: nat) returns (r: Reply)
      requires chan.cfg == u.dram && Askable(u, chan.State(), q)
      ensures r == FirstReady(u, chan.State(), q, clk, 0)
    {
      hide ChanReply, ArbitratePrecharge, HasRWDependency;
      for i := 0 to |q|
        invariant FirstReady(u, chan.State(), q, clk, 0) == FirstReady(u, chan.State(), q, clk, i)
      {
        assert q[i] in q;
        r := chan.GetReadyCommand(q[i], clk);
        if r.Abort? { return; }
        if r.Go? {
          var held := false;
          if r.cmd.kind.Precharge? {
            var may := DoArbitratePrecharge(q, i);
            held := !may;
          } else if r.cmd.IsWrite() {
            held := DoHasRWDependency(q, i);
          }
          if !held { return; }
        }
      }
      return NotReady;
    }

    /** Removes the entry of a column command; false where the program exits because it is not there. */
    method EraseRWCommand(cmd: Command) returns (ok: bool)
      requires Valid() && u.dram.Holds(cmd.At())
      modifies this`queues
      ensures 0 <= u.QueueIndex(cmd.At()) < |old(queues)|
      ensures var q := EraseRW(old(queues)[u.QueueIndex(cmd.At())], cmd);
        && (ok <==> q.Some?)
        && queues == if ok then old(queues)[u.QueueIndex(cmd.At()) := q.value] else old(queues)
    {
      IndexInRange(u, cmd.At());
      var n := u.QueueIndex(cmd.At());
      var q := queues[n];
      ghost var all := queues;
      for i := 0 to |q|
        invariant queues == all
        invariant forall k :: 0 <= k < i ==> !(q[k].hexAddr == cmd.hexAddr && q[k].kind == cmd.kind)
      {
        if q[i].hexAddr == cmd.hexAddr && q[i].kind == cmd.kind {
          queues := queues[n := q[..i] + q[i + 1..]];
          EraseAt(q, cmd, i);
          return true;
        }
      }
      EraseAt(q, cmd, |q|);
      return false;
    }

    /** Takes a chosen command out of its queue if it is a column command. */
    method Take(x: Command) returns (r: Reply)
      requires Valid() && Addressed(u.dram, x)
      modifies this`queues
      ensures Valid() && (State(), r) == Dispatch(u, chan.State(), old(State()), x)
    {
      r := Go(x);
      if x.IsReadWrite() {
        var ok := EraseRWCommand(x);
        if !ok { r := Abort; }
      }
    }

    method DoGetCommandToIssue(clk: nat) returns (r: Reply)
      requires Valid()
      modifies this`idx, this`queues
      ensures Valid() && (State(), r) == GetCommandToIssue(u, chan.State(), old(State()), clk, u.NumQueues())
    {
      hide FirstReady, Dispatch, Askable;
      ghost var want := GetCommandToIssue(u, chan.State(), State(), clk, u.NumQueues());
      for i := 0 to u.NumQueues()
        invariant Valid()
        invariant want == GetCommandToIssue(u, chan.State(), State(), clk, u.NumQueues() - i)
      {
        idx := idx + 1;
        if idx == |queues| { idx := 0; }
        if !(inRef && idx in refIdx) {
          r := GetFirstReadyInQueue(queues[idx], clk);
          if r.Abort? { return; }
          if r.Go? {
            r := Take(r.cmd);
            return;
          }
        }
      }
      return NotReady;
    }

    /** Queues the refresh keeps from issuing, collected by the loop over all queues. */
    method GetRefQIndices(ref: Command) returns (indices: set<int>)
      requires u.dram.WellFormed()
      ensures indices == RefIndices(u, ref)
    {
      SizesPositive(u);
      indices := {};
      if ref.kind.Refresh? {
        if u.perBank {
          for i := 0 to u.NumQueues()
            invariant indices == set k | 0 <= k < i && k / u.dram.Banks() == ref.rank
          {
            if i / u.dram.Banks() == ref.rank { indices := indices + {i}; }
          }
        } else {
          indices := {ref.rank};
        }
      } else {
        indices := {u.QueueIndex(ref.At())};
      }
    }

    method DoFinishRefresh(clk: nat) returns (r: Reply)
      requires Valid() && chan.refreshQ != [] && Addressed(u.dram, chan.refreshQ[0])
      modifies this`refIdx, this`inRef
      ensures Valid() && (State(), r) == FinishRefresh(u, chan.State(), old(State()), clk)
    {
      var ref := chan.refreshQ[0];
      if !inRef {
        var more := GetRefQIndices(ref);
        refIdx := refIdx + more;
        inRef := true;
      }
      r := chan.GetReadyCommand(ref, clk);
      if r.Go? && r.cmd.IsRefresh() {
        refIdx := {};
        inRef := false;
      }
    }

    method WillAcceptCommand(l: Loc) returns (yes: bool)
      requires Valid() && u.dram.Holds(l)
      ensures 0 <= u.QueueIndex(l) < |queues| && (yes <==> |queues[u.QueueIndex(l)]| < u.cmdQueueSize)
    {
      IndexInRange(u, l);
      yes := |queues[u.QueueIndex(l)]| < u.cmdQueueSize;
    }

    method AddCommand(cmd: Command) returns (ok: bool)
      requires Valid() && u.dram.Holds(cmd.At()) && cmd.IsReadWrite()
      modifies this`queues
      ensures Valid() && 0 <= u.QueueIndex(cmd.At()) < |old(queues)|
      ensures ok <==> |old(queues)[u.QueueIndex(cmd.At())]| < u.cmdQueueSize
      ensures queues == if ok
        then old(queues)[u.QueueIndex(cmd.At()) := old(queues)[u.QueueIndex(cmd.At())] + [cmd]] else old(queues)
    {
      IndexInRange(u, cmd.At());
      var n := u.QueueIndex(cmd.At());
      ok := |queues[n]| < u.cmdQueueSize;
      if ok { queues := queues[n := queues[n] + [cmd]]; }
    }

    method DoQueueEmpty() returns (yes: bool)
      ensures yes <==> QueueEmpty(State())
    {
      for n := 0 to |queues|
        invariant forall k :: 0 <= k < n ==> queues[k] == []
      {
        if queues[n] != [] { return false; }
      }
      return true;
    }
  }

  class Controller {
    const u: Setup
    const chan: ChannelState
    const cq: CommandQueue
    var clk: nat
    var refresh: Counter
    var unifiedQ: seq<Trans>
    var readQ: seq<Trans>
    var writeBuf: seq<Trans>
    var pendingRd: Pending
    var pendingWr: Pending
    var returnQ: seq<Trans>
    var draining: int
    var trace: seq<Issued>

    ghost function State(): Ctrl
      reads this, chan, cq
    {
      Ctrl(clk, chan.State(), cq.State(), refresh, unifiedQ, readQ, writeBuf, pendingRd, pendingWr, returnQ, draining, trace)
    }

    ghost predicate Valid()
      reads this, chan, cq
    {
      cq.u == u && cq.chan == chan && cq.Valid()
    }

    constructor (u: Setup)
      requires u.WellFormed()
      ensures this.u == u && Valid() && State() == InitCtrl(u) && fresh(chan) && fresh(cq)
    {
      this.u := u;
      var chan := new ChannelState(u.dram);
      this.chan := chan;
      cq := new CommandQueue(u, chan);
      clk := 0;
      refresh := Counter(0, 0, 0, 0);
      unifiedQ, readQ, writeBuf, returnQ := [], [], [], [];
      pendingRd, pendingWr := map[], map[];
      draining := 0;
      trace := [];
    }

    method DoAddTransaction(addr: nat, isWrite: bool)
      requires Valid() && WillAcceptTransaction(u, State(), isWrite)
      modifies this
      ensures Valid() && State() == AddTransaction(u, old(State()), addr, isWrite)
    {
      var t := Trans(addr, isWrite, clk, 0);
      if isWrite {
        if At(pendingWr, addr) == [] {
          pendingWr := Insert(pendingWr, t);
          if u.unified { unifiedQ := unifiedQ + [t]; } else { writeBuf := writeBuf + [t]; }
        }
        returnQ := returnQ + [t.(complete := clk + 1)];
      } else if At(pendingWr, addr) != [] {
        returnQ := returnQ + [t.(complete := clk + 1)];
      } else {
        pendingRd := Insert(pendingRd, t);
        if |At(pendingRd, addr)| == 1 {
          if u.unified { unifiedQ := unifiedQ + [t]; } else { readQ := readQ + [t]; }
        }
      }
    }

    /** The first completed transaction in list order, or nothing. */
    method DoReturnDoneTrans(now: nat) returns (t: Option<Trans>)
      requires Valid()
      modifies this`returnQ
      ensures Valid() && (State(), t) == ReturnDoneTrans(old(State()), now)
    {
      ghost var q := returnQ;
      for i := 0 to |returnQ|
        invariant returnQ == q && FirstDone(q, now) >= i
      {
        if now >= returnQ[i].complete {
          assert FirstDone(q, now) == i;
          t := Some(returnQ[i]);
          returnQ := returnQ[..i] + returnQ[i + 1..];
          return;
        }
        assert FirstDone(q, now) != i;
      }
      return None;
    }

    /** Every pending read of the address completes, oldest first; false where the program exits. */
    method AccountRead(cmd: Command) returns (ok: bool)
      requires Valid() && cmd.IsRead()
      modifies this`returnQ, this`pendingRd
      ensures ok <==> Account(u, old(State()), cmd).Some?
      ensures Valid() && State() == if ok then Account(u, old(State()), cmd).value else old(State())
    {
      var a, at := cmd.hexAddr, Later(clk, u.dram.ReadDelay());
      ghost var ts, done, all := At(pendingRd, a), returnQ, pendingRd;
      var n := |At(pendingRd, a)|;
      if n == 0 { return false; }
      while n > 0
        invariant n == |At(pendingRd, a)| && (n == 0 ==> a !in pendingRd)
        invariant returnQ + Completed(At(pendingRd, a), at) == done + Completed(ts, at)
        invariant pendingRd - {a} == all - {a}
      {
        var first, rest := At(pendingRd, a)[0], At(pendingRd, a)[1..];
        returnQ := returnQ + [first.(complete := at)];
        pendingRd := if rest == [] then pendingRd - {a} else pendingRd[a := rest];
        n := n - 1;
      }
      assert pendingRd == pendingRd - {a};
      return true;
    }

    method DoIssueCommand(cmd: Command) returns (ok: bool)
      requires Valid() && Addressed(u.dram, cmd)
      modifies this`returnQ, this`pendingRd, this`pendingWr, this`trace, chan
      ensures ok <==> IssueCommand(u, old(State()), cmd).Some?
      ensures ok ==> Valid() && State() == IssueCommand(u, old(State()), cmd).value
    {
      if cmd.IsRead() {
        ok := AccountRead(cmd);
        if !ok { return; }
      } else if cmd.IsWrite() {
        var ts := At(pendingWr, cmd.hexAddr);
        if ts == [] { return false; }
        pendingWr := pendingWr[cmd.hexAddr := ts[1..]];
      }
      ok := chan.UpdateTimingAndStates(cmd, clk);
      trace := trace + [Issued(cmd, clk)];
    }

    /** The upper and lower thresholds of the write buffer. */
    method DecideDrain()
      requires Valid()
      modifies this`draining
      ensures draining ==
        if old(draining) == 0 && !u.unified && (|writeBuf| >= u.transQueueSize || (|writeBuf| > 8 && QueueEmpty(cq.State())))
        then |writeBuf| else old(draining)
    {
      if draining == 0 && !u.unified {
        var empty := cq.DoQueueEmpty();
        if |writeBuf| >= u.transQueueSize || (|writeBuf| > 8 && empty) { draining := |writeBuf|; }
      }
    }

    method DoScheduleTransaction()
      requires Valid() && u.WellFormed()
      modifies this`draining, this`unifiedQ, this`readQ, this`writeBuf, cq`queues
      ensures Valid() && State() == ScheduleTransaction(u, old(State()))
    {
      hide Askable, Shaped, QueueEmpty, TransToCommand, Setup.QueueIndex, Setup.NumQueues, Setup.WellFormed, At, Config.WellFormed;
      DecideDrain();
      var q := if u.unified then unifiedQ else if draining > 0 then writeBuf else readQ;
      if q == [] { return; }
      var t := q[0];
      var cmd := TransToCommand(u, t.isWrite, t.addr);
      CommandInRange(u, t.isWrite, t.addr);
      var room := cq.WillAcceptCommand(cmd.At());
      if !room { return; }
      var drains := draining > 0;
      if !u.unified && t.isWrite {
        if At(pendingRd, t.addr) != [] {
          draining := 0;
          return;
        }
        draining := draining - 1;
      }
      var added := cq.AddCommand(cmd);
      assert added;
      if u.unified { unifiedQ := q[1..]; } else if drains { writeBuf := q[1..]; } else { readQ := q[1..]; }
    }

    method DoRefreshTick()
      requires Valid() && Callable(u, State())
      modifies this`refresh, chan`refreshQ
      ensures Valid() && State() == BeginTick(u, old(State()))
    {
      hide Askable;
      if refresh.clk % RefreshInterval(u) == 0 && refresh.clk > 0 {
        match u.policy {
          case RankSimultaneous => chan.RankNeedRefresh(0, true);
          case RankStaggered => chan.RankNeedRefresh(refresh.rank, true);
          case BankStaggered => chan.BankNeedRefresh(Loc(refresh.rank, refresh.bankgroup, refresh.bank), true);
        }
        refresh := IterateNext(u, refresh);
      }
      refresh := refresh.(clk := refresh.clk + 1);
      AskableSame(u, old(chan.State()), chan.State(), cq.State());
    }

    /** The commands of one cycle; false where the program exits. */
    method IssueAll() returns (ok: bool)
      requires Valid() && Callable(u, State())
      modifies this`returnQ, this`pendingRd, this`pendingWr, this`trace, chan, cq
      ensures ok <==> IssueStage(u, old(State())).Some?
      ensures ok ==> Valid() && State() == IssueStage(u, old(State())).value
    {
      hide Issue, Account, FirstReady, ChanReply, RefIndices, SecondCommand;
      var r := NotReady;
      if chan.refreshQ != [] { r := cq.DoFinishRefresh(clk); }
      if r.NotReady? { r := cq.DoGetCommandToIssue(clk); }
      if r.Abort? { return false; }
      if r.NotReady? { return true; }
      var first := r.cmd;
      ok := DoIssueCommand(first);
      if ok && u.dual { ok := IssueSecond(first); }
    }

    /** The second command of a dual-command cycle; one of the same class as the first is dropped. */
    method IssueSecond(first: Command) returns (ok: bool)
      requires Valid()
      modifies this`returnQ, this`pendingRd, this`pendingWr, this`trace, chan, cq`idx, cq`queues
      ensures ok <==> SecondCommand(u, old(State()), first).Some?
      ensures ok ==> Valid() && State() == SecondCommand(u, old(State()), first).value
    {
      hide Issue, Account, FirstReady, ChanReply;
      var r := cq.DoGetCommandToIssue(clk);
      if r.Abort? { return false; }
      ok := true;
      if r.Go? && r.cmd.IsReadWrite() != first.IsReadWrite() { ok := DoIssueCommand(r.cmd); }
    }

    method DoClockTick() returns (ok: bool)
      requires Valid() && Callable(u, State())
      modifies this, chan, cq
      ensures ok <==> ClockTick(u, old(State())).Some?
      ensures ok ==> Valid() && State() == ClockTick(u, old(State())).value
    {
      hide IssueStage, BeginTick, ScheduleTransaction;
      DoRefreshTick();
      ok := IssueAll();
      if ok {
        DoScheduleTransaction();
        clk := clk + 1;
      }
    }
  }
}
