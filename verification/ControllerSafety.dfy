/** What holds in every reachable controller state: queues, pending maps and command trace agree. */
module ControllerSafety {
  import opened Commands
  import opened Timing
  import opened Channel
  import opened ChannelHistory
  import opened Address
  import opened Queueing

  // ---- The invariant ----------------------------------------------------------------------------------------

  /** A transaction or command, reduced to what the accounting is about. */
  datatype Tok = Tok(write: bool, addr: int)

  function TokT(t: Trans): Tok { Tok(t.isWrite, t.addr) }

  function TokC(c: Command): Tok { Tok(c.IsWrite(), c.hexAddr) }

  ghost function ToksT(q: seq<Trans>): seq<Tok> { seq(|q|, i requires 0 <= i < |q| => TokT(q[i])) }

  ghost function ToksC(q: seq<Command>): seq<Tok> { seq(|q|, i requires 0 <= i < |q| => TokC(q[i])) }

  /** A queued command is the translation of its transaction. */
  predicate CmdOk(u: Setup, x: Command) {
    x.hexAddr >= 0 && x == TransToCommand(u, x.IsWrite(), x.hexAddr)
  }

  function Home(u: Setup, addr: nat): int { u.QueueIndex(TransToCommand(u, false, addr).At()) }

  ghost predicate QueuesOk(u: Setup, cq: CmdQ) {
    && |cq.queues| == u.NumQueues() && 0 <= cq.idx < |cq.queues|
    && forall n, x :: 0 <= n < |cq.queues| && x in cq.queues[n] ==> CmdOk(u, x) && u.QueueIndex(x.At()) == n
  }

  ghost function Unscheduled(s: Ctrl, t: Tok): nat {
    multiset(ToksT(s.unifiedQ))[t] + multiset(ToksT(s.readQ))[t] + multiset(ToksT(s.writeBuf))[t]
  }

  ghost function Scheduled(u: Setup, cq: CmdQ, t: Tok): nat
    requires u.WellFormed() && |cq.queues| == u.NumQueues() && t.addr >= 0
  {
    HomeInRange(u, t.addr);
    multiset(ToksC(cq.queues[Home(u, t.addr)]))[t]
  }

  /** Transactions and commands still waiting to issue for this address and direction. */
  ghost function Waiting(u: Setup, s: Ctrl, t: Tok): nat
    requires u.WellFormed() && |s.cq.queues| == u.NumQueues() && t.addr >= 0
  {
    Unscheduled(s, t) + Scheduled(u, s.cq, t)
  }

  lemma HomeInRange(u: Setup, addr: nat)
    requires u.WellFormed()
    ensures 0 <= Home(u, addr) < u.NumQueues()
  {
    CommandInRange(u, false, addr);
    IndexInRange(u, TransToCommand(u, false, addr).At());
  }

  /** One waiting read per address with pending reads, one waiting write per pending write, never two of either. */
  ghost function Owing(s: Ctrl, t: Tok): nat {
    if t.write then |At(s.pendingWr, t.addr)| else if At(s.pendingRd, t.addr) == [] then 0 else 1
  }

  /** Every delay from a column command to a column command is at least one cycle. */
  predicate ColumnGapsPositive(c: Config) {
    && c.CcdL() > 0 && c.CcdS() > 0 && c.ReadToWrite() > 0 && c.WriteToReadL() > 0 && c.WriteToReadS() > 0
    && (c.ranks >= 2 ==>
          c.ReadToReadO() > 0 && c.ReadToWriteO() > 0 && c.WriteToReadO() > 0 && c.WriteToWriteO() > 0)
  }

  /** A configuration in which a dual-command cycle cannot find two column commands. */
  predicate DualSafe(u: Setup) { u.dual ==> ColumnGapsPositive(u.dram) }

  /** Nothing waits that is not owed; in a safe configuration nothing is owed that does not wait. */
  ghost predicate BalancedAt(u: Setup, s: Ctrl, t: Tok)
    requires u.WellFormed() && |s.cq.queues| == u.NumQueues() && t.addr >= 0
  {
    Waiting(u, s, t) <= Owing(s, t) <= 1 && (DualSafe(u) ==> Waiting(u, s, t) == Owing(s, t))
  }

  ghost predicate Balanced(u: Setup, s: Ctrl)
    requires u.WellFormed() && |s.cq.queues| == u.NumQueues()
  {
    forall t: Tok :: t.addr >= 0 ==> BalancedAt(u, s, t)
  }

  /** No write is queued ahead of a read of its address. */
  ghost predicate ReadsFirst(ts: seq<Tok>) {
    forall i, j :: 0 <= i < j < |ts| && ts[i].write && !ts[j].write ==> ts[i].addr != ts[j].addr
  }

  /** A write that reached its command queue has no read of its address waiting behind it or still unscheduled. */
  ghost predicate OrderOk(u: Setup, s: Ctrl) {
    && ReadsFirst(ToksT(s.unifiedQ))
    && (forall n :: 0 <= n < |s.cq.queues| ==> ReadsFirst(ToksC(s.cq.queues[n])))
    && forall n, x :: 0 <= n < |s.cq.queues| && x in s.cq.queues[n] && x.IsWrite() ==>
         Tok(false, x.hexAddr) !in ToksT(s.unifiedQ) && Tok(false, x.hexAddr) !in ToksT(s.readQ)
  }

  ghost predicate ModeOk(u: Setup, s: Ctrl) {
    && (forall t :: t in s.readQ ==> !t.isWrite) && (forall t :: t in s.writeBuf ==> t.isWrite)
    && (if u.unified then s.readQ == [] && s.writeBuf == [] else s.unifiedQ == [])
    && 0 <= s.draining <= |s.writeBuf|
  }

  predicate RefreshKind(u: Setup, x: Command) {
    IsRequest(u.dram, x) && if u.policy.BankStaggered? then x.kind.RefreshBank? else x.kind.Refresh?
  }

  /** Refresh work in progress is always for the oldest request. */
  ghost predicate RefreshOk(u: Setup, s: Ctrl)
    requires u.dram.WellFormed()
  {
    && (forall i :: 0 <= i < |s.chan.refreshQ| ==> RefreshKind(u, s.chan.refreshQ[i]))
    && RefreshKind(u, NextRefresh(u, s.refresh))
    && (if s.cq.inRef then s.chan.refreshQ != [] && s.cq.refIdx == RefIndices(u, s.chan.refreshQ[0])
        else s.cq.refIdx == {})
  }

  /** The command trace is a legal history that ends in the present channel state. */
  ghost predicate TraceOk(u: Setup, s: Ctrl)
    requires u.dram.WellFormed()
  {
    && Legal(u.dram, s.trace)
    && Replay(u.dram, s.trace) == Some(s.chan.(refreshQ := []))
    && forall i :: 0 <= i < |s.trace| ==> s.trace[i].clk <= s.clk
  }

  /** The queues, maps and modes of the invariant. */
  ghost predicate BooksOk(u: Setup, s: Ctrl) {
    u.WellFormed() && QueuesOk(u, s.cq) && Balanced(u, s) && OrderOk(u, s) && ModeOk(u, s)
  }

  /** The channel side of the invariant. */
  ghost predicate ChannelOk(u: Setup, s: Ctrl) {
    u.WellFormed() && ChanOk(u.dram, s.chan) && TraceOk(u, s)
  }

  ghost predicate Inv(u: Setup, s: Ctrl) {
    BooksOk(u, s) && RefreshInterval(u) > 0 && ChannelOk(u, s) && RefreshOk(u, s)
  }

  lemma QueuesOkAskable(u: Setup, c: Chan, cq: CmdQ)
    requires u.WellFormed() && ChanOk(u.dram, c) && QueuesOk(u, cq)
    ensures QueuesAskable(u, c, cq)
  {
    forall n, x | 0 <= n < |cq.queues| && x in cq.queues[n] ensures x.IsReadWrite() && u.dram.Holds(x.At()) {
      assert CmdOk(u, x);
      CommandInRange(u, x.IsWrite(), x.hexAddr);
    }
  }

  lemma InvCallable(u: Setup, s: Ctrl)
    requires Inv(u, s)
    ensures Callable(u, s)
  {
    QueuesOkAskable(u, s.chan, s.cq);
  }

  // ---- Choosing a command ---------------------------------------------------------------------------------------

  /** Entry i of queue n is what x answers, and nothing holds it back. */
  ghost predicate Chosen(u: Setup, s: Chan, q: seq<Command>, clk: nat, x: Command, i: int)
    requires Askable(u, s, q)
  {
    0 <= i < |q| && q[i] in q && ChanReply(u.dram, s, q[i], clk) == Go(x) && !HeldBack(s, q, i, x)
  }

  lemma {:induction false} FirstReadyIsChosen(u: Setup, s: Chan, q: seq<Command>, clk: nat, i: int)
    requires Askable(u, s, q) && ChanOk(u.dram, s) && 0 <= i <= |q|
    ensures var r := FirstReady(u, s, q, clk, i);
      && !r.Abort?
      && (r.Go? ==> Sound(u.dram, s, r.cmd, clk) && exists j :: Chosen(u, s, q, clk, r.cmd, j))
    decreases |q| - i
  {
    if i < |q| {
      assert q[i] in q;
      AnswerIsSound(u.dram, s, q[i], clk);
      var r := ChanReply(u.dram, s, q[i], clk);
      if r.NotReady? || (r.Go? && HeldBack(s, q, i, r.cmd)) {
        FirstReadyIsChosen(u, s, q, clk, i + 1);
      } else {
        assert Chosen(u, s, q, clk, r.cmd, i);
      }
    }
  }

  /** A chosen column command is the queue entry itself. */
  lemma ChosenIsEntry(u: Setup, s: Chan, q: seq<Command>, clk: nat, x: Command, i: int)
    requires Askable(u, s, q) && Chosen(u, s, q, clk, x, i) && ChanOk(u.dram, s)
    ensures x.IsReadWrite() ==> x == q[i]
    ensures x.At() == q[i].At() && !x.IsRefresh()
  {
  }

  function Without<T>(q: seq<T>, i: int): seq<T>
    requires 0 <= i < |q|
  {
    q[..i] + q[i + 1..]
  }

  /** Erasing by address and type removes one equal entry. */
  lemma {:induction false} EraseRemoves(q: seq<Command>, x: Command) returns (i: int)
    requires x in q
    ensures 0 <= i < |q| && q[i].hexAddr == x.hexAddr && q[i].kind == x.kind && EraseRW(q, x) == Some(Without(q, i))
  {
    if q[0].hexAddr == x.hexAddr && q[0].kind == x.kind {
      i := 0;
      assert Without(q, 0) == q[1..];
    } else {
      var j := EraseRemoves(q[1..], x);
      i := j + 1;
      assert [q[0]] + Without(q[1..], j) == Without(q, i);
    }
  }

  /** cq' is cq after x left queue n, if x is a column command; the rotation may have moved. */
  ghost predicate Taken(cq: CmdQ, cq': CmdQ, x: Command, n: int) {
    && 0 <= n < |cq.queues| == |cq'.queues| && 0 <= cq'.idx < |cq.queues|
    && cq'.inRef == cq.inRef && cq'.refIdx == cq.refIdx
    && if x.IsReadWrite()
       then exists j :: 0 <= j < |cq.queues[n]| && cq.queues[n][j] == x && cq'.queues == cq.queues[n := Without(cq.queues[n], j)]
       else cq'.queues == cq.queues
  }

  /** The outcome of a round-robin search: nothing ready, or an entry of an unblocked queue that nothing holds back. */
  ghost predicate SearchOk(u: Setup, s: Chan, cq: CmdQ, clk: nat, r: (CmdQ, Reply))
    requires QueuesAskable(u, s, cq)
  {
    match r.1
    case Abort => false
    case NotReady => r.0 == cq.(idx := r.0.idx) && 0 <= r.0.idx < |cq.queues|
    case Go(x) =>
      && Sound(u.dram, s, x, clk)
      && exists n, i :: 0 <= n < |cq.queues| && !Blocked(cq, n) && Chosen(u, s, cq.queues[n], clk, x, i) && Taken(cq, r.0, x, n)
  }

  lemma DispatchTakes(u: Setup, s: Chan, cq: CmdQ, clk: nat, x: Command, n: int, i: int)
    requires u.WellFormed() && ChanOk(u.dram, s) && QueuesOk(u, cq) && QueuesAskable(u, s, cq)
    requires 0 <= n < |cq.queues| && Chosen(u, s, cq.queues[n], clk, x, i) && Addressed(u.dram, x)
    ensures var r := Dispatch(u, s, cq, x); r.1 == Go(x) && Taken(cq, r.0, x, n)
  {
    if x.IsReadWrite() {
      var q := cq.queues[n];
      ChosenIsEntry(u, s, q, clk, x, i);
      var j := EraseRemoves(q, x);
      assert q[j] in q;
      assert q[j] == x;
    }
  }

  lemma {:induction false} SearchIsOk(u: Setup, s: Chan, cq: CmdQ, clk: nat, tries: nat)
    requires u.WellFormed() && ChanOk(u.dram, s) && QueuesOk(u, cq) && QueuesAskable(u, s, cq)
    ensures SearchOk(u, s, cq, clk, GetCommandToIssue(u, s, cq, clk, tries))
    decreases tries
  {
    if tries > 0 {
      var cq' := cq.(idx := NextIdx(cq));
      var q := cq'.queues[cq'.idx];
      FirstReadyIsChosen(u, s, q, clk, 0);
      var r := FirstReady(u, s, q, clk, 0);
      if Blocked(cq', cq'.idx) || r.NotReady? {
        SearchIsOk(u, s, cq', clk, tries - 1);
        SearchSame(u, s, cq', cq, clk, GetCommandToIssue(u, s, cq', clk, tries - 1));
      } else {
        var i :| Chosen(u, s, q, clk, r.cmd, i);
        DispatchTakes(u, s, cq', clk, r.cmd, cq'.idx, i);
        SearchSame(u, s, cq', cq, clk, Dispatch(u, s, cq', r.cmd));
      }
    }
  }

  lemma SearchSame(u: Setup, s: Chan, a: CmdQ, b: CmdQ, clk: nat, r: (CmdQ, Reply))
    requires QueuesAskable(u, s, a) && QueuesAskable(u, s, b) && a == b.(idx := a.idx)
    requires SearchOk(u, s, a, clk, r)
    ensures SearchOk(u, s, b, clk, r)
  {
    if r.1.Go? {
      var x := r.1.cmd;
      var n, i :| 0 <= n < |a.queues| && !Blocked(a, n) && Chosen(u, s, a.queues[n], clk, x, i) && Taken(a, r.0, x, n);
      assert !Blocked(b, n) && Chosen(u, s, b.queues[n], clk, x, i) && Taken(b, r.0, x, n);
    }
  }

  // ---- Accounting ---------------------------------------------------------------------------------------------

  lemma ToksCAppend(q: seq<Command>, x: Command)
    ensures ToksC(q + [x]) == ToksC(q) + [TokC(x)]
  {
  }

  lemma ToksTAppend(q: seq<Trans>, x: Trans)
    ensures ToksT(q + [x]) == ToksT(q) + [TokT(x)]
  {
  }

  lemma ToksTFront(q: seq<Trans>)
    requires q != []
    ensures ToksT(q) == [TokT(q[0])] + ToksT(q[1..])
  {
  }

  lemma ToksCWithout(q: seq<Command>, i: int)
    requires 0 <= i < |q|
    ensures multiset(ToksC(Without(q, i))) == multiset(ToksC(q)) - multiset{TokC(q[i])}
    ensures multiset(ToksC(q))[TokC(q[i])] >= 1
  {
    assert q == q[..i] + [q[i]] + q[i + 1..];
    assert ToksC(q) == ToksC(q[..i]) + [TokC(q[i])] + ToksC(q[i + 1..]);
    assert ToksC(Without(q, i)) == ToksC(q[..i]) + ToksC(q[i + 1..]);
  }

  lemma ReadsFirstWithout(q: seq<Command>, i: int)
    requires 0 <= i < |q| && ReadsFirst(ToksC(q))
    ensures ReadsFirst(ToksC(Without(q, i)))
  {
    var a, b := ToksC(q), ToksC(Without(q, i));
    assert forall j :: 0 <= j < |b| ==> b[j] == a[if j < i then j else j + 1];
  }

  /** The address of a queued command leads to the queue it is in. */
  lemma HomeOfEntry(u: Setup, cq: CmdQ, n: int, x: Command)
    requires u.WellFormed() && QueuesOk(u, cq) && 0 <= n < |cq.queues| && x in cq.queues[n]
    ensures CmdOk(u, x) && Home(u, x.hexAddr) == n && x.IsReadWrite()
    ensures TokC(x) in ToksC(cq.queues[n])
  {
    assert CmdOk(u, x) && u.QueueIndex(x.At()) == n;
    var i :| 0 <= i < |cq.queues[n]| && cq.queues[n][i] == x;
    assert ToksC(cq.queues[n])[i] == TokC(x);
  }

  /** A queued column command has its transaction pending. */
  lemma EntryIsPending(u: Setup, s: Ctrl, n: int, x: Command)
    requires u.WellFormed() && QueuesOk(u, s.cq) && Balanced(u, s) && 0 <= n < |s.cq.queues| && x in s.cq.queues[n]
    ensures x.hexAddr >= 0 && Waiting(u, s, TokC(x)) == 1
    ensures if x.IsWrite() then |At(s.pendingWr, x.hexAddr)| == 1 else At(s.pendingRd, x.hexAddr) != []
  {
    HomeOfEntry(u, s.cq, n, x);
    var t := TokC(x);
    assert BalancedAt(u, s, t);
  }

  /** The dependency check and the queue order together leave no read of a write's address in its queue. */
  lemma NoReadInQueue(u: Setup, q: seq<Command>, i: int)
    requires 0 <= i < |q| && q[i].IsWrite() && !HasRWDependency(q, i) && ReadsFirst(ToksC(q))
    requires forall x :: x in q ==> CmdOk(u, x)
    ensures Tok(false, q[i].hexAddr) !in ToksC(q)
  {
    var ts := ToksC(q);
    forall j | 0 <= j < |q| ensures ts[j] != Tok(false, q[i].hexAddr) {
      assert CmdOk(u, q[j]) && CmdOk(u, q[i]);
      assert j < i && !q[j].IsWrite() && q[j].hexAddr == q[i].hexAddr ==> q[j].IsRead() && SamePlace(q[j], q[i]);
      assert ts[i] == TokC(q[i]) && ts[j] == TokC(q[j]);
    }
  }

  /** A write that is chosen has no read of its address waiting anywhere. */
  lemma ChosenWriteIsAlone(u: Setup, s: Ctrl, n: int, i: int, x: Command)
    requires u.WellFormed() && ChanOk(u.dram, s.chan) && QueuesOk(u, s.cq) && QueuesAskable(u, s.chan, s.cq)
    requires Balanced(u, s) && OrderOk(u, s) && ModeOk(u, s)
    requires 0 <= n < |s.cq.queues| && Chosen(u, s.chan, s.cq.queues[n], s.clk, x, i) && x.IsWrite()
    ensures x.hexAddr >= 0 && Waiting(u, s, Tok(false, x.hexAddr)) == 0
    ensures DualSafe(u) ==> At(s.pendingRd, x.hexAddr) == []
  {
    var q := s.cq.queues[n];
    ChosenIsEntry(u, s.chan, q, s.clk, x, i);
    HomeOfEntry(u, s.cq, n, x);
    forall y | y in q ensures CmdOk(u, y) {}
    NoReadInQueue(u, q, i);
    NoReadInWriteBuf(s.writeBuf, x.hexAddr);
    var t := Tok(false, x.hexAddr);
    assert BalancedAt(u, s, t);
  }

  lemma NoReadInWriteBuf(q: seq<Trans>, a: int)
    requires forall t :: t in q ==> t.isWrite
    ensures Tok(false, a) !in ToksT(q)
  {
    forall i | 0 <= i < |q| ensures ToksT(q)[i] != Tok(false, a) { assert q[i] in q; }
  }

  /** Taking an entry out of its queue is felt by its own token only. */
  lemma WaitingAfterTake(u: Setup, s: Ctrl, cq': CmdQ, x: Command, n: int, t: Tok)
    requires u.WellFormed() && QueuesOk(u, s.cq) && Taken(s.cq, cq', x, n) && x.IsReadWrite() && t.addr >= 0
    ensures Waiting(u, s, t) == Waiting(u, s.(cq := cq'), t) + if t == TokC(x) then 1 else 0
  {
    hide AddressMapping, Setup.NumQueues, Setup.QueueIndex, Setup.WellFormed;
    var q := s.cq.queues[n];
    var j :| 0 <= j < |q| && q[j] == x && cq'.queues == s.cq.queues[n := Without(q, j)];
    HomeOfEntry(u, s.cq, n, x);
    ToksCWithout(q, j);
    HomeInRange(u, t.addr);
  }

  lemma OwingAfterAccount(u: Setup, s: Ctrl, x: Command, t: Tok)
    requires x.IsReadWrite() && Owing(s, TokC(x)) == 1
    ensures var r := Account(u, s, x); r.Some? && Owing(s, t) == Owing(r.value, t) + if t == TokC(x) then 1 else 0
  {
  }

  /** Balance after a column command leaves its queue and its transactions leave the pending map. */
  lemma AccountKeepsBalance(u: Setup, s: Ctrl, cq': CmdQ, x: Command, n: int)
    requires u.WellFormed() && QueuesOk(u, s.cq) && Balanced(u, s) && Taken(s.cq, cq', x, n) && x.IsReadWrite()
    ensures Account(u, s.(cq := cq'), x).Some? && Balanced(u, Account(u, s.(cq := cq'), x).value)
  {
    var j :| 0 <= j < |s.cq.queues[n]| && s.cq.queues[n][j] == x;
    EntryIsPending(u, s, n, x);
    var m := s.(cq := cq');
    OwingAfterAccount(u, m, x, TokC(x));
    var s' := Account(u, m, x).value;
    forall t: Tok | t.addr >= 0 ensures BalancedAt(u, s', t) {
      assert BalancedAt(u, s, t);
      WaitingAfterTake(u, s, cq', x, n, t);
      OwingAfterAccount(u, m, x, t);
      assert Waiting(u, s', t) == Waiting(u, m, t);
    }
  }

  lemma TakenKeepsQueues(u: Setup, s: Ctrl, cq': CmdQ, x: Command, n: int)
    requires u.WellFormed() && QueuesOk(u, s.cq) && OrderOk(u, s) && Taken(s.cq, cq', x, n)
    ensures QueuesOk(u, cq') && OrderOk(u, s.(cq := cq'))
  {
    if x.IsReadWrite() {
      var q := s.cq.queues[n];
      var j :| 0 <= j < |q| && q[j] == x && cq'.queues == s.cq.queues[n := Without(q, j)];
      ReadsFirstWithout(q, j);
      assert forall m, y :: 0 <= m < |cq'.queues| && y in cq'.queues[m] ==> y in s.cq.queues[m];
    }
  }

  lemma {:induction false} ScanIgnoresRefreshQ(c: Config, s: Chan, q: Command, clk: nat, j: int, k: int, ready: int)
    requires c.WellFormed() && Shaped(c, s) && 0 <= q.rank < c.ranks
    requires 0 <= j <= c.bankgroups && 0 <= k < c.banksPerGroup
    ensures ScanRank(c, s.(refreshQ := []), q, clk, j, k, ready) == ScanRank(c, s, q, clk, j, k, ready)
    decreases c.bankgroups - j, c.banksPerGroup - k
  {
    if j < c.bankgroups {
      var j', k' := if k + 1 < c.banksPerGroup then j else j + 1, if k + 1 < c.banksPerGroup then k + 1 else 0;
      ScanIgnoresRefreshQ(c, s, q, clk, j', k', ready);
      ScanIgnoresRefreshQ(c, s, q, clk, j', k', ready + 1);
    }
  }

  /** The refresh list plays no part in what the channel answers or how it changes. */
  lemma IgnoresRefreshQ(c: Config, s: Chan, q: Command, x: Command, clk: nat)
    requires c.WellFormed() && Shaped(c, s) && Addressed(c, q) && Addressed(c, x) && Issue(c, s, x, clk).Some?
    ensures ChanReply(c, s.(refreshQ := []), q, clk) == ChanReply(c, s, q, clk)
    ensures Issue(c, s.(refreshQ := []), x, clk) == Some(Issue(c, s, x, clk).value.(refreshQ := []))
  {
    if q.IsRankCmd() { ScanIgnoresRefreshQ(c, s, q, clk, 0, 0, 0); }
  }

  lemma LegalExtends(c: Config, h: seq<Issued>, e: Issued)
    requires c.WellFormed() && Legal(c, h) && Replay(c, h).Some? && Answers(c, Replay(c, h).value, e)
    requires forall i :: 0 <= i < |h| ==> h[i].clk <= e.clk
    ensures Legal(c, h + [e])
  {
    var h' := h + [e];
    forall j | 0 <= j < |h'| ensures AnsweredAt(c, h', j) {
      assert h'[..j] == h[..j];
      assert h[..|h|] == h;
      if j < |h| { assert AnsweredAt(c, h, j); }
    }
  }

  lemma ReplayExtends(c: Config, h: seq<Issued>, e: Issued)
    requires c.WellFormed() && Replay(c, h).Some? && Addressed(c, e.cmd)
    ensures Replay(c, h + [e]) == Issue(c, Replay(c, h).value, e.cmd, e.clk)
  {
    assert (h + [e])[..|h|] == h;
  }

  /** Issuing what the channel answered extends the trace legally. */
  lemma IssueKeepsTrace(c: Config, h: seq<Issued>, s: Chan, q: Command, x: Command, clk: nat)
    requires c.WellFormed() && Shaped(c, s) && Legal(c, h) && Replay(c, h) == Some(s.(refreshQ := []))
    requires forall i :: 0 <= i < |h| ==> h[i].clk <= clk
    requires IsRequest(c, q) && ChanReply(c, s, q, clk) == Go(x) && Issue(c, s, x, clk).Some?
    ensures Legal(c, h + [Issued(x, clk)])
    ensures Replay(c, h + [Issued(x, clk)]) == Some(Issue(c, s, x, clk).value.(refreshQ := []))
  {
    IgnoresRefreshQ(c, s, q, x, clk);
    var e := Issued(x, clk);
    assert Answers(c, s.(refreshQ := []), e);
    LegalExtends(c, h, e);
    ReplayExtends(c, h, e);
  }

  lemma TakeKeepsBooks(u: Setup, s: Ctrl, cq': CmdQ, x: Command, n: int)
    requires BooksOk(u, s) && Taken(s.cq, cq', x, n)
    ensures var r := Account(u, s.(cq := cq'), x); r.Some? && BooksOk(u, r.value)
  {
    TakenKeepsQueues(u, s, cq', x, n);
    if x.IsReadWrite() {
      AccountKeepsBalance(u, s, cq', x, n);
    } else {
      BooksIgnoreRest(u, s, s.(cq := cq'));
    }
  }

  lemma IssueKeepsChannel(u: Setup, s: Ctrl, q: Command, x: Command, s': Ctrl)
    requires ChannelOk(u, s) && IsRequest(u.dram, q)
    requires ChanReply(u.dram, s.chan, q, s.clk) == Go(x) && Sound(u.dram, s.chan, x, s.clk)
    requires Some(s'.chan) == Issue(u.dram, s.chan, x, s.clk)
    requires s'.trace == s.trace + [Issued(x, s.clk)] && s'.clk == s.clk
    ensures ChannelOk(u, s')
  {
    hide Issue, ChanReply, Replay, Legal, Sound;
    IssueKeepsOk(u.dram, s.chan, x, s.clk);
    IssueKeepsTrace(u.dram, s.trace, s.chan, q, x, s.clk);
  }

  /** What issuing leaves alone. */
  lemma IssueShape(u: Setup, s: Ctrl, x: Command)
    requires QueuesAskable(u, s.chan, s.cq) && Addressed(u.dram, x)
    requires Account(u, s, x).Some? && Issue(u.dram, s.chan, x, s.clk).Some?
    ensures var a, ch := Account(u, s, x).value, Issue(u.dram, s.chan, x, s.clk).value;
      && IssueCommand(u, s, x) == Some(a.(chan := ch, trace := s.trace + [Issued(x, s.clk)]))
      && a == s.(pendingRd := a.pendingRd, pendingWr := a.pendingWr, returnQ := a.returnQ)
      && ch.refreshQ == RefreshDone(s.chan.refreshQ, x)
  {
  }

  /** Issuing the outcome of a search neither exits nor breaks the invariant. */
  lemma IssueSearched(u: Setup, s: Ctrl, cq': CmdQ, x: Command)
    requires Inv(u, s) && QueuesAskable(u, s.chan, s.cq) && QueuesAskable(u, s.chan, cq')
    requires SearchOk(u, s.chan, s.cq, s.clk, (cq', Go(x)))
    ensures var r := IssueCommand(u, s.(cq := cq'), x);
      && r.Some? && Inv(u, r.value)
      && (DualSafe(u) && x.IsWrite() ==> At(s.pendingRd, x.hexAddr) == [])
  {
    hide Issue, IssueCommand, ChanReply, Balanced, OrderOk, ModeOk, TraceOk, ChanOk, Account;
    var n, i :| 0 <= n < |s.cq.queues| && !Blocked(s.cq, n) && Chosen(u, s.chan, s.cq.queues[n], s.clk, x, i) && Taken(s.cq, cq', x, n);
    var q := s.cq.queues[n][i];
    ChosenIsEntry(u, s.chan, s.cq.queues[n], s.clk, x, i);
    if x.IsWrite() { ChosenWriteIsAlone(u, s, n, i, x); }
    TakeKeepsBooks(u, s, cq', x, n);
    IssueKeepsOk(u.dram, s.chan, x, s.clk);
    IssueShape(u, s.(cq := cq'), x);
    var a, s' := Account(u, s.(cq := cq'), x).value, IssueCommand(u, s.(cq := cq'), x).value;
    BooksIgnoreRest(u, a, s');
    IssueKeepsChannel(u, s, q, x, s');
    assert RefreshOk(u, s');
  }

  /** Balance and order only look at the queues and the pending maps. */
  lemma BooksIgnoreRest(u: Setup, s: Ctrl, s': Ctrl)
    requires BooksOk(u, s) && 0 <= s'.cq.idx < |s.cq.queues| && s'.draining == s.draining
    requires s'.cq.queues == s.cq.queues && s'.unifiedQ == s.unifiedQ && s'.readQ == s.readQ && s'.writeBuf == s.writeBuf
    requires s'.pendingRd == s.pendingRd && s'.pendingWr == s.pendingWr
    ensures BooksOk(u, s')
  {
    forall t: Tok | t.addr >= 0 ensures BalancedAt(u, s', t) {
      assert BalancedAt(u, s, t);
    }
  }

  // ---- Refresh work -------------------------------------------------------------------------------------------

  /** The oldest refresh request is answered with itself, or with a precharge of a bank it covers. */
  lemma RefreshReply(c: Config, s: Chan, ref: Command, clk: nat)
    requires c.WellFormed() && ChanOk(c, s) && IsRequest(c, ref) && ref.IsRefresh()
    ensures var r := ChanReply(c, s, ref, clk);
      && !r.Abort?
      && (r.Go? ==> Sound(c, s, r.cmd, clk))
      && (r.Go? ==> if r.cmd.IsRefresh() then r.cmd == ref else r.cmd.kind.Precharge? && ref.Touches(r.cmd.At()))
  {
    AnswerIsSound(c, s, ref, clk);
    if ref.kind.Refresh? { ScanMeaning(c, s, ref, clk, 0, 0, 0); }
  }

  /** Marking a refresh as in progress keeps the invariant. */
  lemma StartKeepsInv(u: Setup, s: Ctrl)
    requires Inv(u, s) && s.chan.refreshQ != []
    ensures Inv(u, s.(cq := s.cq.(refIdx := RefIndices(u, s.chan.refreshQ[0]), inRef := true)))
  {
    hide Balanced, OrderOk, ModeOk, Legal, Replay, ChanOk, RefIndices;
    BooksIgnoreRest(u, s, s.(cq := s.cq.(refIdx := RefIndices(u, s.chan.refreshQ[0]), inRef := true)));
  }

  lemma IssueRefreshWork(u: Setup, s: Ctrl)
    requires Inv(u, s) && QueuesAskable(u, s.chan, s.cq) && s.chan.refreshQ != []
    ensures var f := FinishRefresh(u, s.chan, s.cq, s.clk);
      && !f.1.Abort?
      && (f.1.NotReady? ==> Inv(u, s.(cq := f.0)))
      && (f.1.Go? ==>
            && Sound(u.dram, s.chan, f.1.cmd, s.clk)
            && var r := IssueCommand(u, s.(cq := f.0), f.1.cmd); r.Some? && Inv(u, r.value))
  {
    hide Issue, IssueCommand, ChanReply, Balanced, OrderOk, ModeOk, TraceOk, ChanOk, RefIndices, Account;
    var ref := s.chan.refreshQ[0];
    assert RefreshKind(u, ref);
    RefreshReply(u.dram, s.chan, ref, s.clk);
    StartKeepsInv(u, s);
    var f := FinishRefresh(u, s.chan, s.cq, s.clk);
    assert !s.cq.inRef ==> s.cq.refIdx + RefIndices(u, ref) == RefIndices(u, ref);
    if f.1.Go? {
      var x := f.1.cmd;
      IssueKeepsOk(u.dram, s.chan, x, s.clk);
      PlainAccount(u, s.(cq := f.0), x);
      IssueShape(u, s.(cq := f.0), x);
      var s' := IssueCommand(u, s.(cq := f.0), x).value;
      BooksIgnoreRest(u, s, s');
      IssueKeepsChannel(u, s, ref, x, s');
      assert RefreshOk(u, s');
    }
  }

  lemma PlainAccount(u: Setup, s: Ctrl, x: Command)
    requires !x.IsReadWrite()
    ensures Account(u, s, x) == Some(s)
  {
  }

  // ---- The other steps ----------------------------------------------------------------------------------------

  lemma {:induction false} CounterInRange(u: Setup, n: Counter)
    requires u.dram.WellFormed() && RefreshKind(u, NextRefresh(u, n))
    ensures RefreshKind(u, NextRefresh(u, IterateNext(u, n)))
  {
  }

  lemma BeginKeepsInv(u: Setup, s: Ctrl)
    requires Inv(u, s) && Callable(u, s)
    ensures Inv(u, BeginTick(u, s))
  {
    hide Balanced, OrderOk, ModeOk, Legal, Replay, RefIndices;
    CounterInRange(u, s.refresh);
    BooksIgnoreRest(u, s, BeginTick(u, s));
  }

  /** A new transaction and its pending entry. */
  function Accept(u: Setup, s: Ctrl, t: Trans): Ctrl {
    Enqueue(u, if t.isWrite then s.(pendingWr := Insert(s.pendingWr, t)) else s.(pendingRd := Insert(s.pendingRd, t)), t)
  }

  lemma WaitingAfterAccept(u: Setup, s: Ctrl, t: Trans, k: Tok)
    requires u.WellFormed() && |s.cq.queues| == u.NumQueues() && k.addr >= 0
    ensures Waiting(u, Accept(u, s, t), k) == Waiting(u, s, k) + if k == TokT(t) then 1 else 0
  {
    ToksTAppend(if u.unified then s.unifiedQ else if t.isWrite then s.writeBuf else s.readQ, t);
  }

  lemma OwingAfterAccept(u: Setup, s: Ctrl, t: Trans, k: Tok)
    requires At(s.pendingWr, t.addr) == [] && (!t.isWrite ==> At(s.pendingRd, t.addr) == [])
    ensures Owing(Accept(u, s, t), k) == Owing(s, k) + if k == TokT(t) then 1 else 0
    ensures Owing(s, TokT(t)) == 0
  {
  }

  lemma AcceptKeepsBalance(u: Setup, s: Ctrl, t: Trans)
    requires u.WellFormed() && |s.cq.queues| == u.NumQueues() && Balanced(u, s)
    requires At(s.pendingWr, t.addr) == [] && (!t.isWrite ==> At(s.pendingRd, t.addr) == [])
    ensures Balanced(u, Accept(u, s, t))
  {
    hide Waiting, Owing, Accept;
    assert Accept(u, s, t).cq == s.cq by { AcceptKeepsCq(u, s, t); }
    forall k: Tok | k.addr >= 0 ensures BalancedAt(u, Accept(u, s, t), k) {
      assert BalancedAt(u, s, k);
      WaitingAfterAccept(u, s, t, k);
      OwingAfterAccept(u, s, t, k);
    }
  }

  lemma AcceptKeepsCq(u: Setup, s: Ctrl, t: Trans)
    ensures Accept(u, s, t).cq == s.cq
  {
  }

  lemma AcceptKeepsBooks(u: Setup, s: Ctrl, t: Trans)
    requires BooksOk(u, s)
    requires At(s.pendingWr, t.addr) == [] && (!t.isWrite ==> At(s.pendingRd, t.addr) == [])
    ensures BooksOk(u, Accept(u, s, t))
  {
    hide Balanced;
    AcceptKeepsBalance(u, s, t);
    ToksTAppend(s.unifiedQ, t);
    ToksTAppend(s.readQ, t);
    NoWriteWaiting(u, s, t.addr);
    var s' := Accept(u, s, t);
    ReadsFirstAppend(ToksT(s.unifiedQ), TokT(t));
    assert OrderOk(u, s');
  }

  lemma ReadsFirstAppend(ts: seq<Tok>, t: Tok)
    requires ReadsFirst(ts) && (t.write || Tok(true, t.addr) !in ts)
    ensures ReadsFirst(ts + [t])
  {
    forall i, j | 0 <= i < j < |ts| + 1 && (ts + [t])[i].write && !(ts + [t])[j].write
      ensures (ts + [t])[i].addr != (ts + [t])[j].addr
    {
      if j == |ts| { assert ts[i] in ts; }
    }
  }

  /** Without a pending write of an address, no write of it waits anywhere. */
  lemma NoWriteWaiting(u: Setup, s: Ctrl, a: nat)
    requires BooksOk(u, s) && At(s.pendingWr, a) == []
    ensures Tok(true, a) !in ToksT(s.unifiedQ)
    ensures forall n, x :: 0 <= n < |s.cq.queues| && x in s.cq.queues[n] && x.IsWrite() ==> x.hexAddr != a
  {
    assert BalancedAt(u, s, Tok(true, a));
    forall n, x | 0 <= n < |s.cq.queues| && x in s.cq.queues[n] && x.IsWrite() ensures x.hexAddr != a {
      EntryIsPending(u, s, n, x);
    }
  }

  lemma AddKeepsInv(u: Setup, s: Ctrl, addr: nat, isWrite: bool)
    requires Inv(u, s)
    ensures Inv(u, AddTransaction(u, s, addr, isWrite))
  {
    hide Balanced, OrderOk, ModeOk, Legal, Replay, ChanOk, RefIndices;
    var t, s' := Trans(addr, isWrite, s.clk, 0), AddTransaction(u, s, addr, isWrite);
    if At(s.pendingWr, addr) == [] && (isWrite || At(s.pendingRd, addr) == []) {
      AcceptKeepsBooks(u, s, t);
      BooksIgnoreRest(u, Accept(u, s, t), s');
    } else {
      MoreReadsKeepBooks(u, s, s');
    }
  }

  /** A further pending read of an address that already has one changes nothing that the books count. */
  lemma MoreReadsKeepBooks(u: Setup, s: Ctrl, s': Ctrl)
    requires BooksOk(u, s) && s' == s.(pendingRd := s'.pendingRd, returnQ := s'.returnQ)
    requires forall a :: (At(s'.pendingRd, a) == []) == (At(s.pendingRd, a) == [])
    ensures BooksOk(u, s')
  {
    forall k: Tok | k.addr >= 0 ensures BalancedAt(u, s', k) {
      assert BalancedAt(u, s, k);
    }
  }
}
