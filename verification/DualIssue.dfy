/** When the second search of a dual-command cycle loses a column command, and what becomes of it. */
module DualIssue {
  import opened Commands
  import opened Timing
  import opened Channel
  import opened ChannelHistory
  import opened ChannelSafety
  import opened Address
  import opened Queueing
  import opened ControllerSafety
  import opened ControllerRuns
  import opened RefreshProgress
  import opened Fairness

  // ---- What the channel answers after a column command ------------------------------------------------------------

  /** None of the delays that x imposes on bank l reaches past the present for commands of kind k. */
  ghost predicate Undelayed(c: Config, x: Command, l: Loc, k: Kind, clk: nat) {
    forall d :: d in Imposed(c, x, l) && d.next == k ==> Later(clk, d.gap) <= clk
  }

  lemma {:induction false} ListMaxNow(v: nat, ds: seq<Delay>, clk: nat, k: Kind)
    ensures ListMax(v, ds, clk, k) <= clk <==> v <= clk && forall d :: d in ds && d.next == k ==> Later(clk, d.gap) <= clk
  {
    if ds != [] {
      var last, rest := ds[|ds| - 1], ds[..|ds| - 1];
      ListMaxNow(v, rest, clk, k);
      assert ds == rest + [last];
    }
  }

  /** The reply of e's bank once x has moved the row buffers on but before its delays count. */
  ghost function Unheld(c: Config, s: Chan, x: Command, e: Command, clk: nat): (r: Reply)
    requires c.WellFormed() && Shaped(c, s) && Addressed(c, x) && Addressed(c, e) && UpdateState(c, s, x).Some?
  {
    ChanReply(c, UpdateState(c, s, x).value, e, clk)
  }

  /** The answer to e in the cycle in which x was issued, said of the state before x. */
  ghost function AnswerAfter(c: Config, s: Chan, x: Command, e: Command, clk: nat): (r: Reply)
    requires c.WellFormed() && Shaped(c, s) && Addressed(c, x) && Addressed(c, e) && UpdateState(c, s, x).Some?
  {
    var r := Unheld(c, s, x, e, clk);
    if r.Go? && !Undelayed(c, x, e.At(), r.cmd.kind, clk) then NotReady else r
  }

  /** The timing tables enter an answer only through the one entry the answer needs. */
  lemma AnswerAfterIs(c: Config, s: Chan, x: Command, e: Command, clk: nat)
    requires c.WellFormed() && ChanOk(c, s) && Sound(c, s, x, clk) && x.IsReadWrite() && e.IsReadWrite() && c.Holds(e.At())
    ensures UpdateState(c, s, x).Some? && Issue(c, s, x, clk).Some? && Addressed(c, x)
    ensures ChanReply(c, Issue(c, s, x, clk).value, e, clk) == AnswerAfter(c, s, x, e, clk)
  {
    hide RaiseAll, ListMax, Imposed;
    IssueKeepsOk(c, s, x, clk);
    var l := e.At();
    var u, w := UpdateState(c, s, x).value, Issue(c, s, x, clk).value;
    var b := u.banks[l];
    assert w.banks[l] == b.(earliest := RaiseAll(b.earliest, Imposed(c, x, l), clk));
    var k := BankRequired(b, e);
    if k.Some? {
      RaiseAllIsMax(b.earliest, Imposed(c, x, l), clk, k.value);
      ListMaxNow(b.earliest[Index(k.value)], Imposed(c, x, l), clk, k.value);
    }
  }

  /** The delay a column command imposes on a column command of another bank, or of its own if it stays open. */
  function ColumnGap(c: Config, x: Command, y: Command): int {
    var s := ScopeOf(x.At(), y.At());
    if x.IsRead() then
      if y.IsRead() then (if s.OtherRanks? then c.ReadToReadO() else if s.OtherGroupsSameRank? then c.CcdS() else c.CcdL())
      else if s.OtherRanks? then c.ReadToWriteO() else c.ReadToWrite()
    else
      if y.IsRead() then (if s.OtherRanks? then c.WriteToReadO() else if s.OtherGroupsSameRank? then c.WriteToReadS() else c.WriteToReadL())
      else if s.OtherRanks? then c.WriteToWriteO() else if s.OtherGroupsSameRank? then c.CcdS() else c.CcdL()
  }

  /** For clocks and delays of less than 63 bits, a delay is over at once exactly when it lies between -clk and 0. */
  lemma OverAtOnce(clk: nat, gap: int)
    requires clk < 0x8000_0000_0000_0000 && -0x8000_0000_0000_0000 < gap
    ensures Later(clk, gap) <= clk <==> 0 - clk <= gap <= 0
  {}

  lemma ColumnUndelayed(c: Config, x: Command, y: Command, clk: nat)
    requires x.IsReadWrite() && y.IsReadWrite() && !Closes(x, y.At())
    ensures Undelayed(c, x, y.At(), y.kind, clk) <==> Later(clk, ColumnGap(c, x, y)) <= clk
  {
    var read, write := ColumnGap(c, x, y.(kind := Read)), ColumnGap(c, x, y.(kind := Write));
    var ds := Imposed(c, x, y.At());
    assert ColumnDelays(read, write) <= ds;
    assert ds[0] == Delay(Read, read) && ds[1] == Delay(Write, write);
    assert ds[2] == Delay(ReadPrecharge, read) && ds[3] == Delay(WritePrecharge, write);
    assert forall d :: d in ds && d.next == y.kind ==> d.gap == ColumnGap(c, x, y);
  }

  /** A column command ready before x is ready after it in the same cycle exactly when its row stays open and the delay is over. */
  lemma SecondColumnIff(c: Config, s: Chan, x: Command, y: Command, clk: nat)
    requires c.WellFormed() && ChanOk(c, s) && Sound(c, s, x, clk) && x.IsReadWrite()
    requires y.IsReadWrite() && c.Holds(y.At()) && ChanReply(c, s, y, clk) == Go(y)
    ensures Issue(c, s, x, clk).Some?
    ensures ChanReply(c, Issue(c, s, x, clk).value, y, clk) == Go(y) <==>
      !Closes(x, y.At()) && Later(clk, ColumnGap(c, x, y)) <= clk
  {
    hide Imposed, Sound, Issue, Undelayed;
    AnswerAfterIs(c, s, x, y, clk);
    IssuePhase(c, s, x, clk, y.At());
    if !Closes(x, y.At()) { ColumnUndelayed(c, x, y, clk); }
  }

  // ---- Which entry a search takes ---------------------------------------------------------------------------------

  /** Entry i of the queue has a command to issue now that nothing holds back. */
  ghost predicate Willing(u: Setup, s: Chan, q: seq<Command>, clk: nat, i: int)
    requires Askable(u, s, q) && 0 <= i < |q|
  {
    assert q[i] in q;
    ChanReply(u.dram, s, q[i], clk).Go? && !HeldBack(s, q, i, ChanReply(u.dram, s, q[i], clk).cmd)
  }

  lemma {:induction false} FirstReadyMeaning(u: Setup, s: Chan, q: seq<Command>, clk: nat, i: int)
    requires Askable(u, s, q) && ChanOk(u.dram, s) && 0 <= i <= |q|
    ensures var r := FirstReady(u, s, q, clk, i);
      && !r.Abort?
      && (r.NotReady? <==> forall j :: i <= j < |q| ==> !Willing(u, s, q, clk, j))
      && (r.Go? ==> exists j :: FirstWilling(u, s, q, clk, i, j) && ChanReply(u.dram, s, q[j], clk) == r)
    decreases |q| - i
  {
    hide HeldBack, ChanReply;
    if i < |q| {
      assert q[i] in q;
      AnswerIsSound(u.dram, s, q[i], clk);
      FirstReadyMeaning(u, s, q, clk, i + 1);
      if Willing(u, s, q, clk, i) {
        assert FirstWilling(u, s, q, clk, i, i);
      } else if FirstReady(u, s, q, clk, i + 1).Go? {
        var j :| FirstWilling(u, s, q, clk, i + 1, j) && ChanReply(u.dram, s, q[j], clk) == FirstReady(u, s, q, clk, i + 1);
        assert FirstWilling(u, s, q, clk, i, j);
      }
    }
  }

  ghost predicate FirstWilling(u: Setup, s: Chan, q: seq<Command>, clk: nat, i: int, j: int)
    requires Askable(u, s, q) && 0 <= i
  {
    i <= j < |q| && q[j] in q && Willing(u, s, q, clk, j) && forall p :: i <= p < j ==> !Willing(u, s, q, clk, p)
  }

  /** Queue n is the first unblocked one in turn with a willing entry. */
  ghost predicate FirstInTurn(u: Setup, s: Chan, cq: CmdQ, clk: nat, n: int)
    requires QueuesAskable(u, s, cq)
  {
    && 0 <= n < |cq.queues| && Ready(u, s, cq, clk, n)
    && forall m :: 0 <= m < |cq.queues| && Distance(cq.idx, m, |cq.queues|) < Distance(cq.idx, n, |cq.queues|) ==>
         !Ready(u, s, cq, clk, m)
  }

  lemma {:induction false} SearchStopsAt(u: Setup, s: Chan, cq: CmdQ, clk: nat, tries: nat)
    requires u.WellFormed() && ChanOk(u.dram, s) && QueuesOk(u, cq) && QueuesAskable(u, s, cq) && tries <= |cq.queues|
    ensures var r := GetCommandToIssue(u, s, cq, clk, tries);
      && !r.1.Abort?
      && (r.1.NotReady? ==> forall m :: 0 <= m < |cq.queues| && Distance(cq.idx, m, |cq.queues|) <= tries ==> !Ready(u, s, cq, clk, m))
      && (r.1.Go? ==> FirstInTurn(u, s, cq, clk, r.0.idx) && FirstReady(u, s, cq.queues[r.0.idx], clk, 0) == r.1)
    decreases tries
  {
    hide FirstReady, Dispatch, Askable, Chosen, ChanOk, CmdOk;
    SearchIsOk(u, s, cq, clk, tries);
    if tries > 0 {
      var next := cq.(idx := NextIdx(cq));
      var n := |cq.queues|;
      if Ready(u, s, cq, clk, next.idx) {
        DispatchKeepsIdx(u, s, next, clk);
      } else {
        SearchStopsAt(u, s, next, clk, tries - 1);
        forall m | 0 <= m < n ensures Ready(u, s, next, clk, m) == Ready(u, s, cq, clk, m) {}
        forall m | 0 <= m < n && m != next.idx
          ensures Distance(cq.idx, m, n) == Distance(next.idx, m, n) + 1 {}
      }
    }
  }

  // ---- The second search, said of the state before the first command ------------------------------------------------

  ghost predicate Followable(u: Setup, s: Chan, x: Command, q: seq<Command>) {
    Askable(u, s, q) && Addressed(u.dram, x) && UpdateState(u.dram, s, x).Some?
  }

  ghost predicate WillingAfter(u: Setup, s: Chan, x: Command, q: seq<Command>, clk: nat, i: int)
    requires Followable(u, s, x, q) && 0 <= i < |q|
  {
    assert q[i] in q;
    var r := AnswerAfter(u.dram, s, x, q[i], clk);
    r.Go? && !HeldBack(UpdateState(u.dram, s, x).value, q, i, r.cmd)
  }

  lemma WillingAfterIs(u: Setup, s: Chan, x: Command, q: seq<Command>, clk: nat, i: int)
    requires Askable(u, s, q) && ChanOk(u.dram, s) && Sound(u.dram, s, x, clk) && x.IsReadWrite() && 0 <= i < |q|
    ensures Followable(u, s, x, q) && Issue(u.dram, s, x, clk).Some? && Askable(u, Issue(u.dram, s, x, clk).value, q)
    ensures q[i] in q && ChanReply(u.dram, Issue(u.dram, s, x, clk).value, q[i], clk) == AnswerAfter(u.dram, s, x, q[i], clk)
    ensures Willing(u, Issue(u.dram, s, x, clk).value, q, clk, i) == WillingAfter(u, s, x, q, clk, i)
  {
    hide AnswerAfter, ChanReply, Sound, RaiseAll;
    assert q[i] in q;
    AnswerAfterIs(u.dram, s, x, q[i], clk);
    var w, v := UpdateState(u.dram, s, x).value, Issue(u.dram, s, x, clk).value;
    SameRows(u, w, v, q, i);
  }

  /** Holding back looks at row buffers and queues, not at timing tables. */
  lemma SameRows(u: Setup, w: Chan, v: Chan, q: seq<Command>, i: int)
    requires 0 <= i < |q| && q[i].At() in w.banks && q[i].At() in v.banks
    requires w.banks[q[i].At()].openRow == v.banks[q[i].At()].openRow && w.banks[q[i].At()].rowHits == v.banks[q[i].At()].rowHits
    ensures forall r :: HeldBack(w, q, i, r) == HeldBack(v, q, i, r)
  {}

  /** Queue n is not blocked and some entry of it will be willing once x is issued. */
  ghost predicate ReadyAfter(u: Setup, s: Chan, x: Command, cq: CmdQ, clk: nat, n: int)
    requires 0 <= n < |cq.queues| && Followable(u, s, x, cq.queues[n])
  {
    !Blocked(cq, n) && exists i :: 0 <= i < |cq.queues[n]| && WillingAfter(u, s, x, cq.queues[n], clk, i)
  }

  ghost predicate AllFollowable(u: Setup, s: Chan, x: Command, cq: CmdQ) {
    forall n :: 0 <= n < |cq.queues| ==> Followable(u, s, x, cq.queues[n])
  }

  /** The second search reaches entry i of queue n before any other willing entry, and the entry is a column command then. */
  ghost predicate TakesColumn(u: Setup, s: Chan, x: Command, cq: CmdQ, clk: nat, n: int, i: int)
    requires AllFollowable(u, s, x, cq)
  {
    && 0 <= n < |cq.queues| && 0 <= i < |cq.queues[n]| && !Blocked(cq, n)
    && WillingAfter(u, s, x, cq.queues[n], clk, i)
    && (forall p :: 0 <= p < i ==> !WillingAfter(u, s, x, cq.queues[n], clk, p))
    && (forall m :: 0 <= m < |cq.queues| && Distance(cq.idx, m, |cq.queues|) < Distance(cq.idx, n, |cq.queues|) ==>
          !ReadyAfter(u, s, x, cq, clk, m))
    && AnswerAfter(u.dram, s, x, cq.queues[n][i], clk).cmd.IsReadWrite()
  }

  lemma ReadyAfterIs(u: Setup, s: Chan, x: Command, cq: CmdQ, clk: nat, n: int)
    requires QueuesAskable(u, s, cq) && ChanOk(u.dram, s) && Sound(u.dram, s, x, clk) && x.IsReadWrite() && 0 <= n < |cq.queues|
    requires Issue(u.dram, s, x, clk).Some? && QueuesAskable(u, Issue(u.dram, s, x, clk).value, cq)
    requires ChanOk(u.dram, Issue(u.dram, s, x, clk).value) && Followable(u, s, x, cq.queues[n])
    ensures Ready(u, Issue(u.dram, s, x, clk).value, cq, clk, n) == ReadyAfter(u, s, x, cq, clk, n)
  {
    hide WillingAfter, Willing, FirstReady, Sound, Issue, Askable, ChanOk, UpdateState;
    var v, q := Issue(u.dram, s, x, clk).value, cq.queues[n];
    assert Askable(u, s, q) && Askable(u, v, q);
    FirstReadyMeaning(u, v, q, clk, 0);
    forall i | 0 <= i < |q| ensures Willing(u, v, q, clk, i) == WillingAfter(u, s, x, q, clk, i) {
      WillingAfterIs(u, s, x, q, clk, i);
    }
  }

  /** What the second search finds, in both directions: a column command exactly when some entry is taken as described. */
  lemma SecondSearchIff(u: Setup, s: Chan, x: Command, cq: CmdQ, clk: nat)
    requires u.WellFormed() && ChanOk(u.dram, s) && QueuesOk(u, cq) && QueuesAskable(u, s, cq)
    requires Sound(u.dram, s, x, clk) && x.IsReadWrite()
    requires Issue(u.dram, s, x, clk).Some? && QueuesAskable(u, Issue(u.dram, s, x, clk).value, cq)
    requires ChanOk(u.dram, Issue(u.dram, s, x, clk).value) && AllFollowable(u, s, x, cq)
    ensures var r := GetCommandToIssue(u, Issue(u.dram, s, x, clk).value, cq, clk, |cq.queues|).1;
      && (r.Go? && r.cmd.IsReadWrite() <==> exists n, i :: TakesColumn(u, s, x, cq, clk, n, i))
      && forall n, i :: TakesColumn(u, s, x, cq, clk, n, i) ==> r == Go(cq.queues[n][i])
  {
    hide WillingAfter, Willing, FirstReady, Sound, Issue, Askable, ChanOk, GetCommandToIssue, AnswerAfter, QueuesOk, UpdateState;
    SoundIsAddressed(u.dram, s, x, clk);
    var v, N := Issue(u.dram, s, x, clk).value, |cq.queues|;
    SearchStopsAt(u, v, cq, clk, N);
    forall m | 0 <= m < N ensures Ready(u, v, cq, clk, m) == ReadyAfter(u, s, x, cq, clk, m) { ReadyAfterIs(u, s, x, cq, clk, m); }
    var g := GetCommandToIssue(u, v, cq, clk, N);
    if g.1.Go? {
      var n := g.0.idx;
      var j := WillingEntry(u, s, x, cq, clk, n);
      if g.1.cmd.IsReadWrite() { assert TakesColumn(u, s, x, cq, clk, n, j); }
      forall n', i | TakesColumn(u, s, x, cq, clk, n', i) ensures g.1 == Go(cq.queues[n'][i]) {
        TakenIsFirst(u, s, x, cq, clk, n, n', j, i);
        ColumnIsEntry(u, s, x, cq.queues[n], clk, j);
      }
    } else {
      forall n, i ensures !TakesColumn(u, s, x, cq, clk, n, i) { TakesIsReady(u, s, x, cq, clk, n, i); }
    }
  }

  /** An answer that is a column command is the entry itself. */
  lemma ColumnIsEntry(u: Setup, s: Chan, x: Command, q: seq<Command>, clk: nat, i: int)
    requires Followable(u, s, x, q) && 0 <= i < |q|
    ensures q[i] in q
    ensures AnswerAfter(u.dram, s, x, q[i], clk).Go? && AnswerAfter(u.dram, s, x, q[i], clk).cmd.IsReadWrite() ==>
      AnswerAfter(u.dram, s, x, q[i], clk) == Go(q[i])
  {
    hide Undelayed, UpdateState;
    assert q[i] in q;
  }

  lemma TakesIsReady(u: Setup, s: Chan, x: Command, cq: CmdQ, clk: nat, n: int, i: int)
    requires AllFollowable(u, s, x, cq)
    ensures TakesColumn(u, s, x, cq, clk, n, i) ==> 0 <= n < |cq.queues| && ReadyAfter(u, s, x, cq, clk, n)
  {}

  /** The first willing entry of the queue the search stops at gives the answer. */
  lemma WillingEntry(u: Setup, s: Chan, x: Command, cq: CmdQ, clk: nat, n: int) returns (j: int)
    requires QueuesAskable(u, s, cq) && ChanOk(u.dram, s) && Sound(u.dram, s, x, clk) && x.IsReadWrite() && 0 <= n < |cq.queues|
    requires Issue(u.dram, s, x, clk).Some? && QueuesAskable(u, Issue(u.dram, s, x, clk).value, cq)
    requires ChanOk(u.dram, Issue(u.dram, s, x, clk).value) && Followable(u, s, x, cq.queues[n])
    requires FirstReady(u, Issue(u.dram, s, x, clk).value, cq.queues[n], clk, 0).Go?
    ensures 0 <= j < |cq.queues[n]| && WillingAfter(u, s, x, cq.queues[n], clk, j)
    ensures forall p :: 0 <= p < j ==> !WillingAfter(u, s, x, cq.queues[n], clk, p)
    ensures cq.queues[n][j] in cq.queues[n]
    ensures AnswerAfter(u.dram, s, x, cq.queues[n][j], clk) == FirstReady(u, Issue(u.dram, s, x, clk).value, cq.queues[n], clk, 0)
  {
    hide WillingAfter, Willing, FirstReady, Sound, Issue, ChanOk, AnswerAfter, ChanReply, UpdateState;
    var v, q := Issue(u.dram, s, x, clk).value, cq.queues[n];
    FirstReadyMeaning(u, v, q, clk, 0);
    j :| FirstWilling(u, v, q, clk, 0, j) && ChanReply(u.dram, v, q[j], clk) == FirstReady(u, v, q, clk, 0);
    forall i | 0 <= i < |q| ensures Willing(u, v, q, clk, i) == WillingAfter(u, s, x, q, clk, i) {
      WillingAfterIs(u, s, x, q, clk, i);
    }
    WillingAfterIs(u, s, x, q, clk, j);
  }

  lemma TakenIsFirst(u: Setup, s: Chan, x: Command, cq: CmdQ, clk: nat, n: int, n': int, j: int, i: int)
    requires AllFollowable(u, s, x, cq) && TakesColumn(u, s, x, cq, clk, n', i) && 0 <= cq.idx < |cq.queues|
    requires 0 <= n < |cq.queues| && 0 <= j < |cq.queues[n]| && ReadyAfter(u, s, x, cq, clk, n) && WillingAfter(u, s, x, cq.queues[n], clk, j)
    requires forall p :: 0 <= p < j ==> !WillingAfter(u, s, x, cq.queues[n], clk, p)
    requires forall m :: 0 <= m < |cq.queues| && Distance(cq.idx, m, |cq.queues|) < Distance(cq.idx, n, |cq.queues|) ==>
      !ReadyAfter(u, s, x, cq, clk, m)
    ensures n' == n && i == j
  {
    hide WillingAfter, Followable, AnswerAfter;
    assert ReadyAfter(u, s, x, cq, clk, n');
    assert Distance(cq.idx, n, |cq.queues|) == Distance(cq.idx, n', |cq.queues|);
  }

  // ---- Losing a command -------------------------------------------------------------------------------------------

  /** Owed and not waiting anywhere: no command can be issued for it. */
  ghost predicate Lost(u: Setup, s: Ctrl, k: Tok)
    requires u.WellFormed() && |s.cq.queues| == u.NumQueues() && k.addr >= 0
  {
    Waiting(u, s, k) == 0 && Owing(s, k) == 1
  }

  /** What is owed beyond what waits. */
  ghost function Debt(u: Setup, s: Ctrl, k: Tok): (n: int)
    requires u.WellFormed() && |s.cq.queues| == u.NumQueues() && k.addr >= 0
  {
    Owing(s, k) - Waiting(u, s, k)
  }

  lemma DebtIgnores(u: Setup, s: Ctrl, s': Ctrl, k: Tok)
    requires u.WellFormed() && |s.cq.queues| == u.NumQueues() && k.addr >= 0
    requires s'.cq.queues == s.cq.queues && s'.unifiedQ == s.unifiedQ && s'.readQ == s.readQ && s'.writeBuf == s.writeBuf
    requires s'.pendingRd == s.pendingRd && s'.pendingWr == s.pendingWr
    ensures Debt(u, s', k) == Debt(u, s, k)
  {}

  /** Issuing what a search took pays the entry and its transaction together; other entries do not move. */
  lemma IssueKeepsDebt(u: Setup, s: Ctrl, cq': CmdQ, x: Command, k: Tok)
    requires Inv(u, s) && QueuesAskable(u, s.chan, s.cq) && QueuesAskable(u, s.chan, cq') && k.addr >= 0
    requires SearchOk(u, s.chan, s.cq, s.clk, (cq', Go(x)))
    ensures var r := IssueCommand(u, s.(cq := cq'), x);
      && r.Some? && Inv(u, r.value) && Debt(u, r.value, k) == Debt(u, s, k)
      && (x.IsReadWrite() ==> TokC(x).addr >= 0 && Waiting(u, s, TokC(x)) == 1)
  {
    hide Issue, ChanReply, OrderOk, ModeOk, TraceOk, ChanOk, Waiting, Owing, IssueCommand, RefreshOk;
    IssueSearched(u, s, cq', x);
    var n, i :| 0 <= n < |s.cq.queues| && !Blocked(s.cq, n) && Chosen(u, s.chan, s.cq.queues[n], s.clk, x, i) && Taken(s.cq, cq', x, n);
    var m := s.(cq := cq');
    SearchedDebt(u, s, m, x, n, k);
  }

  lemma SearchedDebt(u: Setup, s: Ctrl, m: Ctrl, x: Command, n: int, k: Tok)
    requires BooksOk(u, s) && m == s.(cq := m.cq) && Taken(s.cq, m.cq, x, n) && k.addr >= 0 && Addressed(u.dram, x)
    requires QueuesAskable(u, m.chan, m.cq) && IssueCommand(u, m, x).Some?
    ensures |IssueCommand(u, m, x).value.cq.queues| == u.NumQueues() && Debt(u, IssueCommand(u, m, x).value, k) == Debt(u, s, k)
    ensures x.IsReadWrite() ==> TokC(x).addr >= 0 && Waiting(u, s, TokC(x)) == 1
  {
    hide Issue, OrderOk, ModeOk, Waiting, Owing, Balanced, QueuesAskable;
    var r, a := IssueCommand(u, m, x).value, Account(u, m, x).value;
    if x.IsReadWrite() {
      var j :| 0 <= j < |s.cq.queues[n]| && s.cq.queues[n][j] == x;
      EntryIsPending(u, s, n, x);
      EntryOwed(u, s, n, x);
      OwingIgnores(s, m);
      OwingAfterAccount(u, m, x, k);
      OwingIgnores(s, m);
      WaitingAfterTake(u, s, m.cq, x, n, k);
      AccountShape(u, m, x);
      DebtIgnores(u, a, r, k);
      WaitingIgnores(u, m, a, k);
    } else {
      DebtIgnores(u, s, r, k);
    }
  }

  lemma EntryOwed(u: Setup, s: Ctrl, n: int, x: Command)
    requires u.WellFormed() && QueuesOk(u, s.cq) && Balanced(u, s) && 0 <= n < |s.cq.queues| && x in s.cq.queues[n]
    ensures x.hexAddr >= 0 && Owing(s, TokC(x)) == 1
  {
    EntryIsPending(u, s, n, x);
  }

  lemma WaitingIgnores(u: Setup, s: Ctrl, s': Ctrl, k: Tok)
    requires u.WellFormed() && |s.cq.queues| == u.NumQueues() && k.addr >= 0
    requires s'.cq == s.cq && s'.unifiedQ == s.unifiedQ && s'.readQ == s.readQ && s'.writeBuf == s.writeBuf
    ensures Waiting(u, s', k) == Waiting(u, s, k)
  {}

  lemma AccountShape(u: Setup, s: Ctrl, x: Command)
    requires Account(u, s, x).Some?
    ensures var a := Account(u, s, x).value;
      a == s.(pendingRd := a.pendingRd, pendingWr := a.pendingWr, returnQ := a.returnQ)
  {}

  /** The second search of the cycle takes a column command after a column command. */
  ghost predicate SecondDrops(u: Setup, a: Ctrl, x: Command)
    requires QueuesAskable(u, a.chan, a.cq)
  {
    var g := GetCommandToIssue(u, a.chan, a.cq, a.clk, u.NumQueues()).1;
    x.IsReadWrite() && g.Go? && g.cmd.IsReadWrite()
  }

  /** A second command pays its own way, unless it is dropped: then its token alone is left in debt. */
  lemma SecondDebt(u: Setup, a: Ctrl, x: Command, k: Tok)
    requires Inv(u, a) && QueuesAskable(u, a.chan, a.cq) && k.addr >= 0 && SecondCommand(u, a, x).Some? && Inv(u, SecondCommand(u, a, x).value)
    ensures var g, m := GetCommandToIssue(u, a.chan, a.cq, a.clk, u.NumQueues()).1, SecondCommand(u, a, x).value;
      && Debt(u, m, k) == Debt(u, a, k) + (if SecondDrops(u, a, x) && k == TokC(g.cmd) then 1 else 0)
      && (SecondDrops(u, a, x) ==> TokC(g.cmd).addr >= 0 && Waiting(u, a, TokC(g.cmd)) == 1 && m.trace == a.trace)
      && a.trace <= m.trace
      && (forall i :: |a.trace| <= i < |m.trace| && m.trace[i].cmd.IsReadWrite() ==>
            TokC(m.trace[i].cmd).addr >= 0 && Waiting(u, a, TokC(m.trace[i].cmd)) == 1)
  {
    hide Chosen, Sound, OrderOk, ModeOk, Balanced, TraceOk, ChanOk, RefreshOk, GetCommandToIssue, IssueCommand, Waiting, Owing;
    SearchOf(u, a);
    var (cq', g) := GetCommandToIssue(u, a.chan, a.cq, a.clk, u.NumQueues());
    if g.Go? {
      var y := g.cmd;
      if y.IsReadWrite() != x.IsReadWrite() {
        IssueKeepsDebt(u, a, cq', y, k);
        IssuedCommand(u, a.(cq := cq'), y);
      } else {
        DropDebt(u, a, cq', y, k);
      }
    } else {
      DebtIgnores(u, a, a.(cq := cq'), k);
    }
  }

  lemma DropDebt(u: Setup, a: Ctrl, cq': CmdQ, y: Command, k: Tok)
    requires Inv(u, a) && QueuesAskable(u, a.chan, a.cq) && k.addr >= 0 && SearchOk(u, a.chan, a.cq, a.clk, (cq', Go(y)))
    ensures |cq'.queues| == u.NumQueues()
    ensures Debt(u, a.(cq := cq'), k) == Debt(u, a, k) + (if y.IsReadWrite() && k == TokC(y) then 1 else 0)
    ensures y.IsReadWrite() ==> TokC(y).addr >= 0 && Waiting(u, a, TokC(y)) == 1
  {
    hide Chosen, Sound, OrderOk, ModeOk, TraceOk, ChanOk, RefreshOk, Waiting, Owing;
    var n, i :| 0 <= n < |a.cq.queues| && !Blocked(a.cq, n) && Chosen(u, a.chan, a.cq.queues[n], a.clk, y, i) && Taken(a.cq, cq', y, n);
    var m := a.(cq := cq');
    if y.IsReadWrite() {
      var j :| 0 <= j < |a.cq.queues[n]| && a.cq.queues[n][j] == y;
      EntryIsPending(u, a, n, y);
      WaitingAfterTake(u, a, cq', y, n, k);
      OwingIgnores(a, m);
    } else {
      DebtIgnores(u, a, m, k);
    }
  }

  /** The first command of a cycle pays its own way. */
  lemma FirstDebt(u: Setup, s: Ctrl, k: Tok)
    requires Inv(u, s) && Callable(u, s) && k.addr >= 0
    ensures var (cq, r) := Choose(u, s);
      && !r.Abort? && |cq.queues| == u.NumQueues() && QueuesOk(u, cq)
      && (r.NotReady? ==> Debt(u, s.(cq := cq), k) == Debt(u, s, k))
      && (r.Go? ==>
            && Sound(u.dram, s.chan, r.cmd, s.clk)
            && var a := IssueCommand(u, s.(cq := cq), r.cmd);
               && a.Some? && Inv(u, a.value) && Debt(u, a.value, k) == Debt(u, s, k)
               && (r.cmd.IsReadWrite() ==> TokC(r.cmd).addr >= 0 && Waiting(u, s, TokC(r.cmd)) == 1))
  {
    hide BooksOk, ChannelOk, RefreshOk, GetCommandToIssue, IssueCommand, FinishRefresh, Sound, Chosen, Waiting, Owing, Debt;
    if s.chan.refreshQ != [] { IssueRefreshWork(u, s); RefreshWorkIsNoWrite(u, s); FinishKeepsQueues(u, s); }
    var f := if s.chan.refreshQ == [] then (s.cq, NotReady) else FinishRefresh(u, s.chan, s.cq, s.clk);
    var m := s.(cq := f.0);
    SizeOf(u, s);
    DebtIgnores(u, s, m, k);
    if f.1.NotReady? {
      SearchOf(u, m);
      var g := GetCommandToIssue(u, s.chan, f.0, s.clk, u.NumQueues());
      SearchKeepsQueuesOk(u, m, g);
      if g.1.Go? {
        IssueKeepsDebt(u, m, g.0, g.1.cmd, k);
        if g.1.cmd.IsReadWrite() { SameWaiting(u, s, m, TokC(g.1.cmd)); }
      } else {
        DebtIgnores(u, m, m.(cq := g.0), k);
      }
    } else {
      PlainIssueDebt(u, s, m, f.1.cmd, k);
    }
  }

  lemma SameWaiting(u: Setup, s: Ctrl, m: Ctrl, k: Tok)
    requires u.WellFormed() && |s.cq.queues| == u.NumQueues() && k.addr >= 0 && m == s.(cq := m.cq) && m.cq.queues == s.cq.queues
    ensures Waiting(u, m, k) == Waiting(u, s, k)
  {}

  lemma SizeOf(u: Setup, s: Ctrl)
    requires Inv(u, s)
    ensures u.WellFormed() && |s.cq.queues| == u.NumQueues() && QueuesOk(u, s.cq)
  {}

  lemma FinishKeepsQueues(u: Setup, s: Ctrl)
    requires Inv(u, s) && Callable(u, s) && s.chan.refreshQ != []
    ensures FinishRefresh(u, s.chan, s.cq, s.clk).0.queues == s.cq.queues && QueuesOk(u, FinishRefresh(u, s.chan, s.cq, s.clk).0)
  {}

  lemma SearchKeepsQueuesOk(u: Setup, s: Ctrl, g: (CmdQ, Reply))
    requires Inv(u, s) && QueuesAskable(u, s.chan, s.cq) && SearchOk(u, s.chan, s.cq, s.clk, g)
    ensures QueuesOk(u, g.0) && !g.1.Abort? && (g.1.NotReady? ==> g.0.queues == s.cq.queues)
  {
    hide Chosen, Sound, Balanced, TraceOk, RefreshOk, ModeOk;
    if g.1.Go? {
      var x := g.1.cmd;
      var n, i :| 0 <= n < |s.cq.queues| && !Blocked(s.cq, n) && Chosen(u, s.chan, s.cq.queues[n], s.clk, x, i) && Taken(s.cq, g.0, x, n);
      TakenKeepsQueues(u, s, g.0, x, n);
    }
  }

  lemma PlainIssueDebt(u: Setup, s: Ctrl, m: Ctrl, x: Command, k: Tok)
    requires u.WellFormed() && |s.cq.queues| == u.NumQueues() && k.addr >= 0 && !x.IsReadWrite() && m == s.(cq := m.cq) && m.cq.queues == s.cq.queues
    requires QueuesAskable(u, m.chan, m.cq) && Addressed(u.dram, x) && IssueCommand(u, m, x).Some?
    ensures |IssueCommand(u, m, x).value.cq.queues| == u.NumQueues() && Debt(u, IssueCommand(u, m, x).value, k) == Debt(u, s, k)
  {
    hide Issue, QueuesAskable;
    PlainAccount(u, m, x);
    DebtIgnores(u, s, IssueCommand(u, m, x).value, k);
  }

  /**
   * The condition under which a cycle loses a command, on the configuration, the queues and the tables before any issue:
   * dual-command mode, a column command first, and a second entry that the search reaches before any other willing one,
   * whose row stays open and whose delay after the first command is over at once.
   */
  ghost predicate DropsNow(u: Setup, s: Ctrl)
    requires Callable(u, s)
  {
    var (cq, r) := Choose(u, s);
    && u.dual && r.Go? && r.cmd.IsReadWrite() && AllFollowable(u, s.chan, r.cmd, cq)
    && exists n, i :: TakesColumn(u, s.chan, r.cmd, cq, s.clk, n, i)
  }

  /** A loss needs two column commands between which the tables leave no delay. */
  lemma DropNeedsNoDelay(u: Setup, s: Ctrl) returns (n: int, i: int)
    requires Inv(u, s) && Callable(u, s) && DropsNow(u, s)
    ensures var (cq, r) := Choose(u, s);
      && 0 <= n < |cq.queues| && 0 <= i < |cq.queues[n]|
      && var y := cq.queues[n][i];
         y.IsReadWrite() && !Closes(r.cmd, y.At()) && Later(s.clk, ColumnGap(u.dram, r.cmd, y)) <= s.clk
  {
    hide BooksOk, TraceOk, RefreshOk, Choose, QueuesAskable, ReadyAfter, Imposed;
    FirstDebt(u, s, Tok(false, 0));
    var (cq, r) := Choose(u, s);
    n, i :| TakesColumn(u, s.chan, r.cmd, cq, s.clk, n, i);
    var q := cq.queues[n];
    assert Followable(u, s.chan, r.cmd, q) && q[i] in q;
    ColumnIsEntry(u, s.chan, r.cmd, q, s.clk, i);
    StaysOpen(u, s.chan, r.cmd, q[i], s.clk);
    ColumnUndelayed(u.dram, r.cmd, q[i], s.clk);
  }

  lemma StaysOpen(u: Setup, s: Chan, x: Command, y: Command, clk: nat)
    requires u.dram.WellFormed() && ChanOk(u.dram, s) && Sound(u.dram, s, x, clk) && x.IsReadWrite() && y.IsReadWrite() && u.dram.Holds(y.At())
    requires Addressed(u.dram, x) && UpdateState(u.dram, s, x).Some? && AnswerAfter(u.dram, s, x, y, clk) == Go(y)
    ensures !Closes(x, y.At()) && Undelayed(u.dram, x, y.At(), y.kind, clk)
  {
    hide Undelayed;
    assert UpdateState(u.dram, s, x).value.banks[y.At()] ==
      if x.Touches(y.At()) then BankNext(s.banks[y.At()], x.kind, x.row).value else s.banks[y.At()];
  }

  /** The state after the first command of a cycle, ready for the second search. */
  lemma AfterFirstIs(u: Setup, s: Ctrl)
    requires Inv(u, s) && Callable(u, s) && Choose(u, s).1.Go?
    ensures var (cq, r) := Choose(u, s); var a := IssueCommand(u, s.(cq := cq), r.cmd);
      && a.Some? && Inv(u, a.value) && QueuesAskable(u, a.value.chan, a.value.cq)
      && a.value.cq == cq && a.value.clk == s.clk && a.value.trace == s.trace + [Issued(r.cmd, s.clk)]
      && Some(a.value.chan) == Issue(u.dram, s.chan, r.cmd, s.clk)
      && IssueStage(u, s) == (if u.dual then SecondCommand(u, a.value, r.cmd) else a)
  {
    hide Inv, Choose, IssueCommand, SecondCommand;
    FirstDebt(u, s, Tok(false, 0));
    var (cq, r) := Choose(u, s);
    IssuedCommand(u, s.(cq := cq), r.cmd);
    IssuedRefreshQ(u, s.(cq := cq), r.cmd);
  }

  /** The second search drops a column command exactly under that condition. */
  lemma SecondDropsIff(u: Setup, s: Ctrl)
    requires Inv(u, s) && Callable(u, s) && u.dual && Choose(u, s).1.Go?
    ensures var (cq, r) := Choose(u, s); var a := IssueCommand(u, s.(cq := cq), r.cmd);
      && a.Some? && QueuesAskable(u, a.value.chan, a.value.cq)
      && (SecondDrops(u, a.value, r.cmd) <==> DropsNow(u, s))
      && (r.cmd.IsReadWrite() ==> AllFollowable(u, s.chan, r.cmd, cq) && forall n, i :: TakesColumn(u, s.chan, r.cmd, cq, s.clk, n, i) ==>
            GetCommandToIssue(u, a.value.chan, a.value.cq, a.value.clk, u.NumQueues()).1 == Go(cq.queues[n][i]))
  {
    hide BooksOk, TraceOk, RefreshOk, Choose, IssueCommand, GetCommandToIssue, Sound, Issue, TakesColumn, Askable, AllFollowable;
    AfterFirstIs(u, s);
    FirstDebt(u, s, Tok(false, 0));
    var (cq, r) := Choose(u, s);
    var a := IssueCommand(u, s.(cq := cq), r.cmd).value;
    if r.cmd.IsReadWrite() {
      EveryFollowable(u, s.chan, r.cmd, cq, s.clk);
      SecondSearchIff(u, s.chan, r.cmd, cq, s.clk);
      assert |cq.queues| == u.NumQueues();
    }
  }

  lemma EveryFollowable(u: Setup, s: Chan, x: Command, cq: CmdQ, clk: nat)
    requires QueuesAskable(u, s, cq) && ChanOk(u.dram, s) && Sound(u.dram, s, x, clk)
    ensures AllFollowable(u, s, x, cq)
  {
    hide Sound, UpdateState, Askable;
    IssueKeepsOk(u.dram, s, x, clk);
    SoundIsAddressed(u.dram, s, x, clk);
  }

  lemma StageIdle(u: Setup, s: Ctrl)
    requires Callable(u, s) && Choose(u, s).1.NotReady?
    ensures IssueStage(u, s) == Some(s.(cq := Choose(u, s).0))
  {}

  lemma StageOk(u: Setup, s: Ctrl)
    requires Inv(u, s) && Callable(u, s)
    ensures u.WellFormed() && |s.cq.queues| == u.NumQueues()
    ensures var m := IssueStage(u, s);
      m.Some? && Inv(u, m.value) && s.trace <= m.value.trace && |m.value.cq.queues| == u.NumQueues()
  {
    hide BooksOk, ChannelOk, RefreshOk, IssueStage;
    SizeOf(u, s);
    IssueStageKeepsInv(u, s);
    SizeOf(u, IssueStage(u, s).value);
  }

  /** Over one cycle's issuing no debt shrinks, and none changes unless a command is dropped. */
  lemma StageDebt(u: Setup, s: Ctrl, k: Tok)
    requires Inv(u, s) && Callable(u, s) && k.addr >= 0
    ensures u.WellFormed() && |s.cq.queues| == u.NumQueues() && IssueStage(u, s).Some? && |IssueStage(u, s).value.cq.queues| == u.NumQueues()
    ensures Debt(u, IssueStage(u, s).value, k) >= Debt(u, s, k)
    ensures !DropsNow(u, s) ==> Debt(u, IssueStage(u, s).value, k) == Debt(u, s, k)
  {
    hide Inv, Callable, Choose, IssueCommand, SecondCommand, GetCommandToIssue, Sound, SecondDrops, IssueStage, DropsNow, Debt, QueuesOk;
    StageOk(u, s);
    FirstDebt(u, s, k);
    var (cq, r) := Choose(u, s);
    if r.Go? {
      AfterFirstIs(u, s);
      if u.dual {
        SecondDebt(u, IssueCommand(u, s.(cq := cq), r.cmd).value, r.cmd, k);
        SecondDropsIff(u, s);
      }
    } else {
      StageIdle(u, s);
    }
  }

  /** The entry that is taken second is lost, and was not lost before. */
  lemma StageDrops(u: Setup, s: Ctrl, n: int, i: int)
    requires Inv(u, s) && Callable(u, s) && u.dual && Choose(u, s).1.Go? && Choose(u, s).1.cmd.IsReadWrite()
    requires AllFollowable(u, s.chan, Choose(u, s).1.cmd, Choose(u, s).0)
    requires TakesColumn(u, s.chan, Choose(u, s).1.cmd, Choose(u, s).0, s.clk, n, i)
    ensures u.WellFormed() && |s.cq.queues| == u.NumQueues() && IssueStage(u, s).Some? && |IssueStage(u, s).value.cq.queues| == u.NumQueues()
    ensures var j := TokC(Choose(u, s).0.queues[n][i]); j.addr >= 0 && !Lost(u, s, j) && Lost(u, IssueStage(u, s).value, j)
  {
    StageOk(u, s);
    SecondDropsIff(u, s);
    AfterFirstIs(u, s);
    assert DropsNow(u, s);
    hide Inv, Choose, IssueCommand, SecondCommand, GetCommandToIssue, Debt, IssueStage, Lost, TakesColumn, AllFollowable, Callable;
    var (cq, r) := Choose(u, s);
    var a := IssueCommand(u, s.(cq := cq), r.cmd).value;
    var j := TokC(cq.queues[n][i]);
    SecondDebt(u, a, r.cmd, Tok(false, 0));
    SecondDebt(u, a, r.cmd, j);
    FirstDebt(u, s, j);
    NewlyLost(u, s, a, IssueStage(u, s).value, j);
  }

  /** A lost token stays lost, and nothing is issued for it. */
  lemma StageKeepsLost(u: Setup, s: Ctrl, k: Tok)
    requires Inv(u, s) && Callable(u, s) && k.addr >= 0 && u.WellFormed() && |s.cq.queues| == u.NumQueues() && Lost(u, s, k)
    ensures IssueStage(u, s).Some? && |IssueStage(u, s).value.cq.queues| == u.NumQueues()
    ensures Lost(u, IssueStage(u, s).value, k) && NothingIssuedFor(s, IssueStage(u, s).value, k)
  {
    hide Inv, Callable, Choose, IssueCommand, SecondCommand, GetCommandToIssue, Sound, SecondDrops, IssueStage, DropsNow, Debt, QueuesOk, Lost, Waiting;
    StageOk(u, s);
    StageDebt(u, s, k);
    var m := IssueStage(u, s).value;
    StaysOwed(u, s, m, k);
    FirstDebt(u, s, k);
    var (cq, r) := Choose(u, s);
    if r.Go? {
      AfterFirstIs(u, s);
      var a := IssueCommand(u, s.(cq := cq), r.cmd).value;
      SizeOf(u, a);
      StaysOwed(u, s, a, k);
      if u.dual { SecondDebt(u, a, r.cmd, k); }
      LostUnissued(u, s, a, m, r.cmd, k);
    } else {
      StageIdle(u, s);
    }
  }

  /** Some token is newly lost by a cycle's issuing exactly when the condition holds before it. */
  lemma StageLosesIff(u: Setup, s: Ctrl)
    requires Inv(u, s) && Callable(u, s)
    ensures u.WellFormed() && |s.cq.queues| == u.NumQueues() && IssueStage(u, s).Some? && |IssueStage(u, s).value.cq.queues| == u.NumQueues()
    ensures (exists k: Tok :: k.addr >= 0 && !Lost(u, s, k) && Lost(u, IssueStage(u, s).value, k)) <==> DropsNow(u, s)
  {
    StageOk(u, s);
    hide Inv, Callable, IssueStage, DropsNow, Waiting, Owing;
    if DropsNow(u, s) {
      StageDropsSome(u, s);
    } else {
      forall k: Tok | k.addr >= 0 && !Lost(u, s, k) ensures !Lost(u, IssueStage(u, s).value, k) {
        StageDebt(u, s, k);
        OwingAtMostOne(u, s, k);
      }
    }
  }

  lemma StageDropsSome(u: Setup, s: Ctrl)
    requires Inv(u, s) && Callable(u, s) && DropsNow(u, s)
    ensures u.WellFormed() && |s.cq.queues| == u.NumQueues() && IssueStage(u, s).Some? && |IssueStage(u, s).value.cq.queues| == u.NumQueues()
    ensures exists k: Tok :: k.addr >= 0 && !Lost(u, s, k) && Lost(u, IssueStage(u, s).value, k)
  {
    hide Inv, Callable, IssueStage, Choose, TakesColumn, AllFollowable, Lost;
    var (cq, r) := Choose(u, s);
    var n, i :| TakesColumn(u, s.chan, r.cmd, cq, s.clk, n, i);
    StageDrops(u, s, n, i);
  }

  lemma OwingAtMostOne(u: Setup, s: Ctrl, k: Tok)
    requires Inv(u, s) && k.addr >= 0
    ensures u.WellFormed() && |s.cq.queues| == u.NumQueues() && Waiting(u, s, k) <= Owing(s, k) <= 1
  {
    assert BalancedAt(u, s, k);
  }

  /** No column command of the token is issued between the two states. */
  ghost predicate NothingIssuedFor(s: Ctrl, m: Ctrl, k: Tok) {
    forall i :: |s.trace| <= i < |m.trace| && m.trace[i].cmd.IsReadWrite() ==> TokC(m.trace[i].cmd) != k
  }

  lemma NewlyLost(u: Setup, s: Ctrl, a: Ctrl, m: Ctrl, j: Tok)
    requires Inv(u, s) && Inv(u, a) && Inv(u, m) && j.addr >= 0 && Waiting(u, a, j) == 1
    requires Debt(u, a, j) == Debt(u, s, j) && Debt(u, m, j) == Debt(u, a, j) + 1
    ensures !Lost(u, s, j) && Lost(u, m, j)
  {
    hide Waiting, Owing, OrderOk, ModeOk, ChannelOk, RefreshOk, CmdOk;
    assert BalancedAt(u, s, j) && BalancedAt(u, a, j) && BalancedAt(u, m, j);
  }

  lemma StaysOwed(u: Setup, s: Ctrl, m: Ctrl, k: Tok)
    requires Inv(u, s) && Inv(u, m) && k.addr >= 0 && Lost(u, s, k) && Debt(u, m, k) >= Debt(u, s, k)
    ensures Lost(u, m, k)
  {
    hide Waiting, Owing, OrderOk, ModeOk, ChannelOk, RefreshOk, CmdOk;
    assert BalancedAt(u, m, k);
  }

  lemma LostUnissued(u: Setup, s: Ctrl, a: Ctrl, m: Ctrl, x: Command, k: Tok)
    requires u.WellFormed() && |s.cq.queues| == |a.cq.queues| == u.NumQueues() && k.addr >= 0
    requires Lost(u, s, k) && Lost(u, a, k) && a.trace == s.trace + [Issued(x, s.clk)] && a.trace <= m.trace
    requires x.IsReadWrite() ==> TokC(x).addr >= 0 && Waiting(u, s, TokC(x)) == 1
    requires forall i :: |a.trace| <= i < |m.trace| && m.trace[i].cmd.IsReadWrite() ==>
      TokC(m.trace[i].cmd).addr >= 0 && Waiting(u, a, TokC(m.trace[i].cmd)) == 1
    ensures NothingIssuedFor(s, m, k)
  {
    hide Waiting, Owing;
    forall i | |s.trace| <= i < |m.trace| && m.trace[i].cmd.IsReadWrite() ensures TokC(m.trace[i].cmd) != k {
      if i < |a.trace| { assert m.trace[i] == a.trace[i]; }
    }
  }

  // ---- Whole cycles and whole runs ----------------------------------------------------------------------------------

  lemma ScheduleKeepsDebt(u: Setup, s: Ctrl, k: Tok)
    requires u.WellFormed() && |s.cq.queues| == u.NumQueues() && k.addr >= 0
    ensures |EndTick(u, s).cq.queues| == u.NumQueues() && Debt(u, EndTick(u, s), k) == Debt(u, s, k)
  {
    hide Unscheduled, Scheduled, Owing, Setup.NumQueues, Setup.QueueIndex, AddressMapping, QueueEmpty, Setup.WellFormed;
    var m := ScheduleTransaction(u, s);
    var d := if s.draining == 0 && !u.unified &&
       (|s.writeBuf| >= u.transQueueSize || (|s.writeBuf| > 8 && QueueEmpty(s.cq))) then |s.writeBuf| else s.draining;
    if m == s.(draining := m.draining) {
      DebtIgnores(u, s, EndTick(u, s), k);
    } else {
      MoveUnschedules(u, s, d, k);
      MoveSchedules(u, s, d, k);
      var v := Moved(u, s, d);
      OwingIgnores(s, v);
      DebtIgnores(u, v, EndTick(u, s), k);
    }
  }

  lemma BeginKeepsDebt(u: Setup, s: Ctrl, k: Tok)
    requires Inv(u, s) && Callable(u, s) && k.addr >= 0
    ensures u.WellFormed() && |s.cq.queues| == |BeginTick(u, s).cq.queues| == u.NumQueues()
    ensures Debt(u, BeginTick(u, s), k) == Debt(u, s, k)
  {
    hide BooksOk, ChannelOk, RefreshOk;
    SizeOf(u, s);
    DebtIgnores(u, s, BeginTick(u, s), k);
  }

  /** What a whole cycle does to the debt of a token is what its issuing does. */
  lemma TickDebt(u: Setup, s: Ctrl, k: Tok)
    requires Inv(u, s) && k.addr >= 0
    ensures Callable(u, s) && u.WellFormed() && |s.cq.queues| == u.NumQueues()
    ensures var b := BeginTick(u, s);
      && ClockTick(u, s).Some? && Inv(u, ClockTick(u, s).value) && Inv(u, b) && IssueStage(u, b).Some?
      && |b.cq.queues| == |IssueStage(u, b).value.cq.queues| == |ClockTick(u, s).value.cq.queues| == u.NumQueues()
      && Debt(u, b, k) == Debt(u, s, k) && Debt(u, ClockTick(u, s).value, k) == Debt(u, IssueStage(u, b).value, k)
      && b.trace == s.trace && ClockTick(u, s).value.trace == IssueStage(u, b).value.trace
  {
    TickKeepsInv(u, s);
    BeginKeepsInv(u, s);
    StageOk(u, BeginTick(u, s));
    BeginKeepsDebt(u, s, k);
    BeginShape(u, s);
    hide Inv, Callable, BeginTick, IssueStage, EndTick, Debt;
    var m := IssueStage(u, BeginTick(u, s)).value;
    ScheduleKeepsDebt(u, m, k);
    EndShape(u, m);
  }

  lemma LostIsDebt(u: Setup, s: Ctrl, k: Tok)
    requires Inv(u, s) && k.addr >= 0
    ensures u.WellFormed() && |s.cq.queues| == u.NumQueues() && (Lost(u, s, k) <==> Debt(u, s, k) == 1) && Debt(u, s, k) >= 0
  {
    hide Waiting, Owing;
    OwingAtMostOne(u, s, k);
  }

  /** A cycle loses a command exactly when the condition holds once the cycle's refresh tick is done. */
  lemma TickLosesIff(u: Setup, s: Ctrl)
    requires Inv(u, s)
    ensures Callable(u, s) && u.WellFormed() && ClockTick(u, s).Some? && |s.cq.queues| == |ClockTick(u, s).value.cq.queues| == u.NumQueues()
    ensures (exists k: Tok :: k.addr >= 0 && !Lost(u, s, k) && Lost(u, ClockTick(u, s).value, k)) <==> DropsNow(u, BeginTick(u, s))
  {
    hide Inv, ClockTick, BeginTick, IssueStage, DropsNow, Lost, Debt, Callable;
    TickDebt(u, s, Tok(false, 0));
    var b, t := BeginTick(u, s), ClockTick(u, s).value;
    BeginIsCallable(u, s);
    StageLosesIff(u, b);
    StageOk(u, b);
    forall k: Tok | k.addr >= 0
      ensures (Lost(u, b, k) <==> Lost(u, s, k)) && (Lost(u, IssueStage(u, b).value, k) <==> Lost(u, t, k))
    {
      TickDebt(u, s, k);
      LostIsDebt(u, s, k);
      LostIsDebt(u, b, k);
      LostIsDebt(u, t, k);
      LostIsDebt(u, IssueStage(u, b).value, k);
    }
  }

  /** The entry taken second in a cycle is lost at its end. */
  lemma TickDrops(u: Setup, s: Ctrl, n: int, i: int)
    requires Inv(u, s) && Callable(u, s) && Callable(u, BeginTick(u, s)) && u.dual
    requires var (cq, r) := Choose(u, BeginTick(u, s));
      && r.Go? && r.cmd.IsReadWrite() && AllFollowable(u, BeginTick(u, s).chan, r.cmd, cq)
      && TakesColumn(u, BeginTick(u, s).chan, r.cmd, cq, BeginTick(u, s).clk, n, i)
    ensures u.WellFormed() && ClockTick(u, s).Some? && |ClockTick(u, s).value.cq.queues| == u.NumQueues()
    ensures var k := TokC(Choose(u, BeginTick(u, s)).0.queues[n][i]); k.addr >= 0 && Lost(u, ClockTick(u, s).value, k)
  {
    hide Inv, ClockTick, IssueStage, Lost, Debt, Callable, Choose, AllFollowable, WillingAfter, ReadyAfter, AnswerAfter;
    TickDebt(u, s, Tok(false, 0));
    var b := BeginTick(u, s);
    StageDrops(u, b, n, i);
    StageOk(u, b);
    var k := TokC(Choose(u, b).0.queues[n][i]);
    TickDebt(u, s, k);
    LostIsDebt(u, IssueStage(u, b).value, k);
    LostIsDebt(u, ClockTick(u, s).value, k);
  }

  lemma BeginIsCallable(u: Setup, s: Ctrl)
    requires Callable(u, s)
    ensures Callable(u, BeginTick(u, s))
  {}

  lemma TickKeepsLost(u: Setup, s: Ctrl, k: Tok)
    requires Inv(u, s) && k.addr >= 0 && u.WellFormed() && |s.cq.queues| == u.NumQueues() && Lost(u, s, k)
    ensures Callable(u, s) && ClockTick(u, s).Some? && |ClockTick(u, s).value.cq.queues| == u.NumQueues()
    ensures Lost(u, ClockTick(u, s).value, k) && NothingIssuedFor(s, ClockTick(u, s).value, k)
  {
    hide Inv, ClockTick, BeginTick, IssueStage, Lost, Debt, Callable;
    TickDebt(u, s, k);
    var b := BeginTick(u, s);
    BeginIsCallable(u, s);
    LostIsDebt(u, s, k);
    LostIsDebt(u, b, k);
    StageKeepsLost(u, b, k);
    StageOk(u, b);
    LostIsDebt(u, IssueStage(u, b).value, k);
    LostIsDebt(u, ClockTick(u, s).value, k);
  }

  /** A new transaction joins what is owed and what waits together, or neither. */
  lemma AddKeepsDebt(u: Setup, s: Ctrl, addr: nat, isWrite: bool, k: Tok)
    requires Inv(u, s) && k.addr >= 0
    ensures u.WellFormed() && |s.cq.queues| == |AddTransaction(u, s, addr, isWrite).cq.queues| == u.NumQueues()
    ensures Debt(u, AddTransaction(u, s, addr, isWrite), k) == Debt(u, s, k)
  {
    hide Balanced, OrderOk, ModeOk, ChannelOk, RefreshOk, Waiting, Owing;
    var t, s' := Trans(addr, isWrite, s.clk, 0), AddTransaction(u, s, addr, isWrite);
    if At(s.pendingWr, addr) == [] && (isWrite || At(s.pendingRd, addr) == []) {
      WaitingAfterAccept(u, s, t, k);
      OwingAfterAccept(u, s, t, k);
      DebtIgnores(u, Accept(u, s, t), s', k);
    } else {
      WaitingIgnores(u, s, s', k);
      MoreReadsOwing(s, s', k);
    }
  }

  lemma MoreReadsOwing(s: Ctrl, s': Ctrl, k: Tok)
    requires s'.pendingWr == s.pendingWr && forall a :: (At(s'.pendingRd, a) == []) == (At(s.pendingRd, a) == [])
    ensures Owing(s', k) == Owing(s, k)
  {}

  /** No event, offers of the same address included, brings a lost token back. */
  lemma StepKeepsLost(u: Setup, y: System, e: Event, k: Tok)
    requires SystemOk(u, y) && k.addr >= 0 && u.WellFormed() && |y.ctrl.cq.queues| == u.NumQueues() && Lost(u, y.ctrl, k)
    ensures Step(u, y, e).Some? && |Step(u, y, e).value.ctrl.cq.queues| == u.NumQueues()
    ensures Lost(u, Step(u, y, e).value.ctrl, k) && NothingIssuedFor(y.ctrl, Step(u, y, e).value.ctrl, k)
    ensures y.ctrl.trace <= Step(u, y, e).value.ctrl.trace
  {
    hide Inv, ClockTick, Debt, Lost, Callable, Filed, Owed, Asked, AddTransaction, ReturnDoneTrans, Waiting, Owing, NothingIssuedFor;
    StepKeepsOk(u, y, e);
    var s, s' := y.ctrl, Step(u, y, e).value.ctrl;
    LostIsDebt(u, s, k);
    match e {
      case Offer(addr, isWrite) =>
        AddKeepsDebt(u, s, addr, isWrite, k);
        AddKeepsTrace(u, s, addr, isWrite);
        LostIsDebt(u, s', k);
        NoneIssued(s, s', k);
      case Cycle =>
        TickKeepsLost(u, s, k);
        TickKeepsInv(u, s);
      case Collect(clk) =>
        ReturnPaysOne(s, clk, k);
        DebtIgnores(u, s, s', k);
        LostIsDebt(u, s', k);
        NoneIssued(s, s', k);
    }
  }

  lemma NoneIssued(s: Ctrl, s': Ctrl, k: Tok)
    requires s'.trace == s.trace
    ensures NothingIssuedFor(s, s', k)
  {}

  lemma AddKeepsTrace(u: Setup, s: Ctrl, addr: nat, isWrite: bool)
    ensures AddTransaction(u, s, addr, isWrite).trace == s.trace
  {}

  /**
   * What is lost is lost for ever: in every continuation no command is issued for the address and direction again, and the
   * reads of a lost read's address that were accepted are never all returned.
   */
  lemma {:induction false} LostForever(u: Setup, y: System, es: seq<Event>, k: Tok)
    requires SystemOk(u, y) && k.addr >= 0 && u.WellFormed() && |y.ctrl.cq.queues| == u.NumQueues() && Lost(u, y.ctrl, k)
    ensures Steps(u, y, es).Some? && |Steps(u, y, es).value.ctrl.cq.queues| == u.NumQueues()
    ensures var w := Steps(u, y, es).value;
      && Lost(u, w.ctrl, k) && y.ctrl.trace <= w.ctrl.trace && NothingIssuedFor(y.ctrl, w.ctrl, k)
      && (!k.write ==> multiset(w.accepted)[k] > multiset(w.returned)[k])
  {
    hide SystemOk, Step, Lost;
    StepsKeepOk(u, y, es);
    if es != [] {
      var p := es[..|es| - 1];
      LostForever(u, y, p, k);
      StepsKeepOk(u, y, p);
      var v := Steps(u, y, p).value;
      StepKeepsLost(u, v, es[|es| - 1], k);
      var w := Steps(u, y, es).value;
      forall i | |y.ctrl.trace| <= i < |w.ctrl.trace| && w.ctrl.trace[i].cmd.IsReadWrite() ensures TokC(w.ctrl.trace[i].cmd) != k {
        if i < |v.ctrl.trace| { assert w.ctrl.trace[i] == v.ctrl.trace[i]; }
      }
    }
    if !k.write { UnansweredRead(u, Steps(u, y, es).value, k); }
  }

  lemma UnansweredRead(u: Setup, y: System, k: Tok)
    requires SystemOk(u, y) && k.addr >= 0 && !k.write && u.WellFormed() && |y.ctrl.cq.queues| == u.NumQueues() && Lost(u, y.ctrl, k)
    ensures multiset(y.accepted)[k] > multiset(y.returned)[k]
  {
    hide Inv, Filed, Waiting;
  }

  // ---- Configurations that lose nothing ------------------------------------------------------------------------------

  /** Two addresses whose column commands no delay separates, the first leaving the second's row open. */
  ghost predicate Close(u: Setup, v: bool, a: nat, w: bool, b: nat) {
    var x, y := TransToCommand(u, v, a), TransToCommand(u, w, b);
    !Closes(x, y.At()) && ColumnGap(u.dram, x, y) <= 0
  }

  /** Dual-command mode with two such addresses. */
  ghost predicate Hazard(u: Setup) { u.dual && exists v, a, w, b :: Close(u, v, a, w, b) }

  /** Positive column delays exclude the hazard. */
  lemma SafeHasNoHazard(u: Setup)
    requires u.WellFormed() && DualSafe(u)
    ensures !Hazard(u)
  {
    hide AddressMapping, TransToCommand;
    if u.dual {
      forall v, a: nat, w, b: nat ensures !Close(u, v, a, w, b) {
        CommandInRange(u, v, a);
        CommandInRange(u, w, b);
      }
    }
  }

  /** The first command of a cycle, if a column command, is one of a transaction. */
  lemma FirstIsOfAddress(u: Setup, s: Ctrl)
    requires Inv(u, s) && Callable(u, s) && Choose(u, s).1.Go? && Choose(u, s).1.cmd.IsReadWrite()
    ensures CmdOk(u, Choose(u, s).1.cmd)
  {
    hide BooksOk, TraceOk, RefreshOk, GetCommandToIssue, FinishRefresh, Sound, Chosen, CmdOk;
    if s.chan.refreshQ != [] { IssueRefreshWork(u, s); RefreshWorkIsNoWrite(u, s); FinishKeepsQueues(u, s); }
    var f := if s.chan.refreshQ == [] then (s.cq, NotReady) else FinishRefresh(u, s.chan, s.cq, s.clk);
    var m := s.(cq := f.0);
    SearchOf(u, m);
    TakenIsOk(u, m, GetCommandToIssue(u, s.chan, f.0, s.clk, u.NumQueues()));
  }

  lemma TakenIsOk(u: Setup, s: Ctrl, g: (CmdQ, Reply))
    requires Inv(u, s) && QueuesAskable(u, s.chan, s.cq) && SearchOk(u, s.chan, s.cq, s.clk, g) && g.1.Go? && g.1.cmd.IsReadWrite()
    ensures CmdOk(u, g.1.cmd)
  {
    hide Chosen, Sound, Balanced, TraceOk, RefreshOk, ModeOk, CmdOk;
    var x := g.1.cmd;
    var n, i :| 0 <= n < |s.cq.queues| && !Blocked(s.cq, n) && Chosen(u, s.chan, s.cq.queues[n], s.clk, x, i) && Taken(s.cq, g.0, x, n);
    var j :| 0 <= j < |s.cq.queues[n]| && s.cq.queues[n][j] == x;
    assert x in s.cq.queues[n];
  }

  lemma DropIsHazard(u: Setup, s: Ctrl)
    requires Inv(u, s) && Callable(u, s) && DropsNow(u, s)
    ensures Hazard(u)
  {
    hide Inv, Callable, Choose, AllFollowable, TakesColumn, TransToCommand, ColumnGap, Closes;
    FirstDebt(u, s, Tok(false, 0));
    FirstIsOfAddress(u, s);
    var n, i := DropNeedsNoDelay(u, s);
    var (cq, r) := Choose(u, s);
    var x, y := r.cmd, cq.queues[n][i];
    assert y in cq.queues[n] && CmdOk(u, y);
    assert Close(u, x.IsWrite(), x.hexAddr, y.IsWrite(), y.hexAddr);
  }

  ghost predicate LosesNone(u: Setup, s: Ctrl)
    requires u.WellFormed() && |s.cq.queues| == u.NumQueues()
  {
    forall k: Tok :: k.addr >= 0 ==> !Lost(u, s, k)
  }

  lemma StepLosesNone(u: Setup, y: System, e: Event)
    requires SystemOk(u, y) && !Hazard(u) && u.WellFormed() && |y.ctrl.cq.queues| == u.NumQueues() && LosesNone(u, y.ctrl)
    ensures Step(u, y, e).Some? && |Step(u, y, e).value.ctrl.cq.queues| == u.NumQueues() && LosesNone(u, Step(u, y, e).value.ctrl)
  {
    hide Inv, ClockTick, BeginTick, Debt, Lost, Callable, Filed, Owed, Asked, AddTransaction, ReturnDoneTrans, Waiting, Owing, DropsNow, Hazard;
    StepKeepsOk(u, y, e);
    var s, s' := y.ctrl, Step(u, y, e).value.ctrl;
    SizeOf(u, s');
    match e {
      case Cycle =>
        TickLosesIff(u, s);
        TickDebt(u, s, Tok(false, 0));
        BeginIsCallable(u, s);
        if DropsNow(u, BeginTick(u, s)) { DropIsHazard(u, BeginTick(u, s)); }
      case Offer(addr, isWrite) =>
        forall k: Tok | k.addr >= 0 ensures !Lost(u, s', k) {
          AddKeepsDebt(u, s, addr, isWrite, k);
          LostIsDebt(u, s, k);
          LostIsDebt(u, s', k);
        }
      case Collect(clk) =>
        forall k: Tok | k.addr >= 0 ensures !Lost(u, s', k) {
          ReturnPaysOne(s, clk, k);
          DebtIgnores(u, s, s', k);
          LostIsDebt(u, s, k);
          LostIsDebt(u, s', k);
        }
    }
  }

  /** Without the hazard no run of any length loses anything, whatever the other delays are. */
  lemma {:induction false} NoHazardNoLoss(u: Setup, es: seq<Event>)
    requires u.WellFormed() && RefreshInterval(u) > 0 && !Hazard(u)
    ensures Steps(u, Initial(u), es).Some? && |Steps(u, Initial(u), es).value.ctrl.cq.queues| == u.NumQueues()
    ensures LosesNone(u, Steps(u, Initial(u), es).value.ctrl)
  {
    hide SystemOk, Step, LosesNone, Hazard;
    EveryRunIsOk(u, es);
    if es == [] {
      NothingOwedAtFirst(u);
    } else {
      var p := es[..|es| - 1];
      NoHazardNoLoss(u, p);
      EveryRunIsOk(u, p);
      StepLosesNone(u, Steps(u, Initial(u), p).value, es[|es| - 1]);
    }
  }

  lemma NothingOwedAtFirst(u: Setup)
    requires u.WellFormed()
    ensures |Initial(u).ctrl.cq.queues| == u.NumQueues() && LosesNone(u, Initial(u).ctrl)
  {
    hide Waiting;
  }
}
