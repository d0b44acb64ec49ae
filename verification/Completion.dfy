/** When transactions complete: every answer is dated by the command that fetched it, over every run. */
module Completion {
  import opened Commands
  import opened Timing
  import opened Channel
  import opened ChannelHistory
  import opened Queueing
  import opened ControllerSafety
  import opened ControllerRuns

  /** Entry i of the trace reads the transaction's address, at or after the time it came. */
  ghost predicate CouldFetch(h: seq<Issued>, t: Trans, i: int) {
    0 <= i < |h| && h[i].cmd.IsRead() && h[i].cmd.hexAddr == t.addr && t.added <= h[i].clk
  }

  /** Entry i is the first such, and its data arrives when the transaction completes. */
  ghost predicate FetchedAt(c: Config, h: seq<Issued>, t: Trans, i: int) {
    && CouldFetch(h, t, i) && (forall j :: 0 <= j < i ==> !CouldFetch(h, t, j))
    && t.complete == Later(h[i].clk, c.AL + c.CL + c.burstCycle)
  }

  ghost predicate Fetched(c: Config, h: seq<Issued>, t: Trans) { exists i :: FetchedAt(c, h, t, i) }

  /**
   * How often t was answered, in the return queue or in `out`: a write one cycle after it came; a read as often as it was
   * forwarded, and beyond that only if a command fetched it.
   */
  ghost predicate DatedAt(c: Config, s: Ctrl, out: multiset<Trans>, fwd: multiset<Trans>, t: Trans) {
    var n := multiset(s.returnQ)[t] + out[t];
    if t.isWrite then n > 0 ==> t.complete == t.added + 1 && t.added <= s.clk
    else fwd[t] <= n && (n > fwd[t] ==> Fetched(c, s.trace, t))
  }

  /** Pending reads were added in the past, and no command since has fetched them. */
  ghost predicate Past(s: Ctrl) {
    forall a, t :: a in s.pendingRd && t in s.pendingRd[a] ==>
      t.added <= s.clk && t.addr == a && !t.isWrite && forall i :: 0 <= i < |s.trace| ==> !CouldFetch(s.trace, t, i)
  }

  ghost predicate Dated(c: Config, s: Ctrl, out: multiset<Trans>, fwd: multiset<Trans>) {
    && Past(s) && (forall i :: 0 <= i < |s.trace| ==> s.trace[i].clk <= s.clk)
    && forall t: Trans :: DatedAt(c, s, out, fwd, t)
  }

  lemma FetchedExtends(c: Config, h: seq<Issued>, e: Issued, t: Trans)
    requires Fetched(c, h, t)
    ensures Fetched(c, h + [e], t)
  {
    var i :| FetchedAt(c, h, t, i);
    forall j | 0 <= j <= i ensures CouldFetch(h + [e], t, j) == CouldFetch(h, t, j) {}
    assert FetchedAt(c, h + [e], t, i);
  }

  lemma {:induction false} InCompleted(ts: seq<Trans>, at: nat, t: Trans)
    ensures t in Completed(ts, at) ==> t.complete == at && exists b :: b in ts && b.added == t.added && b.addr == t.addr && b.isWrite == t.isWrite
  {
    if ts != [] {
      InCompleted(ts[1..], at, t);
      assert ts == [ts[0]] + ts[1..];
      assert ts[0] in ts;
    }
  }

  /** Issuing a command dates the reads it fetches. */
  lemma IssueKeepsDates(u: Setup, s: Ctrl, x: Command, out: multiset<Trans>, fwd: multiset<Trans>)
    requires QueuesAskable(u, s.chan, s.cq) && Addressed(u.dram, x) && IssueCommand(u, s, x).Some? && Dated(u.dram, s, out, fwd)
    ensures Dated(u.dram, IssueCommand(u, s, x).value, out, fwd)
  {
    hide Issue, Fetched, Later, QueuesAskable;
    var r := IssueCommand(u, s, x).value;
    IssueIsPast(u, s, x);
    var e := Issued(x, s.clk);
    forall t: Trans ensures DatedAt(u.dram, r, out, fwd, t) {
      assert DatedAt(u.dram, s, out, fwd, t);
      if Fetched(u.dram, s.trace, t) { FetchedExtends(u.dram, s.trace, e, t); }
      if x.IsRead() { ReadDates(u, s, x, t); }
    }
  }

  lemma IssueIsPast(u: Setup, s: Ctrl, x: Command)
    requires QueuesAskable(u, s.chan, s.cq) && Addressed(u.dram, x) && IssueCommand(u, s, x).Some? && Past(s)
    ensures Past(IssueCommand(u, s, x).value)
  {
    hide Issue, QueuesAskable;
    var r := IssueCommand(u, s, x).value;
    forall a, t, i | a in r.pendingRd && t in r.pendingRd[a] && 0 <= i < |r.trace| ensures !CouldFetch(r.trace, t, i) {
      assert a in s.pendingRd && t in s.pendingRd[a];
      if i < |s.trace| { assert !CouldFetch(s.trace, t, i); }
    }
  }

  lemma ReadDates(u: Setup, s: Ctrl, x: Command, t: Trans)
    requires x.IsRead() && Past(s)
    ensures var done := Completed(At(s.pendingRd, x.hexAddr), Later(s.clk, u.dram.ReadDelay()));
      && multiset(s.returnQ + done)[t] == multiset(s.returnQ)[t] + multiset(done)[t]
      && (multiset(done)[t] > 0 ==> !t.isWrite && Fetched(u.dram, s.trace + [Issued(x, s.clk)], t))
  {
    hide Later;
    var ts, at := At(s.pendingRd, x.hexAddr), Later(s.clk, u.dram.ReadDelay());
    InCompleted(ts, at, t);
    if t in Completed(ts, at) {
      var b :| b in ts && b.added == t.added && b.addr == t.addr && b.isWrite == t.isWrite;
      forall j | 0 <= j < |s.trace| ensures !CouldFetch(s.trace + [Issued(x, s.clk)], t, j) { assert !CouldFetch(s.trace, b, j); }
      assert FetchedAt(u.dram, s.trace + [Issued(x, s.clk)], t, |s.trace|);
    }
  }

  lemma StageKeepsDates(u: Setup, s: Ctrl, out: multiset<Trans>, fwd: multiset<Trans>)
    requires Callable(u, s) && IssueStage(u, s).Some? && Dated(u.dram, s, out, fwd)
    ensures Dated(u.dram, IssueStage(u, s).value, out, fwd)
  {
    hide Choose, IssueCommand, Dated, GetCommandToIssue, QueuesAskable;
    var c := Choose(u, s);
    var m := s.(cq := c.0);
    SameDates(u.dram, s, m, out, fwd);
    if c.1.Go? {
      IssueKeepsDates(u, m, c.1.cmd, out, fwd);
      var a := IssueCommand(u, m, c.1.cmd).value;
      if u.dual {
        var r := GetCommandToIssue(u, a.chan, a.cq, a.clk, u.NumQueues());
        SameDates(u.dram, a, a.(cq := r.0), out, fwd);
        if r.1.Go? && r.1.cmd.IsReadWrite() != c.1.cmd.IsReadWrite() {
          IssueKeepsDates(u, a.(cq := r.0), r.1.cmd, out, fwd);
        }
      }
    }
  }

  lemma SameDates(c: Config, s: Ctrl, s': Ctrl, out: multiset<Trans>, fwd: multiset<Trans>)
    requires Dated(c, s, out, fwd) && s'.pendingRd == s.pendingRd && s'.returnQ == s.returnQ && s'.trace == s.trace && s'.clk >= s.clk
    ensures Dated(c, s', out, fwd)
  {
    hide Fetched;
    forall t: Trans ensures DatedAt(c, s', out, fwd, t) { assert DatedAt(c, s, out, fwd, t); }
  }

  lemma TickKeepsDates(u: Setup, s: Ctrl, out: multiset<Trans>, fwd: multiset<Trans>)
    requires Callable(u, s) && ClockTick(u, s).Some? && Dated(u.dram, s, out, fwd)
    ensures Dated(u.dram, ClockTick(u, s).value, out, fwd)
    ensures var r := ClockTick(u, s).value; forall i :: 0 <= i < |r.trace| ==> r.trace[i].clk < r.clk
  {
    hide IssueStage, EndTick, BeginTick, Dated;
    var b := BeginTick(u, s);
    BeginShape(u, s);
    SameDates(u.dram, s, b, out, fwd);
    StageKeepsDates(u, b, out, fwd);
    var m := IssueStage(u, b).value;
    EndShape(u, m);
    SameDates(u.dram, m, EndTick(u, m), out, fwd);
    NoneLater(u.dram, m, out, fwd);
  }

  lemma NoneLater(c: Config, s: Ctrl, out: multiset<Trans>, fwd: multiset<Trans>)
    requires Dated(c, s, out, fwd)
    ensures forall i :: 0 <= i < |s.trace| ==> s.trace[i].clk <= s.clk
  {}

  lemma AddShape(u: Setup, s: Ctrl, addr: nat, isWrite: bool)
    ensures var s' := AddTransaction(u, s, addr, isWrite);
      && s'.trace == s.trace && s'.clk == s.clk
      && s'.returnQ == s.returnQ + (if isWrite then [Trans(addr, true, s.clk, s.clk + 1)] else Answered(s, addr, isWrite))
  {}

  lemma AddIsPast(u: Setup, s: Ctrl, addr: nat, isWrite: bool)
    requires Past(s) && forall i :: 0 <= i < |s.trace| ==> s.trace[i].clk < s.clk
    ensures Past(AddTransaction(u, s, addr, isWrite))
  {
    hide Past;
    var t := Trans(addr, isWrite, s.clk, 0);
    if !isWrite { InsertIsPast(s, t); }
    SamePast(s, AddTransaction(u, s, addr, isWrite));
    SamePast(s.(pendingRd := Insert(s.pendingRd, t)), AddTransaction(u, s, addr, isWrite));
  }

  lemma InsertIsPast(s: Ctrl, t: Trans)
    requires Past(s) && !t.isWrite && t.added == s.clk && forall i :: 0 <= i < |s.trace| ==> s.trace[i].clk < s.clk
    ensures Past(s.(pendingRd := Insert(s.pendingRd, t)))
  {
    var m := Insert(s.pendingRd, t);
    forall a, b | a in m && b in m[a] ensures (b == t && a == t.addr) || (a in s.pendingRd && b in s.pendingRd[a]) {}
  }

  lemma SamePast(s: Ctrl, s': Ctrl)
    ensures Past(s) && s'.pendingRd == s.pendingRd && s'.trace == s.trace && s'.clk == s.clk ==> Past(s')
  {}

  lemma AddKeepsDates(u: Setup, s: Ctrl, addr: nat, isWrite: bool, out: multiset<Trans>, fwd: multiset<Trans>)
    requires Dated(u.dram, s, out, fwd) && forall i :: 0 <= i < |s.trace| ==> s.trace[i].clk < s.clk
    ensures Dated(u.dram, AddTransaction(u, s, addr, isWrite), out, fwd + multiset(Answered(s, addr, isWrite)))
  {
    hide Fetched, AddTransaction, Past;
    var s' := AddTransaction(u, s, addr, isWrite);
    AddShape(u, s, addr, isWrite);
    AddIsPast(u, s, addr, isWrite);
    forall t: Trans ensures DatedAt(u.dram, s', out, fwd + multiset(Answered(s, addr, isWrite)), t) {
      assert DatedAt(u.dram, s, out, fwd, t);
    }
  }

  lemma OneOut(q: seq<Trans>, i: nat)
    requires i < |q|
    ensures multiset(q) == multiset(q[..i] + q[i + 1..]) + multiset{q[i]}
  {
    assert q == q[..i] + [q[i]] + q[i + 1..];
  }

  lemma ReturnKeepsDates(c: Config, s: Ctrl, clk: nat, out: multiset<Trans>, fwd: multiset<Trans>)
    requires Dated(c, s, out, fwd)
    ensures var (s', t) := ReturnDoneTrans(s, clk); Dated(c, s', if t.Some? then out + multiset{t.value} else out, fwd)
  {
    hide Fetched, FirstDone, Past;
    var (s', r) := ReturnDoneTrans(s, clk);
    SamePast(s, s');
    if r.Some? {
      OneOut(s.returnQ, FirstDone(s.returnQ, clk));
      forall t: Trans ensures DatedAt(c, s', out + multiset{r.value}, fwd, t) { assert DatedAt(c, s, out, fwd, t); }
    }
  }

  // ---- Runs -----------------------------------------------------------------------------------------------------------

  ghost function Out(hs: seq<Handed>): multiset<Trans> {
    if hs == [] then multiset{} else Out(hs[..|hs| - 1]) + multiset{hs[|hs| - 1].trans}
  }

  lemma OutAppend(hs: seq<Handed>, h: Handed)
    ensures Out(hs + [h]) == Out(hs) + multiset{h.trans}
  {
    assert (hs + [h])[..|hs|] == hs;
  }

  lemma {:induction false} OutHolds(hs: seq<Handed>, i: nat)
    requires i < |hs|
    ensures hs[i].trans in Out(hs)
  {
    if i < |hs| - 1 { OutHolds(hs[..|hs| - 1], i); }
  }

  ghost predicate AllDated(u: Setup, y: System) {
    && (forall i :: 0 <= i < |y.ctrl.trace| ==> y.ctrl.trace[i].clk < y.ctrl.clk)
    && Dated(u.dram, y.ctrl, Out(y.handed), multiset(y.forwarded))
    && forall i :: 0 <= i < |y.handed| ==> y.handed[i].trans.complete <= y.handed[i].clk
  }

  lemma StepKeepsDates(u: Setup, y: System, e: Event)
    requires AllDated(u, y) && Step(u, y, e).Some?
    ensures AllDated(u, Step(u, y, e).value)
  {
    hide Dated, ClockTick, AddTransaction, ReturnDoneTrans, Callable, Asked, Answered, Out;
    match e {
      case Offer(addr, isWrite) =>
        AddShape(u, y.ctrl, addr, isWrite);
        AddKeepsDates(u, y.ctrl, addr, isWrite, Out(y.handed), multiset(y.forwarded));
        assert multiset(y.forwarded + Answered(y.ctrl, addr, isWrite)) == multiset(y.forwarded) + multiset(Answered(y.ctrl, addr, isWrite));
      case Cycle => TickKeepsDates(u, y.ctrl, Out(y.handed), multiset(y.forwarded));
      case Collect(clk) =>
        ReturnKeepsDates(u.dram, y.ctrl, clk, Out(y.handed), multiset(y.forwarded));
        ReturnPaysOne(y.ctrl, clk, Tok(false, 0));
        var t := ReturnDoneTrans(y.ctrl, clk).1;
        if t.Some? { OutAppend(y.handed, Handed(t.value, clk)); }
    }
  }

  lemma {:induction false} StepsKeepDates(u: Setup, y: System, es: seq<Event>)
    requires AllDated(u, y) && Steps(u, y, es).Some?
    ensures AllDated(u, Steps(u, y, es).value)
  {
    hide AllDated, Step;
    if es != [] {
      StepsKeepDates(u, y, es[..|es| - 1]);
      StepKeepsDates(u, Steps(u, y, es[..|es| - 1]).value, es[|es| - 1]);
    }
  }

  lemma InitialDates(u: Setup)
    requires u.dram.WellFormed()
    ensures AllDated(u, Initial(u))
  {
    var y := Initial(u);
    forall t: Trans ensures DatedAt(u.dram, y.ctrl, Out(y.handed), multiset(y.forwarded), t) {}
  }

  /** How often a transaction with these times has been answered so far, collected or not. */
  ghost function TimesAnswered(y: System, t: Trans): nat { multiset(y.ctrl.returnQ)[t] + Out(y.handed)[t] }

  /**
   * In every run: a write is answered one cycle after it came; a read is answered as often as a pending write held its data, and
   * beyond that only by the first read command of its address since it came, whose data arrives AL + CL + burst cycles later.
   */
  lemma EveryAnswerIsDated(u: Setup, es: seq<Event>, t: Trans)
    requires u.WellFormed() && RefreshInterval(u) > 0
    ensures Steps(u, Initial(u), es).Some?
    ensures var y := Steps(u, Initial(u), es).value;
      && (t.isWrite && TimesAnswered(y, t) > 0 ==> t.complete == t.added + 1)
      && (!t.isWrite ==> TimesAnswered(y, t) >= multiset(y.forwarded)[t])
      && (!t.isWrite && TimesAnswered(y, t) > multiset(y.forwarded)[t] ==> Fetched(u.dram, y.ctrl.trace, t))
  {
    hide Steps, Initial, SystemOk, Fetched;
    EveryRunIsOk(u, es);
    InitialDates(u);
    StepsKeepDates(u, Initial(u), es);
    var y := Steps(u, Initial(u), es).value;
    assert DatedAt(u.dram, y.ctrl, Out(y.handed), multiset(y.forwarded), t);
  }

  /** In every run no read that needs the memory is given back before its data has arrived. */
  lemma NoReadReturnsEarly(u: Setup, es: seq<Event>, i: nat) returns (k: nat)
    requires u.WellFormed() && RefreshInterval(u) > 0 && u.dram.AL + u.dram.CL + u.dram.burstCycle >= 0
    requires Steps(u, Initial(u), es).Some?
    requires var y := Steps(u, Initial(u), es).value;
      i < |y.handed| && !y.handed[i].trans.isWrite && y.handed[i].trans !in y.forwarded
    ensures var y := Steps(u, Initial(u), es).value; var (h, t) := (y.ctrl.trace, y.handed[i].trans);
      && CouldFetch(h, t, k) && (forall j :: 0 <= j < k ==> !CouldFetch(h, t, j))
      && t.complete == h[k].clk + u.dram.AL + u.dram.CL + u.dram.burstCycle <= y.handed[i].clk
  {
    hide Steps, Initial, SystemOk;
    var y := Steps(u, Initial(u), es).value;
    var t := y.handed[i].trans;
    EveryAnswerIsDated(u, es, t);
    InitialDates(u);
    StepsKeepDates(u, Initial(u), es);
    OutHolds(y.handed, i);
    k :| FetchedAt(u.dram, y.ctrl.trace, t, k);
  }
}
