/** What holds of every command history a channel can produce. */
module ChannelHistory {
  import opened Commands
  import opened Timing
  import opened Channel

  /** The channel after issuing a history from the initial state; None when the program exits on the way. */
  ghost function Replay(c: Config, h: seq<Issued>): (r: Option<Chan>)
    requires c.WellFormed()
    ensures r.Some? ==> Shaped(c, r.value)
  {
    if h == [] then Some(InitChan(c))
    else
      var p, e := Replay(c, h[..|h| - 1]), h[|h| - 1];
      if p.None? || !Addressed(c, e.cmd) then None else Issue(c, p.value, e.cmd, e.clk)
  }

  /** The command is what the channel answers, in this state and at this time, to some request of the controller. */
  ghost predicate Answers(c: Config, s: Chan, e: Issued)
    requires c.WellFormed() && Shaped(c, s)
  {
    exists q :: IsRequest(c, q) && ChanReply(c, s, q, e.clk) == Go(e.cmd)
  }

  ghost predicate AnsweredAt(c: Config, h: seq<Issued>, j: int)
    requires c.WellFormed() && 0 <= j < |h|
  {
    Replay(c, h[..j]).Some? && Answers(c, Replay(c, h[..j]).value, h[j])
  }

  ghost predicate Ascending(h: seq<Issued>) {
    forall i, j :: 0 <= i < j < |h| ==> h[i].clk <= h[j].clk
  }

  /** Every command was answered by the channel at the clock it was issued, and clocks never go back. */
  ghost predicate Legal(c: Config, h: seq<Issued>)
    requires c.WellFormed()
  {
    Ascending(h) && forall j :: 0 <= j < |h| ==> AnsweredAt(c, h, j)
  }

  // ---- What an answer guarantees ------------------------------------------------------------------------

  /** Bank invariant of every reachable state with self-refresh disabled. */
  predicate BankOk(b: Bank) {
    !b.phase.SelfRefresh? && (b.phase.Closed? ==> b.openRow == -1 && b.rowHits == 0)
  }

  ghost predicate ChanOk(c: Config, s: Chan) {
    Shaped(c, s) && forall l :: l in s.banks ==> BankOk(s.banks[l])
  }

  predicate PreReady(b: Bank, clk: nat) { b.phase.Open? && clk >= b.earliest[Index(Precharge)] }

  predicate RefReady(b: Bank, clk: nat) { b.phase.Closed? && clk >= b.earliest[Index(Refresh)] }

  predicate Scanned(l: Loc, j: int, k: int) { l.bankgroup < j || (l.bankgroup == j && l.bank < k) }

  lemma NextPlace(j: int, k: int, b: int)
    ensures (j + 1) * b + 0 == j * b + b && j * b + (k + 1) == j * b + k + 1
  {}

  /** The rank scan, said without the scan: precharge an open bank that is ready, else refresh when all agree. */
  lemma {:induction false} ScanMeaning(c: Config, s: Chan, q: Command, clk: nat, j: int, k: int, ready: int)
    requires c.WellFormed() && ChanOk(c, s) && q.kind.Refresh? && 0 <= q.rank < c.ranks
    requires 0 <= j <= c.bankgroups && 0 <= k < c.banksPerGroup && (j == c.bankgroups ==> k == 0)
    requires ready <= j * c.banksPerGroup + k
    requires ready == j * c.banksPerGroup + k <==>
             forall l :: c.Holds(l) && l.rank == q.rank && Scanned(l, j, k) ==> RefReady(s.banks[l], clk)
    ensures var r := ScanRank(c, s, q, clk, j, k, ready);
      && !r.Abort?
      && (r.Go? && r.cmd.kind.Refresh? ==>
            r.cmd == q && forall l :: c.Holds(l) && l.rank == q.rank ==> RefReady(s.banks[l], clk))
      && (r.Go? && !r.cmd.kind.Refresh? ==>
            && r.cmd.kind.Precharge? && r.cmd.rank == q.rank && c.Holds(r.cmd.At()) && PreReady(s.banks[r.cmd.At()], clk)
            && forall l :: c.Holds(l) && l.rank == q.rank && !Scanned(l, j, k) && Scanned(l, r.cmd.bankgroup, r.cmd.bank) ==>
                 !PreReady(s.banks[l], clk))
      && (r.NotReady? ==>
            && (forall l :: c.Holds(l) && l.rank == q.rank && !Scanned(l, j, k) ==> !PreReady(s.banks[l], clk))
            && exists l :: c.Holds(l) && l.rank == q.rank && !RefReady(s.banks[l], clk))
    decreases c.bankgroups - j, c.banksPerGroup - k
  {
    if j < c.bankgroups {
      var j', k' := if k + 1 < c.banksPerGroup then j else j + 1, if k + 1 < c.banksPerGroup then k + 1 else 0;
      var here := Loc(q.rank, j, k);
      NextPlace(j, k, c.banksPerGroup);
      assert forall l :: c.Holds(l) && l.rank == q.rank ==>
        (Scanned(l, j', k') <==> Scanned(l, j, k) || l == here);
      match BankReply(s.banks[here], q, clk)
      case Abort =>
      case NotReady => ScanMeaning(c, s, q, clk, j', k', ready);
      case Go(x) => if x.kind == q.kind { ScanMeaning(c, s, q, clk, j', k', ready + 1); }
    }
  }

  /** Everything an answer promises about the bank or banks the command acts on. */
  ghost predicate Sound(c: Config, s: Chan, cmd: Command, clk: nat)
    requires c.WellFormed() && Shaped(c, s)
  {
    && Addressed(c, cmd)
    && !cmd.kind.SrefEnter? && !cmd.kind.SrefExit?
    && (forall l :: c.Holds(l) && cmd.Touches(l) ==>
          && clk >= s.banks[l].earliest[Index(cmd.kind)]
          && (s.banks[l].phase.Open? <==> cmd.IsReadWrite() || cmd.kind.Precharge?))
    && (cmd.IsReadWrite() ==> s.banks[cmd.At()].openRow == cmd.row)
    && (cmd.kind.Activate? ==> ActivationWindowOk(c, s, cmd.rank, clk))
  }

  /** A request is never met by an exit, and whatever it is answered with can be issued now. */
  lemma AnswerIsSound(c: Config, s: Chan, q: Command, clk: nat)
    requires c.WellFormed() && ChanOk(c, s) && IsRequest(c, q)
    ensures var r := ChanReply(c, s, q, clk); !r.Abort? && (r.Go? ==> Sound(c, s, r.cmd, clk))
  {
    if q.kind.Refresh? {
      ScanMeaning(c, s, q, clk, 0, 0, 0);
    }
  }

  /** Issuing an answered command does not exit, and keeps the bank invariant. */
  lemma IssueKeepsOk(c: Config, s: Chan, cmd: Command, clk: nat)
    requires c.WellFormed() && ChanOk(c, s) && Sound(c, s, cmd, clk)
    ensures var r := Issue(c, s, cmd, clk); r.Some? && ChanOk(c, r.value)
  {
    assert forall l :: l in s.banks && cmd.Touches(l) ==> BankNext(s.banks[l], cmd.kind, cmd.row).Some?;
  }

  lemma LegalPrefix(c: Config, h: seq<Issued>, n: nat)
    requires c.WellFormed() && Legal(c, h) && n <= |h|
    ensures Legal(c, h[..n])
  {
    forall j | 0 <= j < n ensures AnsweredAt(c, h[..n], j) {
      assert AnsweredAt(c, h, j);
      assert h[..n][..j] == h[..j];
    }
  }

  /** No legal history reaches an exit branch: every command of it can be issued. */
  lemma {:induction false} LegalNeverExits(c: Config, h: seq<Issued>)
    requires c.WellFormed() && Legal(c, h)
    ensures Replay(c, h).Some? && ChanOk(c, Replay(c, h).value)
    decreases |h|, 0
  {
    if h != [] {
      LegalIsSound(c, h, |h| - 1);
      var e := h[|h| - 1];
      IssueKeepsOk(c, Replay(c, h[..|h| - 1]).value, e.cmd, e.clk);
    }
  }

  /** Every command of a legal history was sound when it was issued. */
  lemma {:induction false} LegalIsSound(c: Config, h: seq<Issued>, j: nat)
    requires c.WellFormed() && Legal(c, h) && j < |h|
    ensures Replay(c, h[..j]).Some? && ChanOk(c, Replay(c, h[..j]).value)
    ensures Sound(c, Replay(c, h[..j]).value, h[j].cmd, h[j].clk)
    decreases j, 1
  {
    LegalPrefix(c, h, j);
    LegalNeverExits(c, h[..j]);
    assert AnsweredAt(c, h, j);
    var s := Replay(c, h[..j]).value;
    var q :| IsRequest(c, q) && ChanReply(c, s, q, h[j].clk) == Go(h[j].cmd);
    AnswerIsSound(c, s, q, h[j].clk);
  }

  // ---- The incremental table is the maximum over the history ---------------------------------------------

  /** Entry i of the history imposes delay d on command type k; `on` gives the delays one bank takes from a command. */
  ghost predicate Demands(on: Command -> seq<Delay>, h: seq<Issued>, i: int, d: Delay, k: Kind) {
    0 <= i < |h| && d in on(h[i].cmd) && d.next == k
  }

  /** v is the latest of 0 and every time the history demands of k. */
  ghost predicate IsLatest(on: Command -> seq<Delay>, h: seq<Issued>, k: Kind, v: nat) {
    && (forall i, d :: Demands(on, h, i, d, k) ==> v >= Later(h[i].clk, d.gap))
    && (v == 0 || exists i, d :: Demands(on, h, i, d, k) && v == Later(h[i].clk, d.gap))
  }

  function ImposedOn(c: Config, l: Loc): Command -> seq<Delay> { cmd => Imposed(c, cmd, l) }

  /** The later of v and what a delay list asks of command type k. */
  ghost function ListMax(v: nat, ds: seq<Delay>, clk: nat, k: Kind): (m: nat)
    ensures m >= v && forall d :: d in ds && d.next == k ==> m >= Later(clk, d.gap)
    ensures m == v || exists d :: d in ds && d.next == k && m == Later(clk, d.gap)
  {
    if ds == [] then v
    else
      var m, last := ListMax(v, ds[..|ds| - 1], clk, k), ds[|ds| - 1];
      assert ds == ds[..|ds| - 1] + [last];
      if last.next == k then Max(m, Later(clk, last.gap)) else m
  }

  lemma {:induction false} RaiseAllIsMax(t: TimingTable, ds: seq<Delay>, clk: nat, k: Kind)
    ensures RaiseAll(t, ds, clk)[Index(k)] == ListMax(t[Index(k)], ds, clk, k)
  {
    if ds != [] { RaiseAllIsMax(t, ds[..|ds| - 1], clk, k); }
  }

  lemma LatestExtends(on: Command -> seq<Delay>, p: seq<Issued>, e: Issued, k: Kind, v: nat)
    requires IsLatest(on, p, k, v)
    ensures IsLatest(on, p + [e], k, ListMax(v, on(e.cmd), e.clk, k))
  {
    var h, ds := p + [e], on(e.cmd);
    var m := ListMax(v, ds, e.clk, k);
    forall i, d | Demands(on, h, i, d, k) ensures m >= Later(h[i].clk, d.gap) {
      assert i < |p| ==> Demands(on, p, i, d, k);
    }
    if m == v {
      if v != 0 {
        var i, d :| Demands(on, p, i, d, k) && v == Later(p[i].clk, d.gap);
        assert Demands(on, h, i, d, k);
      }
    } else {
      var d :| d in ds && d.next == k && m == Later(e.clk, d.gap);
      assert Demands(on, h, |p|, d, k);
    }
  }

  /** The maximum over the whole history of issue time plus the delay the history imposes on k. */
  ghost function HistoryMax(on: Command -> seq<Delay>, h: seq<Issued>, k: Kind): (v: nat)
    ensures IsLatest(on, h, k, v)
  {
    if h == [] then 0
    else
      var p, e := h[..|h| - 1], h[|h| - 1];
      LatestExtends(on, p, e, k, HistoryMax(on, p, k));
      assert p + [e] == h;
      ListMax(HistoryMax(on, p, k), on(e.cmd), e.clk, k)
  }

  lemma IssueRaises(c: Config, s: Chan, cmd: Command, clk: nat, l: Loc)
    requires c.WellFormed() && Shaped(c, s) && Addressed(c, cmd) && Issue(c, s, cmd, clk).Some? && c.Holds(l)
    ensures Issue(c, s, cmd, clk).value.banks[l].earliest == RaiseAll(s.banks[l].earliest, Imposed(c, cmd, l), clk)
  {
    assert UpdateState(c, s, cmd).value.banks[l].earliest == s.banks[l].earliest;
  }

  /** The table each bank keeps incrementally equals the maximum over the whole command history. */
  lemma {:induction false} TableIsHistoryMax(c: Config, h: seq<Issued>, l: Loc, k: Kind)
    requires c.WellFormed() && Replay(c, h).Some? && c.Holds(l)
    ensures Replay(c, h).value.banks[l].earliest[Index(k)] == HistoryMax(ImposedOn(c, l), h, k)
  {
    if h != [] {
      var p, e := h[..|h| - 1], h[|h| - 1];
      TableIsHistoryMax(c, p, l, k);
      IssueRaises(c, Replay(c, p).value, e.cmd, e.clk, l);
      RaiseAllIsMax(Replay(c, p).value.banks[l].earliest, Imposed(c, e.cmd, l), e.clk, k);
    }
  }

  /** Any two commands of a legal history keep every delay the first imposes on a bank the second acts on. */
  lemma CommandsAreSpaced(c: Config, h: seq<Issued>, i: nat, j: nat, l: Loc, d: Delay)
    requires c.WellFormed() && Legal(c, h) && i < j < |h|
    requires c.Holds(l) && h[j].cmd.Touches(l)
    requires d in Imposed(c, h[i].cmd, l) && d.next == h[j].cmd.kind
    ensures h[j].clk >= h[i].clk + d.gap
  {
    LegalIsSound(c, h, j);
    TableIsHistoryMax(c, h[..j], l, d.next);
    assert Demands(ImposedOn(c, l), h[..j], i, d, d.next);
  }
}
