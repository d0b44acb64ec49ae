/** The spacing rules pair by pair in the configuration's own parameters, and every answer of a channel said by its history. */
module TimingRules {
  import opened Commands
  import opened Timing
  import opened Channel
  import opened ChannelHistory
  import opened ChannelSafety

  predicate Reads(k: Kind) { k.Read? || k.ReadPrecharge? }

  predicate Writes(k: Kind) { k.Write? || k.WritePrecharge? }

  /** Row commands that need the bank's precharge to be over, other than an activation. */
  predicate Rests(k: Kind) { k.Refresh? || k.RefreshBank? || k.SrefEnter? }

  predicate Graphics(c: Config) { c.protocol.GDDR5? || c.protocol.GDDR5X? || c.protocol.GDDR6? }

  predicate Stacked(c: Config) { c.protocol.HBM? || c.protocol.HBM2? }

  /** Row opened to column command. */
  function RowToColumn(c: Config, k: Kind): int {
    if !Graphics(c) && !Stacked(c) then c.tRCD - c.AL else if Reads(k) then c.tRCDRD else c.tRCDWR
  }

  /** Two column commands of one rank; `near` in one of several bankgroups. */
  function ColumnToColumn(c: Config, read: bool, k: Kind, near: bool): int {
    if read && Writes(k) then c.CL + c.burstCycle + c.tRTRS - c.CWL
    else if !read && Reads(k) then c.AL + c.CWL + c.burstCycle + (if near then c.tWTR_L else c.tWTR_S)
    else Max(c.burstCycle, if near then c.tCCD_L else c.tCCD_S)
  }

  /** From a command of kind x to one of kind k, both of the same bank. */
  function SameBankGap(c: Config, x: Kind, k: Kind): Option<int> {
    var column := Reads(k) || Writes(k);
    var recovery := c.AL + c.CWL + c.burstCycle + c.tWR;
    match x
    case Read =>
      if column then Some(ColumnToColumn(c, true, k, c.bankgroups != 1))
      else if k.Precharge? then Some(c.AL + c.tRTP) else None
    case Write =>
      if column then Some(ColumnToColumn(c, false, k, c.bankgroups != 1))
      else if k.Precharge? then Some(recovery) else None
    case ReadPrecharge =>
      if k.Activate? then Some(c.AL + c.burstCycle + c.tRTP + c.tRP) else if Rests(k) then Some(c.AL + c.tRTP + c.tRP) else None
    case WritePrecharge => if k.Activate? || Rests(k) then Some(recovery + c.tRP) else None
    case Activate =>
      if k.Activate? then Some(c.tRAS + c.tRP)
      else if column then Some(RowToColumn(c, k))
      else if k.Precharge? then Some(c.tRAS) else None
    case Precharge => if k.Activate? || Rests(k) then Some(c.tRP) else None
    case _ => None
  }

  /** From a command of kind x for one bank to one of kind k for another bank of its rank. */
  function SameRankGap(c: Config, x: Kind, k: Kind, near: bool): Option<int> {
    if (Reads(x) || Writes(x)) && (Reads(k) || Writes(k)) then Some(ColumnToColumn(c, Reads(x), k, near))
    else if x.Activate? && k.Activate? then Some(if near then c.tRRD_L else c.tRRD_S)
    else if x.Activate? && k.RefreshBank? then Some(c.tRAS + c.tRP)
    else if x.Precharge? && k.Precharge? && (Graphics(c) || c.protocol.LPDDR4?) then Some(c.tPPD)
    else if x.RefreshBank? && k.Activate? then Some(c.tRFC)
    else if x.RefreshBank? && k.RefreshBank? then Some(c.tREFI)
    else None
  }

  /** From a command of kind x to one of kind k in another rank: only the data bus is shared. */
  function OtherRankGap(c: Config, x: Kind, k: Kind): Option<int> {
    if Reads(x) && Reads(k) then Some(c.burstCycle + c.tRTRS)
    else if Reads(x) && Writes(k) then Some(c.CL - c.CWL + c.burstCycle + c.tRTRS)
    else if Writes(x) && Reads(k) then Some(c.CWL - c.CL + c.burstCycle + c.tRTRS)
    else if Writes(x) && Writes(k) then Some(c.burstCycle)
    else None
  }

  /** From a command of kind x for a whole rank to one of kind k in that rank. */
  function WholeRankGap(c: Config, x: Kind, k: Kind): Option<int> {
    if x.Refresh? && (k.Activate? || k.Refresh? || k.SrefEnter?) then Some(c.tRFC)
    else if x.SrefEnter? && k.SrefExit? then Some(c.tCKESR)
    else if x.SrefExit? && (k.Activate? || Rests(k)) then Some(c.tXS)
    else None
  }

  /** Cycles that must pass from command x to a command of kind k at bank l; None if nothing is demanded. */
  function Gap(c: Config, x: Command, l: Loc, k: Kind): Option<int> {
    if x.IsRankCmd() then (if l.rank == x.rank then WholeRankGap(c, x.kind, k) else None)
    else if l.rank != x.rank then OtherRankGap(c, x.kind, k)
    else if l == x.At() then SameBankGap(c, x.kind, k)
    else SameRankGap(c, x.kind, k, c.bankgroups != 1 && l.bankgroup == x.bankgroup)
  }

  /** A list holds, for a command kind, exactly the delay it should, or none. */
  ghost predicate Lists(ds: seq<Delay>, k: Kind, gap: Option<int>) {
    && (forall d :: d in ds && d.next == k ==> gap == Some(d.gap))
    && (gap.Some? ==> Delay(k, gap.value) in ds)
  }

  function ColumnOf(k: Kind, read: int, write: int): Option<int> {
    if Reads(k) then Some(read) else if Writes(k) then Some(write) else None
  }

  function Only(a: Kind, k: Kind, gap: int): Option<int> { if a == k then Some(gap) else None }

  lemma ColumnLists(read: int, write: int, k: Kind)
    ensures Lists(ColumnDelays(read, write), k, ColumnOf(k, read, write))
  {
    var ds := ColumnDelays(read, write);
    assert ds[0] == Delay(Read, read) && ds[1] == Delay(Write, write);
    assert ds[2] == Delay(ReadPrecharge, read) && ds[3] == Delay(WritePrecharge, write);
  }

  lemma RowLists(act: int, rest: int, k: Kind)
    ensures Lists(RowDelays(act, rest), k, if k.Activate? then Some(act) else if Rests(k) then Some(rest) else None)
  {
    var ds := RowDelays(act, rest);
    assert ds[0] == Delay(Activate, act) && ds[1] == Delay(Refresh, rest);
    assert ds[2] == Delay(RefreshBank, rest) && ds[3] == Delay(SrefEnter, rest);
  }

  lemma ListsMore(a: seq<Delay>, b: seq<Delay>, k: Kind, x: Option<int>, y: Option<int>)
    requires Lists(a, k, x) && Lists(b, k, y) && (x.None? || y.None?)
    ensures Lists(a + b, k, if x.Some? then x else y)
  {}

  lemma OneListed(d: Delay, k: Kind)
    ensures Lists([d], k, Only(d.next, k, d.gap))
  {
    assert [d][0] == d;
  }

  lemma ColumnThenPrecharge(read: int, write: int, pre: int, k: Kind)
    ensures Lists(ColumnDelays(read, write) + [Delay(Precharge, pre)], k, if k.Precharge? then Some(pre) else ColumnOf(k, read, write))
  {
    hide Lists, ColumnDelays;
    ColumnLists(read, write, k);
    OneListed(Delay(Precharge, pre), k);
    ListsMore(ColumnDelays(read, write), [Delay(Precharge, pre)], k, ColumnOf(k, read, write), Only(Precharge, k, pre));
  }

  lemma SameBankLists(c: Config, x: Kind, k: Kind)
    requires !x.Refresh? && !x.SrefEnter? && !x.SrefExit?
    ensures Lists(SameBankDelays(c, x), k, SameBankGap(c, x, k))
  {
    hide Lists, ColumnDelays, RowDelays;
    match x {
      case Read => ColumnThenPrecharge(c.CcdL(), c.ReadToWrite(), c.ReadToPrecharge(), k);
      case Write => ColumnThenPrecharge(c.WriteToReadL(), c.CcdL(), c.WriteToPrecharge(), k);
      case ReadPrecharge => RowLists(c.ReadpToAct(), c.ReadToActivate(), k);
      case WritePrecharge => RowLists(c.WriteToActivate(), c.WriteToActivate(), k);
      case Activate =>
        var act, rest := [Delay(Activate, c.TRC())], ColumnDelays(c.ActivateToRead(), c.ActivateToWrite()) + [Delay(Precharge, c.tRAS)];
        OneListed(act[0], k);
        ColumnThenPrecharge(c.ActivateToRead(), c.ActivateToWrite(), c.tRAS, k);
        ListsMore(act, rest, k, Only(Activate, k, c.TRC()),
                  if k.Precharge? then Some(c.tRAS) else ColumnOf(k, c.ActivateToRead(), c.ActivateToWrite()));
        assert act + rest == SameBankDelays(c, x);
      case Precharge => RowLists(c.tRP, c.tRP, k);
      case RefreshBank => NothingListed(k);
    }
  }

  lemma NothingListed(k: Kind)
    ensures Lists([], k, None)
  {}

  lemma PairListed(a: Delay, b: Delay, k: Kind)
    requires a.next != b.next
    ensures Lists([a, b], k, if a.next == k then Some(a.gap) else Only(b.next, k, b.gap))
  {
    assert [a, b][0] == a && [a, b][1] == b;
  }

  lemma SameRankLists(c: Config, x: Kind, k: Kind)
    requires !x.Refresh? && !x.SrefEnter? && !x.SrefExit?
    ensures Lists(OtherBankDelays(c, x), k, SameRankGap(c, x, k, c.bankgroups != 1))
    ensures Lists(OtherGroupDelays(c, x), k, SameRankGap(c, x, k, false))
  {
    hide Lists, ColumnDelays;
    match x {
      case Read | ReadPrecharge =>
        ColumnLists(c.CcdL(), c.ReadToWrite(), k);
        ColumnLists(c.CcdS(), c.ReadToWrite(), k);
      case Write | WritePrecharge =>
        ColumnLists(c.WriteToReadL(), c.CcdL(), k);
        ColumnLists(c.WriteToReadS(), c.CcdS(), k);
      case Activate =>
        PairListed(Delay(Activate, c.RrdL()), Delay(RefreshBank, c.TRC()), k);
        PairListed(Delay(Activate, c.tRRD_S), Delay(RefreshBank, c.TRC()), k);
      case Precharge =>
        NothingListed(k);
        OneListed(Delay(Precharge, c.tPPD), k);
      case RefreshBank =>
        PairListed(Delay(Activate, c.tRFC), Delay(RefreshBank, c.tREFI), k);
    }
  }

  lemma OtherRankLists(c: Config, x: Kind, k: Kind)
    ensures Lists(OtherRankDelays(c, x), k, OtherRankGap(c, x, k))
  {
    hide Lists, ColumnDelays;
    NothingListed(k);
    ColumnLists(c.ReadToReadO(), c.ReadToWriteO(), k);
    ColumnLists(c.WriteToReadO(), c.WriteToWriteO(), k);
  }

  lemma WholeRankLists(c: Config, x: Kind, k: Kind)
    requires x.Refresh? || x.SrefEnter? || x.SrefExit?
    ensures Lists(SameRankDelays(c, x), k, WholeRankGap(c, x, k))
  {
    hide Lists, RowDelays;
    match x {
      case Refresh =>
        var a, b := [Delay(Activate, c.tRFC), Delay(Refresh, c.tRFC)], [Delay(SrefEnter, c.tRFC)];
        PairListed(a[0], a[1], k);
        OneListed(b[0], k);
        ListsMore(a, b, k, if k.Activate? then Some(c.tRFC) else Only(Refresh, k, c.tRFC), Only(SrefEnter, k, c.tRFC));
        assert a + b == SameRankDelays(c, x);
      case SrefEnter => OneListed(Delay(SrefExit, c.tCKESR), k);
      case SrefExit => RowLists(c.tXS, c.tXS, k);
    }
  }

  /** The tables hold, for every pair of commands and every bank, exactly the delay the parameters give. */
  lemma TablesAreRules(c: Config, x: Command, l: Loc, k: Kind)
    ensures Lists(Imposed(c, x, l), k, Gap(c, x, l, k))
  {
    hide Lists, SameBankDelays, OtherBankDelays, OtherGroupDelays, OtherRankDelays, SameRankDelays;
    hide SameBankGap, SameRankGap, OtherRankGap, WholeRankGap;
    if x.IsRankCmd() {
      if l.rank == x.rank { WholeRankLists(c, x.kind, k); } else { NothingListed(k); }
    } else if l.rank != x.rank {
      OtherRankLists(c, x.kind, k);
    } else if l == x.At() {
      SameBankLists(c, x.kind, k);
    } else {
      SameRankLists(c, x.kind, k);
    }
  }

  // ---- Rules over histories -----------------------------------------------------------------------------------------

  /** Any two commands of a legal history are as far apart as the parameters demand of them. */
  lemma RulesAreKept(c: Config, h: seq<Issued>, i: nat, j: nat, l: Loc)
    requires c.WellFormed() && Legal(c, h) && i < j < |h| && c.Holds(l) && h[j].cmd.Touches(l)
    ensures var g := Gap(c, h[i].cmd, l, h[j].cmd.kind); g.Some? ==> h[j].clk >= h[i].clk + g.value
  {
    hide Legal, Imposed, Gap;
    var k := h[j].cmd.kind;
    TablesAreRules(c, h[i].cmd, l, k);
    var g := Gap(c, h[i].cmd, l, k);
    if g.Some? { CommandsAreSpaced(c, h, i, j, l, Delay(k, g.value)); }
  }

  /** Every rule that the history puts on commands of kind k at bank l is over at time t. */
  ghost predicate Over(c: Config, h: seq<Issued>, l: Loc, k: Kind, t: nat) {
    forall i :: 0 <= i < |h| && Gap(c, h[i].cmd, l, k).Some? ==> t >= Later(h[i].clk, Gap(c, h[i].cmd, l, k).value)
  }

  /** A bank holds a command back exactly as long as some rule does: no table entry is too small or too large. */
  lemma EntryIsRules(c: Config, h: seq<Issued>, l: Loc, k: Kind, t: nat)
    requires c.WellFormed() && Replay(c, h).Some? && c.Holds(l)
    ensures t >= Replay(c, h).value.banks[l].earliest[Index(k)] <==> Over(c, h, l, k, t)
  {
    hide Imposed, Gap, Replay, Later, HistoryMax;
    TableIsHistoryMax(c, h, l, k);
    var on, v := ImposedOn(c, l), HistoryMax(ImposedOn(c, l), h, k);
    assert IsLatest(on, h, k, v);
    forall i | 0 <= i < |h| ensures Lists(Imposed(c, h[i].cmd, l), k, Gap(c, h[i].cmd, l, k)) {
      TablesAreRules(c, h[i].cmd, l, k);
    }
    forall i | 0 <= i < |h| && Gap(c, h[i].cmd, l, k).Some?
      ensures v >= Later(h[i].clk, Gap(c, h[i].cmd, l, k).value)
    {
      assert Demands(on, h, i, Delay(k, Gap(c, h[i].cmd, l, k).value), k);
    }
  }

  // ---- What a channel answers, said by its history --------------------------------------------------------------------

  ghost predicate SomeRowOpen(h: seq<Issued>, l: Loc) { exists row :: RowOpen(h, l, row) }

  lemma OpenIsHistory(c: Config, h: seq<Issued>, l: Loc)
    requires c.WellFormed() && Legal(c, h) && c.Holds(l)
    ensures Replay(c, h).Some? && BankOk(Replay(c, h).value.banks[l])
    ensures var b := Replay(c, h).value.banks[l];
      (b.phase.Open? <==> SomeRowOpen(h, l)) && forall row :: (b.phase.Open? && b.openRow == row) <==> RowOpen(h, l, row)
  {
    hide Legal, Replay, RowOpen;
    LegalNeverExits(c, h);
    OpenRowIsHistory(c, h, l);
    var b := Replay(c, h).value.banks[l];
    assert b.phase.Open? ==> RowOpen(h, l, b.openRow);
  }

  /** Fewer than `limit` activations so far, or the one `limit` places back is at least one span old. */
  ghost predicate Roomy(ts: seq<nat>, limit: nat, span: int, t: nat)
    requires limit >= 1
  {
    |ts| < limit || t >= Later(ts[|ts| - limit], span)
  }

  lemma WindowIff(ts: seq<nat>, limit: nat, span: int, t: nat)
    requires limit >= 1 && Admitted(ts, limit, span) && (ts != [] ==> ts[|ts| - 1] <= t)
    ensures WindowReady(WindowOf(ts, span), limit, t) <==> Roomy(ts, limit, span, t)
  {
    WindowSpan(ts, limit, span);
    var w := WindowOf(ts, span);
    if |w| > 0 { assert w[0] == Later(ts[|ts| - |w|], span); }
  }

  /** The rank may take one more activation: at most four within tFAW, and on graphics memory at most 32 within t32AW. */
  ghost predicate MayActivate(c: Config, h: seq<Issued>, r: int, t: nat) {
    Roomy(Acts(h, r), 4, c.tFAW, t) && (Graphics(c) ==> Roomy(Acts(h, r), 32, c.t32AW, t))
  }

  lemma WindowsIff(c: Config, h: seq<Issued>, r: int, t: nat)
    requires c.WellFormed() && Legal(c, h) && 0 <= r < c.ranks && forall i :: 0 <= i < |h| ==> h[i].clk <= t
    ensures Replay(c, h).Some? && (ActivationWindowOk(c, Replay(c, h).value, r, t) <==> MayActivate(c, h, r, t))
  {
    hide Legal, Replay, WindowReady, Roomy;
    WindowsTrackActs(c, h, r);
    ActsBefore(h, r, t);
    WindowIff(Acts(h, r), 4, c.tFAW, t);
    if c.IsGDDR() { WindowIff(Acts(h, r), 32, c.t32AW, t); }
  }

  /**
   * After any legal history, a column request is answered by itself exactly when its row is open and every rule is over, by an
   * activation exactly when no row is open, every rule is over and the rank may activate, by a precharge exactly when another
   * row is open and every rule is over, and by nothing otherwise.
   */
  lemma ColumnAnswer(c: Config, h: seq<Issued>, q: Command, t: nat)
    requires c.WellFormed() && Legal(c, h) && q.IsReadWrite() && c.Holds(q.At()) && forall i :: 0 <= i < |h| ==> h[i].clk <= t
    ensures Replay(c, h).Some?
    ensures ChanReply(c, Replay(c, h).value, q, t) ==
      var l := q.At();
      if RowOpen(h, l, q.row) then (if Over(c, h, l, q.kind, t) then Go(q) else NotReady)
      else if SomeRowOpen(h, l) then (if Over(c, h, l, Precharge, t) then Go(q.(kind := Precharge)) else NotReady)
      else if Over(c, h, l, Activate, t) && MayActivate(c, h, q.rank, t) then Go(q.(kind := Activate)) else NotReady
  {
    hide Legal, Replay, Over, MayActivate, RowOpen, SomeRowOpen;
    var l := q.At();
    OpenIsHistory(c, h, l);
    EntryIsRules(c, h, l, q.kind, t);
    EntryIsRules(c, h, l, Precharge, t);
    EntryIsRules(c, h, l, Activate, t);
    WindowsIff(c, h, q.rank, t);
  }

  /** The same for a request to refresh one bank. */
  lemma BankRefreshAnswer(c: Config, h: seq<Issued>, q: Command, t: nat)
    requires c.WellFormed() && Legal(c, h) && q.kind.RefreshBank? && c.Holds(q.At())
    ensures Replay(c, h).Some?
    ensures ChanReply(c, Replay(c, h).value, q, t) ==
      if SomeRowOpen(h, q.At()) then (if Over(c, h, q.At(), Precharge, t) then Go(q.(kind := Precharge)) else NotReady)
      else if Over(c, h, q.At(), RefreshBank, t) then Go(q) else NotReady
  {
    hide Legal, Replay, Over, RowOpen, SomeRowOpen;
    OpenIsHistory(c, h, q.At());
    EntryIsRules(c, h, q.At(), Precharge, t);
    EntryIsRules(c, h, q.At(), RefreshBank, t);
  }

  /** A bank of the rank that stands in the way of a refresh and may be closed now. */
  ghost predicate Closable(c: Config, h: seq<Issued>, l: Loc, t: nat) { SomeRowOpen(h, l) && Over(c, h, l, Precharge, t) }

  ghost predicate Refreshable(c: Config, h: seq<Issued>, l: Loc, t: nat) { !SomeRowOpen(h, l) && Over(c, h, l, Refresh, t) }

  /**
   * A request to refresh a rank is answered by a precharge of the first bank that may be closed, by the refresh if no row is open
   * and every bank's rules are over, and by nothing otherwise.
   */
  lemma RankRefreshAnswer(c: Config, h: seq<Issued>, q: Command, t: nat)
    requires c.WellFormed() && Legal(c, h) && q.kind.Refresh? && 0 <= q.rank < c.ranks
    ensures Replay(c, h).Some?
    ensures var r := ChanReply(c, Replay(c, h).value, q, t);
      && !r.Abort?
      && (r == Go(q) <==> forall l :: c.Holds(l) && l.rank == q.rank ==> Refreshable(c, h, l, t))
      && (r.Go? && r != Go(q) <==> exists l :: c.Holds(l) && l.rank == q.rank && Closable(c, h, l, t))
      && (r.Go? && r != Go(q) ==>
            && r.cmd.kind.Precharge? && r.cmd.rank == q.rank && c.Holds(r.cmd.At()) && Closable(c, h, r.cmd.At(), t)
            && forall l :: c.Holds(l) && l.rank == q.rank && Scanned(l, r.cmd.bankgroup, r.cmd.bank) ==> !Closable(c, h, l, t))
  {
    hide Legal, Replay, Over, RowOpen, ScanRank, SomeRowOpen;
    LegalNeverExits(c, h);
    var s := Replay(c, h).value;
    ScanMeaning(c, s, q, t, 0, 0, 0);
    forall l | c.Holds(l)
      ensures PreReady(s.banks[l], t) == Closable(c, h, l, t) && RefReady(s.banks[l], t) == Refreshable(c, h, l, t)
    {
      OpenIsHistory(c, h, l);
      EntryIsRules(c, h, l, Precharge, t);
      EntryIsRules(c, h, l, Refresh, t);
    }
    assert c.Holds(Loc(q.rank, 0, 0));
  }

  // ---- Row hits -------------------------------------------------------------------------------------------------------

  /** Column commands that a bank's open row has served: since it was last opened, none while it is closed. */
  ghost function HitsSince(h: seq<Issued>, l: Loc): nat {
    if h == [] then 0
    else
      var e, n := h[|h| - 1].cmd, HitsSince(h[..|h| - 1], l);
      if e.At() != l then n
      else if e.kind.Activate? || Closes(e, l) then 0
      else if e.kind.Read? || e.kind.Write? then n + 1 else n
  }

  lemma {:induction false} RowHitsAreHistory(c: Config, h: seq<Issued>, l: Loc)
    requires c.WellFormed() && Legal(c, h) && c.Holds(l)
    ensures Replay(c, h).Some? && Replay(c, h).value.banks[l].rowHits == HitsSince(h, l)
  {
    if h != [] {
      LegalStep(c, h);
      var p, e := h[..|h| - 1], h[|h| - 1];
      RowHitsAreHistory(c, p, l);
      IssueHits(c, Replay(c, p).value, e.cmd, e.clk, l);
    }
  }

  lemma IssueHits(c: Config, s: Chan, cmd: Command, clk: nat, l: Loc)
    requires c.WellFormed() && ChanOk(c, s) && Sound(c, s, cmd, clk) && c.Holds(l)
    ensures Issue(c, s, cmd, clk).Some?
    ensures Issue(c, s, cmd, clk).value.banks[l].rowHits ==
      if cmd.At() != l then s.banks[l].rowHits
      else if cmd.kind.Activate? || Closes(cmd, l) then 0
      else if cmd.kind.Read? || cmd.kind.Write? then s.banks[l].rowHits + 1 else s.banks[l].rowHits
  {
    IssueKeepsOk(c, s, cmd, clk);
    assert BankOk(s.banks[l]);
    var u := UpdateState(c, s, cmd).value;
    assert u.banks[l] == if cmd.Touches(l) then BankNext(s.banks[l], cmd.kind, cmd.row).value else s.banks[l];
  }

  // ---- The data bus -----------------------------------------------------------------------------------------------------

  /** When the data of a column command appears on the bus. */
  function DataAt(c: Config, e: Issued): int { e.clk + c.AL + if e.cmd.IsRead() then c.CL else c.CWL }

  /** No parameter is negative, and reopening a row after an automatic precharge outlasts the latency difference. */
  predicate Sensible(c: Config) {
    && c.burstCycle >= 0 && c.AL >= 0 && c.CL >= 0 && c.CWL >= 0 && c.tRTRS >= 0 && c.tWTR_L >= 0 && c.tWTR_S >= 0
    && c.tWR >= 0 && c.tRTP >= 0 && c.tRP >= 0 && c.tRCD >= 0 && c.tRCDRD >= 0 && c.tRCDWR >= 0
    && c.CL - c.CWL <= c.AL + c.tRTP + c.tRP + RowToColumn(c, Write)
  }

  /** A bank that was closed is reopened before its next column command. */
  lemma Reopened(c: Config, h: seq<Issued>, i: nat, j: nat) returns (m: nat)
    requires c.WellFormed() && Legal(c, h) && i < j < |h| && h[j].cmd.IsReadWrite() && Closes(h[i].cmd, h[j].cmd.At())
    ensures i < m < j && h[m].cmd.kind.Activate? && h[m].cmd.At() == h[j].cmd.At()
  {
    hide Legal;
    var l := h[j].cmd.At();
    ColumnHitsOpenRow(c, h, j);
    var k :| OpenedBy(h[..j], l, h[j].cmd.row, k);
    assert h[..j][i] == h[i] && h[..j][k] == h[k];
    m := k;
  }

  lemma AddressedAt(c: Config, h: seq<Issued>, i: nat)
    requires c.WellFormed() && Legal(c, h) && i < |h|
    ensures Addressed(c, h[i].cmd)
  {
    hide Legal, Replay;
    LegalIsSound(c, h, i);
  }

  /** No two bursts share the data bus, and between ranks, except from write to write, it rests for the switching time. */
  lemma BurstsNeverOverlap(c: Config, h: seq<Issued>, i: nat, j: nat)
    requires c.WellFormed() && Sensible(c) && Legal(c, h) && i < j < |h| && h[i].cmd.IsReadWrite() && h[j].cmd.IsReadWrite()
    ensures DataAt(c, h[j]) >= DataAt(c, h[i]) + c.burstCycle
    ensures h[i].cmd.rank != h[j].cmd.rank && (h[i].cmd.IsRead() || h[j].cmd.IsRead()) ==>
      DataAt(c, h[j]) >= DataAt(c, h[i]) + c.burstCycle + c.tRTRS
  {
    hide Legal;
    var x, y := h[i].cmd, h[j].cmd;
    AddressedAt(c, h, j);
    if Closes(x, y.At()) {
      var m := Reopened(c, h, i, j);
      RulesAreKept(c, h, i, m, y.At());
      RulesAreKept(c, h, m, j, y.At());
    } else {
      RulesAreKept(c, h, i, j, y.At());
    }
  }
}
