/** Row-buffer safety and activation windows over every legal command history. */
module ChannelSafety {
  import opened Commands
  import opened Timing
  import opened Channel
  import opened ChannelHistory

  // ---- Row buffer -----------------------------------------------------------------------------------------

  predicate Closes(cmd: Command, l: Loc) {
    cmd.At() == l && (cmd.kind.Precharge? || cmd.kind.ReadPrecharge? || cmd.kind.WritePrecharge?)
  }

  /** Entry i activated this row of this bank and nothing has closed the bank since. */
  ghost predicate OpenedBy(h: seq<Issued>, l: Loc, row: int, i: int) {
    && 0 <= i < |h|
    && h[i].cmd.kind.Activate? && h[i].cmd.At() == l && h[i].cmd.row == row
    && forall m :: i < m < |h| ==> !Closes(h[m].cmd, l)
  }

  /** The history has this row of this bank open. */
  ghost predicate RowOpen(h: seq<Issued>, l: Loc, row: int) { exists i :: OpenedBy(h, l, row, i) }

  lemma IssuePhase(c: Config, s: Chan, cmd: Command, clk: nat, l: Loc)
    requires c.WellFormed() && ChanOk(c, s) && Sound(c, s, cmd, clk) && c.Holds(l)
    ensures Issue(c, s, cmd, clk).Some?
    ensures var b, b' := s.banks[l], Issue(c, s, cmd, clk).value.banks[l];
      if cmd.kind.Activate? && cmd.At() == l then b'.phase.Open? && b'.openRow == cmd.row && b.phase.Closed?
      else if Closes(cmd, l) then b'.phase.Closed?
      else b'.phase == b.phase && b'.openRow == b.openRow
  {
    IssueKeepsOk(c, s, cmd, clk);
    var u := UpdateState(c, s, cmd).value;
    assert u.banks[l] == if cmd.Touches(l) then BankNext(s.banks[l], cmd.kind, cmd.row).value else s.banks[l];
  }

  /** One bank before and after a command. */
  ghost predicate BankAfter(c: Config, b: Bank, b': Bank, cmd: Command, clk: nat, l: Loc) {
    && b'.earliest == RaiseAll(b.earliest, Imposed(c, cmd, l), clk)
    && if cmd.kind.Activate? && cmd.At() == l then b'.phase.Open? && b'.openRow == cmd.row && b.phase.Closed?
       else if Closes(cmd, l) then b'.phase.Closed?
       else b'.phase == b.phase && b'.openRow == b.openRow
  }

  lemma IssueBank(c: Config, s: Chan, cmd: Command, clk: nat, l: Loc)
    requires c.WellFormed() && ChanOk(c, s) && Sound(c, s, cmd, clk) && c.Holds(l)
    ensures Issue(c, s, cmd, clk).Some?
    ensures BankAfter(c, s.banks[l], Issue(c, s, cmd, clk).value.banks[l], cmd, clk, l)
  {
    hide Issue, RaiseAll, Imposed;
    IssuePhase(c, s, cmd, clk, l);
    IssueRaises(c, s, cmd, clk, l);
  }

  /** How one more command changes who opened a bank. */
  lemma OpenedByStep(p: seq<Issued>, e: Issued, l: Loc, row: int)
    requires e.cmd.kind.Activate? && e.cmd.At() == l ==> !RowOpen(p, l, row)
    ensures RowOpen(p + [e], l, row) <==>
      if e.cmd.kind.Activate? && e.cmd.At() == l then e.cmd.row == row
      else !Closes(e.cmd, l) && RowOpen(p, l, row)
  {
    var h := p + [e];
    assert h[|p|] == e && forall m :: 0 <= m < |p| ==> h[m] == p[m];
    if i :| OpenedBy(h, l, row, i) && i < |p| { assert OpenedBy(p, l, row, i); }
    if i :| OpenedBy(p, l, row, i) && !Closes(e.cmd, l) { assert OpenedBy(h, l, row, i); }
    if e.cmd.kind.Activate? && e.cmd.At() == l && e.cmd.row == row { assert OpenedBy(h, l, row, |p|); }
  }

  /** One step of a legal history, with what was known before it. */
  lemma LegalStep(c: Config, h: seq<Issued>)
    requires c.WellFormed() && Legal(c, h) && h != []
    ensures var p, e := h[..|h| - 1], h[|h| - 1];
      && h == p + [e] && Legal(c, p)
      && Replay(c, p).Some? && ChanOk(c, Replay(c, p).value)
      && Sound(c, Replay(c, p).value, e.cmd, e.clk)
      && Replay(c, h) == Issue(c, Replay(c, p).value, e.cmd, e.clk)
  {
    LegalPrefix(c, h, |h| - 1);
    LegalIsSound(c, h, |h| - 1);
  }

  /** The open row a bank remembers is exactly the one the history opened last and has not closed. */
  ghost predicate RowMatches(b: Bank, h: seq<Issued>, l: Loc) {
    forall row :: (b.phase.Open? && b.openRow == row) <==> RowOpen(h, l, row)
  }

  lemma {:induction false} OpenRowIsHistory(c: Config, h: seq<Issued>, l: Loc)
    requires c.WellFormed() && Legal(c, h) && c.Holds(l)
    ensures Replay(c, h).Some? && RowMatches(Replay(c, h).value.banks[l], h, l)
  {
    if h != [] {
      LegalStep(c, h);
      var p, e := h[..|h| - 1], h[|h| - 1];
      OpenRowIsHistory(c, p, l);
      var s := Replay(c, p).value;
      IssuePhase(c, s, e.cmd, e.clk, l);
      RowMatchesStep(s.banks[l], Replay(c, h).value.banks[l], p, e, l);
    }
  }

  lemma RowMatchesStep(b: Bank, b': Bank, p: seq<Issued>, e: Issued, l: Loc)
    requires RowMatches(b, p, l)
    requires
      if e.cmd.kind.Activate? && e.cmd.At() == l then b'.phase.Open? && b'.openRow == e.cmd.row && b.phase.Closed?
      else if Closes(e.cmd, l) then b'.phase.Closed?
      else b'.phase == b.phase && b'.openRow == b.openRow
    ensures RowMatches(b', p + [e], l)
  {
    forall row
      ensures (b'.phase.Open? && b'.openRow == row) <==> RowOpen(p + [e], l, row)
    {
      OpenedByStep(p, e, l, row);
    }
  }

  /** Every column command goes to the row its bank's latest activation opened, with no close in between. */
  lemma ColumnHitsOpenRow(c: Config, h: seq<Issued>, j: nat)
    requires c.WellFormed() && Legal(c, h) && j < |h| && h[j].cmd.IsReadWrite()
    ensures RowOpen(h[..j], h[j].cmd.At(), h[j].cmd.row)
  {
    LegalIsSound(c, h, j);
    LegalPrefix(c, h, j);
    assert h[j].cmd.Touches(h[j].cmd.At());
    OpenRowIsHistory(c, h[..j], h[j].cmd.At());
  }

  /** Refresh only ever meets closed banks: every earlier activation of the bank was closed again first. */
  lemma RefreshMeetsClosedBanks(c: Config, h: seq<Issued>, j: nat, l: Loc, row: int, i: nat)
    requires c.WellFormed() && Legal(c, h) && i < j < |h| && h[j].cmd.IsRefresh()
    requires c.Holds(l) && h[j].cmd.Touches(l)
    requires h[i].cmd.kind.Activate? && h[i].cmd.At() == l && h[i].cmd.row == row
    ensures exists m :: i < m < j && Closes(h[m].cmd, l)
  {
    LegalIsSound(c, h, j);
    LegalPrefix(c, h, j);
    OpenRowIsHistory(c, h[..j], l);
    assert !RowOpen(h[..j], l, row);
    assert !OpenedBy(h[..j], l, row, i);
  }

  // ---- Activation windows -----------------------------------------------------------------------------------

  /** The expiry list after a sequence of activations. */
  ghost function WindowOf(ts: seq<nat>, span: int): seq<nat> {
    if ts == [] then []
    else
      var t := ts[|ts| - 1];
      WindowAdd(WindowOf(ts[..|ts| - 1], span), t, Later(t, span))
  }

  /** Every activation passed the window test, and times never go back. */
  ghost predicate Admitted(ts: seq<nat>, limit: nat, span: int) {
    ts == [] ||
    (var p, t := ts[..|ts| - 1], ts[|ts| - 1];
     Admitted(p, limit, span) && WindowReady(WindowOf(p, span), limit, t) && (p != [] ==> p[|p| - 1] <= t))
  }

  /** The list holds the expiries of a suffix of the activations; all earlier ones have expired. */
  ghost predicate IsSuffix(w: seq<nat>, ts: seq<nat>, span: int) {
    && |w| <= |ts|
    && (forall i :: |ts| - |w| <= i < |ts| ==> w[i - (|ts| - |w|)] == Later(ts[i], span))
    && (forall i :: 0 <= i < |ts| - |w| ==> Later(ts[i], span) <= ts[|ts| - 1])
  }

  /** The activation `limit` places later comes at least one span later. */
  ghost predicate Spaced(ts: seq<nat>, limit: nat, span: int) {
    forall n :: limit <= n < |ts| ==> ts[n] >= ts[n - limit] + span
  }

  lemma SuffixStep(w: seq<nat>, ts: seq<nat>, t: nat, limit: nat, span: int)
    requires IsSuffix(w, ts, span) && |w| <= limit && Spaced(ts, limit, span)
    requires limit >= 1 && WindowReady(w, limit, t) && (ts != [] ==> ts[|ts| - 1] <= t)
    ensures var w' := WindowAdd(w, t, Later(t, span));
      IsSuffix(w', ts + [t], span) && |w'| <= limit && Spaced(ts + [t], limit, span)
  {
    var m := |ts| - |w|;
    if |w| > 0 { assert w[0] == Later(ts[m], span); }
  }

  /** For any limit k: the window test keeps every k + 1 consecutive activations at least one span apart. */
  lemma {:induction false} WindowSpan(ts: seq<nat>, limit: nat, span: int)
    requires limit >= 1 && Admitted(ts, limit, span)
    ensures IsSuffix(WindowOf(ts, span), ts, span) && |WindowOf(ts, span)| <= limit
    ensures Spaced(ts, limit, span)
  {
    if ts != [] {
      var p, t := ts[..|ts| - 1], ts[|ts| - 1];
      WindowSpan(p, limit, span);
      SuffixStep(WindowOf(p, span), p, t, limit, span);
      assert ts == p + [t];
    }
  }

  /** Times of the activations a history sends to one rank. */
  ghost function Acts(h: seq<Issued>, rank: int): seq<nat> {
    if h == [] then []
    else
      var p, e := Acts(h[..|h| - 1], rank), h[|h| - 1];
      if e.cmd.kind.Activate? && e.cmd.rank == rank then p + [e.clk] else p
  }

  lemma IssueWindows(c: Config, s: Chan, cmd: Command, clk: nat, r: int)
    requires c.WellFormed() && Shaped(c, s) && Addressed(c, cmd) && Issue(c, s, cmd, clk).Some? && 0 <= r < c.ranks
    ensures var s', hit := Issue(c, s, cmd, clk).value, cmd.kind.Activate? && cmd.rank == r;
      && s'.fourAw[r] == (if hit then WindowAdd(s.fourAw[r], clk, Later(clk, c.tFAW)) else s.fourAw[r])
      && (c.IsGDDR() ==>
            s'.thirtyTwoAw[r] == if hit then WindowAdd(s.thirtyTwoAw[r], clk, Later(clk, c.t32AW)) else s.thirtyTwoAw[r])
  {
    var u := UpdateState(c, s, cmd).value;
    assert u.fourAw == s.fourAw && u.thirtyTwoAw == s.thirtyTwoAw;
  }

  lemma {:induction false} ActsBefore(h: seq<Issued>, r: int, t: nat)
    requires forall i :: 0 <= i < |h| ==> h[i].clk <= t
    ensures Acts(h, r) != [] ==> Acts(h, r)[|Acts(h, r)| - 1] <= t
  {
    if h != [] { ActsBefore(h[..|h| - 1], r, t); }
  }

  /** A list is the expiry list of a sequence of activations, each of which passed the window test. */
  ghost predicate Tracks(w: seq<nat>, ts: seq<nat>, limit: nat, span: int) {
    w == WindowOf(ts, span) && Admitted(ts, limit, span)
  }

  lemma TracksStep(w: seq<nat>, ts: seq<nat>, t: nat, limit: nat, span: int)
    requires Tracks(w, ts, limit, span) && WindowReady(w, limit, t) && (ts != [] ==> ts[|ts| - 1] <= t)
    ensures Tracks(WindowAdd(w, t, Later(t, span)), ts + [t], limit, span)
  {
    assert (ts + [t])[..|ts|] == ts;
  }

  /** Both lists of a rank track its activations in every legal history. */
  lemma {:induction false} WindowsTrackActs(c: Config, h: seq<Issued>, r: int)
    requires c.WellFormed() && Legal(c, h) && 0 <= r < c.ranks
    ensures Replay(c, h).Some? && Tracks(Replay(c, h).value.fourAw[r], Acts(h, r), 4, c.tFAW)
    ensures c.IsGDDR() ==> Tracks(Replay(c, h).value.thirtyTwoAw[r], Acts(h, r), 32, c.t32AW)
  {
    hide Issue, Tracks, WindowAdd, Later;
    if h != [] {
      LegalStep(c, h);
      var p, e := h[..|h| - 1], h[|h| - 1];
      WindowsTrackActs(c, p, r);
      var s := Replay(c, p).value;
      IssueKeepsOk(c, s, e.cmd, e.clk);
      IssueWindows(c, s, e.cmd, e.clk, r);
      if e.cmd.kind.Activate? && e.cmd.rank == r {
        ActsBefore(p, r, e.clk);
        TracksStep(s.fourAw[r], Acts(p, r), e.clk, 4, c.tFAW);
        if c.IsGDDR() { TracksStep(s.thirtyTwoAw[r], Acts(p, r), e.clk, 32, c.t32AW); }
      }
    } else {
      TracksNothing(4, c.tFAW);
      TracksNothing(32, c.t32AW);
    }
  }

  lemma TracksNothing(limit: nat, span: int)
    ensures Tracks([], [], limit, span)
  {}

  /** Any five consecutive activations of a rank span at least tFAW. */
  lemma FiveActivationsSpan(c: Config, h: seq<Issued>, r: int, n: nat)
    requires c.WellFormed() && Legal(c, h) && 0 <= r < c.ranks && 4 <= n < |Acts(h, r)|
    ensures Acts(h, r)[n] >= Acts(h, r)[n - 4] + c.tFAW
  {
    WindowsTrackActs(c, h, r);
    WindowSpan(Acts(h, r), 4, c.tFAW);
  }

  /** On GDDR any 33 consecutive activations of a rank span at least t32AW. */
  lemma ThirtyThreeActivationsSpan(c: Config, h: seq<Issued>, r: int, n: nat)
    requires c.WellFormed() && Legal(c, h) && 0 <= r < c.ranks && 32 <= n < |Acts(h, r)| && c.IsGDDR()
    ensures Acts(h, r)[n] >= Acts(h, r)[n - 32] + c.t32AW
  {
    WindowsTrackActs(c, h, r);
    WindowSpan(Acts(h, r), 32, c.t32AW);
  }
}
