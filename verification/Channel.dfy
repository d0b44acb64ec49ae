/** What one DRAM channel remembers about its banks, and what each operation on that memory means. */
module Channel {
  import opened Commands
  import opened Timing

  datatype Phase = Open | Closed | SelfRefresh

  /** Earliest time each command type may be issued, indexed by `Index`. */
  type TimingTable = t: seq<nat> | |t| == KINDS witness [0, 0, 0, 0, 0, 0, 0, 0, 0, 0]

  datatype Bank = Bank(phase: Phase, openRow: int, rowHits: nat, earliest: TimingTable)

  const FRESH_BANK := Bank(Closed, -1, 0, [0, 0, 0, 0, 0, 0, 0, 0, 0, 0])

  /** Answer to "what could be issued now on behalf of this request?"; Abort is an exit of the program. */
  datatype Reply = Abort | NotReady | Go(cmd: Command)

  function BankRequired(b: Bank, cmd: Command): Option<Kind> {
    match b.phase
    case Closed =>
      if cmd.IsReadWrite() then Some(Activate)
      else if cmd.IsRefresh() || cmd.kind.SrefEnter? then Some(cmd.kind)
      else None
    case Open =>
      if cmd.IsReadWrite() then Some(if cmd.row == b.openRow then cmd.kind else Precharge)
      else if cmd.IsRefresh() || cmd.kind.SrefEnter? then Some(Precharge)
      else None
    case SelfRefresh =>
      if cmd.IsReadWrite() then Some(SrefExit) else None
  }

  function BankReply(b: Bank, cmd: Command, clk: nat): Reply {
    match BankRequired(b, cmd)
    case None => Abort
    case Some(k) => if clk >= b.earliest[Index(k)] then Go(cmd.(kind := k)) else NotReady
  }

  /** State of a bank after a command; None when the program exits. */
  function BankNext(b: Bank, k: Kind, row: int): Option<Bank> {
    match b.phase
    case Open =>
      (match k
       case Read | Write => Some(b.(rowHits := b.rowHits + 1))
       case ReadPrecharge | WritePrecharge | Precharge => Some(b.(phase := Closed, openRow := -1, rowHits := 0))
       case _ => None)
    case Closed =>
      (match k
       case Refresh | RefreshBank => Some(b)
       case Activate => Some(b.(phase := Open, openRow := row))
       case SrefEnter => Some(b.(phase := SelfRefresh))
       case _ => None)
    case SelfRefresh => if k.SrefExit? then Some(b.(phase := Closed)) else None
  }

  function Raise(t: TimingTable, k: Kind, time: nat): TimingTable {
    t[Index(k) := Max(t[Index(k)], time)]
  }

  /** Applies a delay list to a table, in list order. */
  function RaiseAll(t: TimingTable, ds: seq<Delay>, clk: nat): TimingTable {
    if ds == [] then t
    else
      var last := ds[|ds| - 1];
      Raise(RaiseAll(t, ds[..|ds| - 1], clk), last.next, Later(clk, last.gap))
  }

  datatype Chan = Chan(
    banks: map<Loc, Bank>,
    refreshQ: seq<Command>,
    asleep: set<int>,          // ranks in self-refresh
    fourAw: seq<seq<nat>>,     // per rank, expiry times of recent activations
    thirtyTwoAw: seq<seq<nat>>)

  /** One bank per coordinate triple and one activation list per rank. */
  ghost predicate Shaped(c: Config, s: Chan) {
    && (forall l :: l in s.banks <==> c.Holds(l))
    && |s.fourAw| == |s.thirtyTwoAw| == c.ranks
  }

  function Locs(c: Config): set<Loc> {
    set r, g, b | 0 <= r < c.ranks && 0 <= g < c.bankgroups && 0 <= b < c.banksPerGroup :: Loc(r, g, b)
  }

  function InitChan(c: Config): (s: Chan)
    requires c.WellFormed()
    ensures Shaped(c, s)
  {
    Chan(map l | l in Locs(c) :: FRESH_BANK, [], {}, seq(c.ranks, _ => []), seq(c.ranks, _ => []))
  }

  // ---- Activation windows -------------------------------------------------------------------------------

  predicate WindowReady(w: seq<nat>, limit: nat, t: nat) {
    !(|w| > 0 && t < w[0] && |w| >= limit)
  }

  function WindowAdd(w: seq<nat>, t: nat, expiry: nat): seq<nat> {
    (if |w| > 0 && t >= w[0] then w[1..] else w) + [expiry]
  }

  predicate ActivationWindowOk(c: Config, s: Chan, rank: int, t: nat)
    requires 0 <= rank < |s.fourAw| == |s.thirtyTwoAw|
  {
    WindowReady(s.fourAw[rank], 4, t) && (c.IsGDDR() ==> WindowReady(s.thirtyTwoAw[rank], 32, t))
  }

  // ---- Asking for a command -----------------------------------------------------------------------------

  /** Requests the controller makes: a queued column command, or a refresh. */
  predicate IsRequest(c: Config, q: Command) {
    if q.kind.Refresh? then 0 <= q.rank < c.ranks
    else (q.IsReadWrite() || q.kind.RefreshBank?) && c.Holds(q.At())
  }

  /** Scan of the banks of a rank, bankgroup by bankgroup, from bank (j, k) on; `ready` banks agreed so far. */
  function ScanRank(c: Config, s: Chan, q: Command, clk: nat, j: int, k: int, ready: int): (r: Reply)
    requires c.WellFormed() && Shaped(c, s) && 0 <= q.rank < c.ranks
    requires 0 <= j <= c.bankgroups && 0 <= k < c.banksPerGroup
    ensures r.Go? ==> r.cmd == q || (c.Holds(r.cmd.At()) && r.cmd.kind != q.kind)
    decreases c.bankgroups - j, c.banksPerGroup - k
  {
    if j == c.bankgroups then
      if ready == c.Banks() then Go(q) else NotReady
    else
      var j', k' := if k + 1 < c.banksPerGroup then j else j + 1, if k + 1 < c.banksPerGroup then k + 1 else 0;
      match BankReply(s.banks[Loc(q.rank, j, k)], q, clk)
      case Abort => Abort
      case NotReady => ScanRank(c, s, q, clk, j', k', ready)
      case Go(x) =>
        if x.kind != q.kind then Go(x.(rank := q.rank, bankgroup := j, bank := k, row := -1, column := -1))
        else ScanRank(c, s, q, clk, j', k', ready + 1)
  }

  /** The command names a rank, and a bank unless it goes to the whole rank. */
  predicate Addressed(c: Config, cmd: Command) {
    0 <= cmd.rank < c.ranks && (!cmd.IsRankCmd() ==> c.Holds(cmd.At()))
  }

  function ChanReply(c: Config, s: Chan, q: Command, clk: nat): (r: Reply)
    requires c.WellFormed() && Shaped(c, s) && Addressed(c, q)
    ensures r.Go? ==> Addressed(c, r.cmd)
  {
    if q.IsRankCmd() then ScanRank(c, s, q, clk, 0, 0, 0)
    else
      var r := BankReply(s.banks[q.At()], q, clk);
      if r.Go? && r.cmd.kind.Activate? && !ActivationWindowOk(c, s, r.cmd.rank, clk) then NotReady else r
  }

  // ---- Issuing a command --------------------------------------------------------------------------------

  /** Drops the first queued refresh of a rank. */
  function DropRank(q: seq<Command>, rank: int): seq<Command> {
    if q == [] then [] else if q[0].rank == rank then q[1..] else [q[0]] + DropRank(q[1..], rank)
  }

  /** Drops the first queued refresh of a bank. */
  function DropBank(q: seq<Command>, l: Loc): seq<Command> {
    if q == [] then [] else if q[0].At() == l then q[1..] else [q[0]] + DropBank(q[1..], l)
  }

  function RefreshDone(q: seq<Command>, cmd: Command): seq<Command> {
    if cmd.kind.Refresh? then DropRank(q, cmd.rank)
    else if cmd.kind.RefreshBank? then DropBank(q, cmd.At())
    else q
  }

  function UpdateState(c: Config, s: Chan, cmd: Command): Option<Chan>
    requires c.WellFormed() && Shaped(c, s)
    requires Addressed(c, cmd)
  {
    if exists l :: l in s.banks && cmd.Touches(l) && BankNext(s.banks[l], cmd.kind, cmd.row).None? then None
    else Some(s.(
      banks := map l | l in s.banks ::
        if cmd.Touches(l) then BankNext(s.banks[l], cmd.kind, cmd.row).value else s.banks[l],
      refreshQ := RefreshDone(s.refreshQ, cmd),
      asleep := if cmd.kind.SrefEnter? then s.asleep + {cmd.rank}
                else if cmd.kind.SrefExit? then s.asleep - {cmd.rank} else s.asleep))
  }

  function UpdateTiming(c: Config, s: Chan, cmd: Command, clk: nat): Chan
    requires Shaped(c, s) && 0 <= cmd.rank < c.ranks
  {
    s.(
      banks := map l | l in s.banks :: s.banks[l].(earliest := RaiseAll(s.banks[l].earliest, Imposed(c, cmd, l), clk)),
      fourAw := if cmd.kind.Activate?
                then s.fourAw[cmd.rank := WindowAdd(s.fourAw[cmd.rank], clk, Later(clk, c.tFAW))] else s.fourAw,
      thirtyTwoAw := if cmd.kind.Activate? && c.IsGDDR()
                then s.thirtyTwoAw[cmd.rank := WindowAdd(s.thirtyTwoAw[cmd.rank], clk, Later(clk, c.t32AW))]
                else s.thirtyTwoAw)
  }

  function Issue(c: Config, s: Chan, cmd: Command, clk: nat): (r: Option<Chan>)
    requires c.WellFormed() && Shaped(c, s)
    requires Addressed(c, cmd)
    ensures r.Some? ==> Shaped(c, r.value)
  {
    var u := UpdateState(c, s, cmd);
    if u.None? then None else Some(UpdateTiming(c, u.value, cmd, clk))
  }
}
