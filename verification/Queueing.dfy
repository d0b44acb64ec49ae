/** The controller and its command queues: what each operation does to the whole state. */
module Queueing {
  import opened Commands
  import opened Timing
  import opened Channel
  import opened ChannelHistory
  import opened Address

  datatype Setup = Setup(
    dram: Config, lay: Layout, policy: RefreshPolicy,
    perBank: bool, cmdQueueSize: nat, transQueueSize: nat,
    unified: bool, closePage: bool, dual: bool)
  {
    function NumQueues(): int { if perBank then dram.Banks() * dram.ranks else dram.ranks }

    function QueueIndex(l: Loc): int {
      if perBank then l.rank * dram.Banks() + l.bankgroup * dram.banksPerGroup + l.bank else l.rank
    }

    /** The layout only produces coordinates of banks that exist, as `Address.MappingInRange` shows of every layout. */
    ghost predicate WellFormed() {
      && dram.WellFormed()
      && Pow2(lay.width.ra) <= dram.ranks
      && Pow2(lay.width.bg) <= dram.bankgroups
      && Pow2(lay.width.ba) <= dram.banksPerGroup
    }
  }

  /** Block i of n blocks of size b, place r within it. */
  lemma BlockIndex(i: int, n: int, b: int, r: int)
    requires 0 <= i < n && 0 <= r < b
    ensures 0 <= i * b + r < n * b
  {
    var rest := n - 1 - i;
    assert n * b == i * b + rest * b + b;
  }

  lemma SizesPositive(u: Setup)
    requires u.dram.WellFormed()
    ensures u.dram.Banks() >= 1 && u.NumQueues() >= 1
  {
    BlockIndex(0, u.dram.bankgroups, u.dram.banksPerGroup, 0);
    BlockIndex(0, u.dram.Banks(), u.dram.ranks, 0);
  }

  /** Every bank has a queue, and with a queue per bank the queues of a rank are contiguous. */
  lemma IndexInRange(u: Setup, l: Loc)
    requires u.dram.WellFormed() && u.dram.Holds(l)
    ensures 0 <= u.QueueIndex(l) < u.NumQueues()
    ensures u.dram.Banks() >= 1 && (u.perBank ==> u.QueueIndex(l) / u.dram.Banks() == l.rank)
  {
    SizesPositive(u);
    var b, inner := u.dram.Banks(), l.bankgroup * u.dram.banksPerGroup + l.bank;
    BlockIndex(l.bankgroup, u.dram.bankgroups, u.dram.banksPerGroup, l.bank);
    BlockIndex(l.rank, u.dram.ranks, b, inner);
    DivideBlock(l.rank, b, inner);
  }

  lemma DivideBlock(q: int, b: int, r: int)
    requires b >= 1 && 0 <= r < b
    ensures (q * b + r) / b == q
  {
    var x := q * b + r;
    var d := x / b - q;
    assert d * b == r - x % b;
    assert (d >= 1 ==> d * b >= b) && (d <= -1 ==> d * b <= -b);
  }

  datatype Trans = Trans(addr: nat, isWrite: bool, added: nat, complete: nat)

  // ---- Command queues -------------------------------------------------------------------------------------

  datatype CmdQ = CmdQ(queues: seq<seq<Command>>, refIdx: set<int>, inRef: bool, idx: int)

  function TransToCommand(u: Setup, isWrite: bool, addr: nat): Command {
    var at := AddressMapping(u.lay, addr);
    var kind :=
      if u.closePage then (if isWrite then WritePrecharge else ReadPrecharge) else (if isWrite then Write else Read);
    Command(kind, at.ra, at.bg, at.ba, at.ro, at.co, addr)
  }

  /** A precharge on behalf of entry i: it is the oldest of its bank, and row hits are exhausted or at their limit. */
  predicate ArbitratePrecharge(s: Chan, q: seq<Command>, i: int)
    requires 0 <= i < |q| && q[i].At() in s.banks
  {
    var b := s.banks[q[i].At()];
    && (forall p :: 0 <= p < i ==> q[p].At() != q[i].At())
    && ((forall p :: i <= p < |q| ==> !(q[p].row == b.openRow && q[p].At() == q[i].At())) || b.rowHits >= 4)
  }

  predicate SamePlace(a: Command, b: Command) {
    a.row == b.row && a.column == b.column && a.bank == b.bank && a.bankgroup == b.bankgroup
  }

  predicate HasRWDependency(q: seq<Command>, i: int)
    requires 0 <= i < |q|
  {
    exists p :: 0 <= p < i && q[p].IsRead() && SamePlace(q[p], q[i])
  }

  /** The ready command must be passed over for now. */
  predicate HeldBack(s: Chan, q: seq<Command>, i: int, ready: Command)
    requires 0 <= i < |q| && q[i].At() in s.banks
  {
    if ready.kind.Precharge? then !ArbitratePrecharge(s, q, i)
    else ready.IsWrite() && HasRWDependency(q, i)
  }

  ghost predicate Askable(u: Setup, s: Chan, q: seq<Command>) {
    && u.dram.WellFormed() && Shaped(u.dram, s)
    && forall x :: x in q ==> x.IsReadWrite() && u.dram.Holds(x.At())
  }

  /** First entry from i on with a command that can be issued now. */
  function FirstReady(u: Setup, s: Chan, q: seq<Command>, clk: nat, i: int): (r: Reply)
    requires Askable(u, s, q) && 0 <= i <= |q|
    ensures r.Go? ==> Addressed(u.dram, r.cmd)
    decreases |q| - i
  {
    if i == |q| then NotReady
    else
      assert q[i] in q;
      match ChanReply(u.dram, s, q[i], clk)
      case Abort => Abort
      case NotReady => FirstReady(u, s, q, clk, i + 1)
      case Go(x) => if HeldBack(s, q, i, x) then FirstReady(u, s, q, clk, i + 1) else Go(x)
  }

  /** Removes the first entry with the command's address and type; None where the program exits. */
  function EraseRW(q: seq<Command>, cmd: Command): (r: Option<seq<Command>>)
    ensures r.Some? ==> forall x :: x in r.value ==> x in q
  {
    if q == [] then None
    else if q[0].hexAddr == cmd.hexAddr && q[0].kind == cmd.kind then Some(q[1..])
    else
      var r := EraseRW(q[1..], cmd);
      if r.None? then None else Some([q[0]] + r.value)
  }

  ghost predicate QueuesAskable(u: Setup, s: Chan, cq: CmdQ) {
    && u.dram.WellFormed() && Shaped(u.dram, s)
    && |cq.queues| == u.NumQueues() && 0 <= cq.idx < |cq.queues|
    && forall n :: 0 <= n < |cq.queues| ==> Askable(u, s, cq.queues[n])
  }

  predicate Blocked(cq: CmdQ, n: int) { cq.inRef && n in cq.refIdx }

  function NextIdx(cq: CmdQ): int { if cq.idx + 1 == |cq.queues| then 0 else cq.idx + 1 }

  /** Takes a chosen command out of its queue if it is a column command. */
  function Dispatch(u: Setup, s: Chan, cq: CmdQ, x: Command): (r: (CmdQ, Reply))
    requires QueuesAskable(u, s, cq) && Addressed(u.dram, x)
    ensures QueuesAskable(u, s, r.0) && (r.1.Go? ==> r.1.cmd == x) && !r.1.NotReady?
  {
    if !x.IsReadWrite() then (cq, Go(x))
    else
      IndexInRange(u, x.At());
      var n := u.QueueIndex(x.At());
      var q := EraseRW(cq.queues[n], x);
      if q.None? then (cq, Abort) else (cq.(queues := cq.queues[n := q.value]), Go(x))
  }

  /** Round robin over at most `tries` queues, starting after the last one looked at. */
  function GetCommandToIssue(u: Setup, s: Chan, cq: CmdQ, clk: nat, tries: nat): (r: (CmdQ, Reply))
    requires QueuesAskable(u, s, cq)
    ensures QueuesAskable(u, s, r.0) && (r.1.Go? ==> Addressed(u.dram, r.1.cmd))
    decreases tries
  {
    if tries == 0 then (cq, NotReady)
    else
      var cq' := cq.(idx := NextIdx(cq));
      if Blocked(cq', cq'.idx) then GetCommandToIssue(u, s, cq', clk, tries - 1)
      else
        match FirstReady(u, s, cq'.queues[cq'.idx], clk, 0)
        case Abort => (cq', Abort)
        case NotReady => GetCommandToIssue(u, s, cq', clk, tries - 1)
        case Go(x) => Dispatch(u, s, cq', x)
  }

  /** Queues a refresh keeps from issuing. */
  function RefIndices(u: Setup, ref: Command): set<int>
    requires u.dram.WellFormed()
  {
    SizesPositive(u);
    if ref.kind.Refresh? then
      if u.perBank then set i | 0 <= i < u.NumQueues() && i / u.dram.Banks() == ref.rank else {ref.rank}
    else {u.QueueIndex(ref.At())}
  }

  function FinishRefresh(u: Setup, s: Chan, cq: CmdQ, clk: nat): (r: (CmdQ, Reply))
    requires QueuesAskable(u, s, cq) && s.refreshQ != [] && Addressed(u.dram, s.refreshQ[0])
    ensures QueuesAskable(u, s, r.0) && (r.1.Go? ==> Addressed(u.dram, r.1.cmd))
  {
    var ref := s.refreshQ[0];
    var cq' := if cq.inRef then cq else cq.(refIdx := cq.refIdx + RefIndices(u, ref), inRef := true);
    var r := ChanReply(u.dram, s, ref, clk);
    if r.Go? && r.cmd.IsRefresh() then (cq'.(refIdx := {}, inRef := false), r) else (cq', r)
  }

  // ---- Refresh counter --------------------------------------------------------------------------------------

  datatype Counter = Counter(clk: nat, rank: int, bankgroup: int, bank: int)

  function RefreshInterval(u: Setup): int
    requires u.dram.ranks >= 1
  {
    match u.policy
    case RankSimultaneous => u.dram.tREFI
    case BankStaggered => u.dram.tREFIb
    case RankStaggered => u.dram.tREFI / u.dram.ranks
  }

  function IterateNext(u: Setup, n: Counter): Counter
    requires u.dram.WellFormed()
  {
    match u.policy
    case RankStaggered => n.(rank := (n.rank + 1) % u.dram.ranks)
    case BankStaggered =>
      var bg := (n.bankgroup + 1) % u.dram.bankgroups;
      var ba := if bg == 0 then (n.bank + 1) % u.dram.banksPerGroup else n.bank;
      var ra := if bg == 0 && ba == 0 then (n.rank + 1) % u.dram.ranks else n.rank;
      n.(bankgroup := bg, bank := ba, rank := ra)
    case RankSimultaneous => n
  }

  /** The refresh this counter asks for next. */
  function NextRefresh(u: Setup, n: Counter): Command {
    match u.policy
    case RankSimultaneous => Command(Refresh, 0, -1, -1, -1, -1, -1)
    case RankStaggered => Command(Refresh, n.rank, -1, -1, -1, -1, -1)
    case BankStaggered => Command(RefreshBank, n.rank, n.bankgroup, n.bank, -1, -1, -1)
  }

  /** Self-refresh is disabled, so no rank is ever skipped. */
  function RefreshTick(u: Setup, n: Counter, q: seq<Command>): (Counter, seq<Command>)
    requires u.dram.WellFormed() && RefreshInterval(u) > 0
  {
    if n.clk % RefreshInterval(u) == 0 && n.clk > 0
    then (IterateNext(u, n).(clk := n.clk + 1), q + [NextRefresh(u, n)])
    else (n.(clk := n.clk + 1), q)
  }

  // ---- Controller -------------------------------------------------------------------------------------------

  /** A multimap keyed by address; equal keys in insertion order. */
  type Pending = map<int, seq<Trans>>

  function At(m: Pending, a: int): seq<Trans> { if a in m then m[a] else [] }

  function Insert(m: Pending, t: Trans): Pending { m[t.addr := At(m, t.addr) + [t]] }

  datatype Ctrl = Ctrl(
    clk: nat, chan: Chan, cq: CmdQ, refresh: Counter,
    unifiedQ: seq<Trans>, readQ: seq<Trans>, writeBuf: seq<Trans>,
    pendingRd: Pending, pendingWr: Pending,
    returnQ: seq<Trans>,
    draining: int,
    trace: seq<Issued>)        // the command trace

  function InitCtrl(u: Setup): Ctrl
    requires u.dram.WellFormed()
  {
    SizesPositive(u);
    Ctrl(0, InitChan(u.dram), CmdQ(seq(u.NumQueues(), _ => []), {}, false, 0), Counter(0, 0, 0, 0),
         [], [], [], map[], map[], [], 0, [])
  }

  predicate WillAcceptTransaction(u: Setup, s: Ctrl, isWrite: bool) {
    |if u.unified then s.unifiedQ else if isWrite then s.writeBuf else s.readQ| < u.transQueueSize
  }

  function Enqueue(u: Setup, s: Ctrl, t: Trans): Ctrl {
    if u.unified then s.(unifiedQ := s.unifiedQ + [t])
    else if t.isWrite then s.(writeBuf := s.writeBuf + [t])
    else s.(readQ := s.readQ + [t])
  }

  function AddTransaction(u: Setup, s: Ctrl, addr: nat, isWrite: bool): Ctrl {
    var t := Trans(addr, isWrite, s.clk, 0);
    var done := t.(complete := s.clk + 1);
    if isWrite then
      var s' := if At(s.pendingWr, addr) == [] then Enqueue(u, s.(pendingWr := Insert(s.pendingWr, t)), t) else s;
      s'.(returnQ := s'.returnQ + [done])
    else if At(s.pendingWr, addr) != [] then s.(returnQ := s.returnQ + [done])
    else
      var s' := s.(pendingRd := Insert(s.pendingRd, t));
      if |At(s'.pendingRd, addr)| == 1 then Enqueue(u, s', t) else s'
  }

  /** Index of the first transaction that is done, or the length. */
  function FirstDone(q: seq<Trans>, clk: nat): (i: nat)
    ensures i <= |q| && (i < |q| ==> clk >= q[i].complete)
    ensures forall j :: 0 <= j < i ==> clk < q[j].complete
  {
    if q == [] then 0 else if clk >= q[0].complete then 0 else 1 + FirstDone(q[1..], clk)
  }

  function ReturnDoneTrans(s: Ctrl, clk: nat): (Ctrl, Option<Trans>) {
    var i := FirstDone(s.returnQ, clk);
    if i == |s.returnQ| then (s, None)
    else (s.(returnQ := s.returnQ[..i] + s.returnQ[i + 1..]), Some(s.returnQ[i]))
  }

  function Completed(ts: seq<Trans>, at: nat): seq<Trans> {
    if ts == [] then [] else [ts[0].(complete := at)] + Completed(ts[1..], at)
  }

  /** Bookkeeping of a column command; None where the program exits. */
  function Account(u: Setup, s: Ctrl, cmd: Command): Option<Ctrl> {
    if cmd.IsRead() then
      var ts := At(s.pendingRd, cmd.hexAddr);
      if ts == [] then None
      else Some(s.(returnQ := s.returnQ + Completed(ts, Later(s.clk, u.dram.ReadDelay())),
                   pendingRd := s.pendingRd - {cmd.hexAddr}))
    else if cmd.IsWrite() then
      var ts := At(s.pendingWr, cmd.hexAddr);
      if ts == [] then None else Some(s.(pendingWr := s.pendingWr[cmd.hexAddr := ts[1..]]))
    else Some(s)
  }

  lemma OtherChannel(u: Setup, s: Chan, s': Chan, cq: CmdQ)
    requires QueuesAskable(u, s, cq) && Shaped(u.dram, s')
    ensures QueuesAskable(u, s', cq)
  {}

  function IssueCommand(u: Setup, s: Ctrl, cmd: Command): (r: Option<Ctrl>)
    requires QueuesAskable(u, s.chan, s.cq) && Addressed(u.dram, cmd)
    ensures r.Some? ==> QueuesAskable(u, r.value.chan, r.value.cq)
  {
    var a, ch := Account(u, s, cmd), Issue(u.dram, s.chan, cmd, s.clk);
    if a.None? || ch.None? then None
    else
      OtherChannel(u, s.chan, ch.value, s.cq);
      Some(a.value.(chan := ch.value, trace := s.trace + [Issued(cmd, s.clk)]))
  }

  predicate QueueEmpty(cq: CmdQ) { forall n :: 0 <= n < |cq.queues| ==> cq.queues[n] == [] }

  lemma CommandInRange(u: Setup, isWrite: bool, addr: nat)
    requires u.WellFormed()
    ensures u.dram.Holds(TransToCommand(u, isWrite, addr).At()) && TransToCommand(u, isWrite, addr).IsReadWrite()
  {
    var at := AddressMapping(u.lay, addr);
    assert at.Of(Ra) < Pow2(u.lay.width.Of(Ra)) && at.Of(Bg) < Pow2(u.lay.width.Of(Bg)) && at.Of(Ba) < Pow2(u.lay.width.Of(Ba));
  }

  /** Moves the front of one transaction queue into its command queue, if there is room. */
  function ScheduleTransaction(u: Setup, s: Ctrl): (r: Ctrl)
    requires u.WellFormed() && |s.cq.queues| == u.NumQueues()
    ensures |r.cq.queues| == |s.cq.queues|
  {
    var draining :=
      if s.draining == 0 && !u.unified &&
         (|s.writeBuf| >= u.transQueueSize || (|s.writeBuf| > 8 && QueueEmpty(s.cq)))
      then |s.writeBuf| else s.draining;
    var q := if u.unified then s.unifiedQ else if draining > 0 then s.writeBuf else s.readQ;
    if q == [] then s.(draining := draining)
    else
      var t := q[0];
      var cmd := TransToCommand(u, t.isWrite, t.addr);
      CommandInRange(u, t.isWrite, t.addr);
      IndexInRange(u, cmd.At());
      var n := u.QueueIndex(cmd.At());
      if |s.cq.queues[n]| >= u.cmdQueueSize then s.(draining := draining)
      else if !u.unified && t.isWrite && At(s.pendingRd, t.addr) != [] then s.(draining := 0)
      else
        var s' := s.(cq := s.cq.(queues := s.cq.queues[n := s.cq.queues[n] + [cmd]]),
                     draining := if !u.unified && t.isWrite then draining - 1 else draining);
        if u.unified then s'.(unifiedQ := q[1..])
        else if draining > 0 then s'.(writeBuf := q[1..])
        else s'.(readQ := q[1..])
  }

  // ---- One cycle ----------------------------------------------------------------------------------------------

  /** What the cycle's functions need to be called at all. */
  ghost predicate Callable(u: Setup, s: Ctrl) {
    && u.WellFormed() && RefreshInterval(u) > 0
    && QueuesAskable(u, s.chan, s.cq)
    && (forall i :: 0 <= i < |s.chan.refreshQ| ==> Addressed(u.dram, s.chan.refreshQ[i]))
    && Addressed(u.dram, NextRefresh(u, s.refresh))
  }

  function BeginTick(u: Setup, s: Ctrl): (s': Ctrl)
    requires Callable(u, s)
    ensures Callable(u, s')
  {
    var r := RefreshTick(u, s.refresh, s.chan.refreshQ);
    s.(refresh := r.0, chan := s.chan.(refreshQ := r.1))
  }

  /** The first command of the cycle: refresh work if there is any that is ready, else a queued command. */
  function Choose(u: Setup, s: Ctrl): (r: (CmdQ, Reply))
    requires Callable(u, s)
    ensures QueuesAskable(u, s.chan, r.0) && (r.1.Go? ==> Addressed(u.dram, r.1.cmd))
  {
    var f := if s.chan.refreshQ == [] then (s.cq, NotReady) else FinishRefresh(u, s.chan, s.cq, s.clk);
    if f.1.NotReady? then GetCommandToIssue(u, s.chan, f.0, s.clk, u.NumQueues()) else f
  }

  /** The second command of a dual-command cycle; a second command of the same class is dropped. */
  function SecondCommand(u: Setup, s: Ctrl, first: Command): (r: Option<Ctrl>)
    requires QueuesAskable(u, s.chan, s.cq)
    ensures r.Some? ==> QueuesAskable(u, r.value.chan, r.value.cq)
  {
    var (cq, r) := GetCommandToIssue(u, s.chan, s.cq, s.clk, u.NumQueues());
    match r
    case Abort => None
    case NotReady => Some(s.(cq := cq))
    case Go(x) =>
      if x.IsReadWrite() != first.IsReadWrite() then IssueCommand(u, s.(cq := cq), x) else Some(s.(cq := cq))
  }

  /** Everything a cycle issues; None where the program exits. */
  function IssueStage(u: Setup, s: Ctrl): (r: Option<Ctrl>)
    requires Callable(u, s)
    ensures r.Some? ==> QueuesAskable(u, r.value.chan, r.value.cq)
  {
    var (cq, r) := Choose(u, s);
    match r
    case Abort => None
    case NotReady => Some(s.(cq := cq))
    case Go(x) =>
      var a := IssueCommand(u, s.(cq := cq), x);
      if a.None? || !u.dual then a else SecondCommand(u, a.value, x)
  }

  function EndTick(u: Setup, s: Ctrl): Ctrl
    requires u.WellFormed() && |s.cq.queues| == u.NumQueues()
  {
    var s' := ScheduleTransaction(u, s);
    s'.(clk := s'.clk + 1)
  }

  /** One controller cycle; None where the program exits. */
  function ClockTick(u: Setup, s: Ctrl): Option<Ctrl>
    requires Callable(u, s)
  {
    var r := IssueStage(u, BeginTick(u, s));
    if r.None? then None else Some(EndTick(u, r.value))
  }
}
