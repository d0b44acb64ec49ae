/** The configuration and the command-to-command delay tables computed from it. */
module Timing {
  import opened Commands

  datatype Protocol = DDR3 | DDR4 | GDDR5 | GDDR5X | GDDR6 | LPDDR | LPDDR3 | LPDDR4 | HBM | HBM2 | HMC

  datatype RefreshPolicy = RankSimultaneous | RankStaggered | BankStaggered

  datatype Config = Config(
    protocol: Protocol,
    ranks: int, bankgroups: int, banksPerGroup: int,
    burstCycle: int, AL: int, CL: int, CWL: int,
    tCCD_L: int, tCCD_S: int, tRTRS: int, tRTP: int, tWTR_L: int, tWTR_S: int, tWR: int,
    tRP: int, tRRD_L: int, tRRD_S: int, tRAS: int, tRCD: int, tRCDRD: int, tRCDWR: int,
    tRFC: int, tRFCb: int, tREFI: int, tREFIb: int, tFAW: int, t32AW: int, tPPD: int,
    tCKESR: int, tXS: int)
  {
    predicate IsGDDR() { protocol.GDDR5? || protocol.GDDR5X? || protocol.GDDR6? }
    predicate IsHBM() { protocol.HBM? || protocol.HBM2? }
    function Banks(): int { bankgroups * banksPerGroup }
    function RL(): int { AL + CL }
    function WL(): int { AL + CWL }
    function ReadDelay(): int { RL() + burstCycle }
    function WriteDelay(): int { WL() + burstCycle }
    function TRC(): int { tRAS + tRP }

    predicate WellFormed() { ranks >= 1 && bankgroups >= 1 && banksPerGroup >= 1 }

    predicate Holds(l: Loc) {
      0 <= l.rank < ranks && 0 <= l.bankgroup < bankgroups && 0 <= l.bank < banksPerGroup
    }

    // The delays named in the constructor of the tables; with one bankgroup the long delays become the short ones.
    function CcdL(): int { Max(burstCycle, if bankgroups == 1 then tCCD_S else tCCD_L) }
    function CcdS(): int { Max(burstCycle, tCCD_S) }
    function ReadToReadO(): int { burstCycle + tRTRS }
    function ReadToWrite(): int { RL() + burstCycle - WL() + tRTRS }
    function ReadToWriteO(): int { ReadDelay() + burstCycle + tRTRS - WriteDelay() }
    function ReadToPrecharge(): int { AL + tRTP }
    function ReadpToAct(): int { AL + burstCycle + tRTP + tRP }
    function WriteToReadL(): int { WriteDelay() + if bankgroups == 1 then tWTR_S else tWTR_L }
    function WriteToReadS(): int { WriteDelay() + tWTR_S }
    function WriteToReadO(): int { WriteDelay() + burstCycle + tRTRS - ReadDelay() }
    function WriteToWriteO(): int { burstCycle }
    function WriteToPrecharge(): int { WL() + burstCycle + tWR }
    function ReadToActivate(): int { ReadToPrecharge() + tRP }
    function WriteToActivate(): int { WriteToPrecharge() + tRP }
    function RrdL(): int { if bankgroups == 1 then tRRD_S else tRRD_L }
    function ActivateToRead(): int { if IsGDDR() || IsHBM() then tRCDRD else tRCD - AL }
    function ActivateToWrite(): int { if IsGDDR() || IsHBM() then tRCDWR else tRCD - AL }
    predicate HasPPD() { IsGDDR() || protocol.LPDDR4? }
  }

  /** Which of the five tables a bank takes its delays from, given the command that was issued. */
  datatype Scope = SameBank | OtherBanksSameGroup | OtherGroupsSameRank | OtherRanks | SameRank

  datatype Delay = Delay(next: Kind, gap: int)

  function ColumnDelays(read: int, write: int): seq<Delay> {
    [Delay(Read, read), Delay(Write, write), Delay(ReadPrecharge, read), Delay(WritePrecharge, write)]
  }

  /** Delays that hold back the next row-level operation of a bank. */
  function RowDelays(act: int, refresh: int): seq<Delay> {
    [Delay(Activate, act), Delay(Refresh, refresh), Delay(RefreshBank, refresh), Delay(SrefEnter, refresh)]
  }

  function SameBankDelays(c: Config, k: Kind): seq<Delay> {
    match k
    case Read => ColumnDelays(c.CcdL(), c.ReadToWrite()) + [Delay(Precharge, c.ReadToPrecharge())]
    case Write => ColumnDelays(c.WriteToReadL(), c.CcdL()) + [Delay(Precharge, c.WriteToPrecharge())]
    case ReadPrecharge => RowDelays(c.ReadpToAct(), c.ReadToActivate())
    case WritePrecharge => RowDelays(c.WriteToActivate(), c.WriteToActivate())
    case Activate =>
      [Delay(Activate, c.TRC())] + ColumnDelays(c.ActivateToRead(), c.ActivateToWrite()) + [Delay(Precharge, c.tRAS)]
    case Precharge => RowDelays(c.tRP, c.tRP)
    case _ => []
  }

  function OtherBankDelays(c: Config, k: Kind): seq<Delay> {
    match k
    case Read | ReadPrecharge => ColumnDelays(c.CcdL(), c.ReadToWrite())
    case Write | WritePrecharge => ColumnDelays(c.WriteToReadL(), c.CcdL())
    case Activate => [Delay(Activate, c.RrdL()), Delay(RefreshBank, c.TRC())]
    case Precharge => if c.HasPPD() then [Delay(Precharge, c.tPPD)] else []
    case RefreshBank => [Delay(Activate, c.tRFC), Delay(RefreshBank, c.tREFI)]
    case _ => []
  }

  function OtherGroupDelays(c: Config, k: Kind): seq<Delay> {
    match k
    case Read | ReadPrecharge => ColumnDelays(c.CcdS(), c.ReadToWrite())
    case Write | WritePrecharge => ColumnDelays(c.WriteToReadS(), c.CcdS())
    case Activate => [Delay(Activate, c.tRRD_S), Delay(RefreshBank, c.TRC())]
    case Precharge => if c.HasPPD() then [Delay(Precharge, c.tPPD)] else []
    case RefreshBank => [Delay(Activate, c.tRFC), Delay(RefreshBank, c.tREFI)]
    case _ => []
  }

  function OtherRankDelays(c: Config, k: Kind): seq<Delay> {
    match k
    case Read | ReadPrecharge => ColumnDelays(c.ReadToReadO(), c.ReadToWriteO())
    case Write | WritePrecharge => ColumnDelays(c.WriteToReadO(), c.WriteToWriteO())
    case _ => []
  }

  function SameRankDelays(c: Config, k: Kind): seq<Delay> {
    match k
    case RefreshBank => RowDelays(c.tRFCb, c.tRFCb)
    case Refresh => [Delay(Activate, c.tRFC), Delay(Refresh, c.tRFC), Delay(SrefEnter, c.tRFC)]
    case SrefEnter => [Delay(SrefExit, c.tCKESR)]
    case SrefExit => RowDelays(c.tXS, c.tXS)
    case _ => []
  }

  function DelayList(c: Config, s: Scope, k: Kind): seq<Delay> {
    match s
    case SameBank => SameBankDelays(c, k)
    case OtherBanksSameGroup => OtherBankDelays(c, k)
    case OtherGroupsSameRank => OtherGroupDelays(c, k)
    case OtherRanks => OtherRankDelays(c, k)
    case SameRank => SameRankDelays(c, k)
  }

  /** The table that applies to bank `l` when a bank-level command goes to bank `a`. */
  function ScopeOf(a: Loc, l: Loc): Scope {
    if l.rank != a.rank then OtherRanks
    else if l.bankgroup != a.bankgroup then OtherGroupsSameRank
    else if l.bank != a.bank then OtherBanksSameGroup
    else SameBank
  }

  /** The delays that issuing `cmd` imposes on bank `l`. */
  function Imposed(c: Config, cmd: Command, l: Loc): seq<Delay> {
    if !cmd.IsRankCmd() then DelayList(c, ScopeOf(cmd.At(), l), cmd.kind)
    else if l.rank == cmd.rank then DelayList(c, SameRank, cmd.kind)
    else []
  }

  const TWO64: nat := 0x1_0000_0000_0000_0000

  /** A 64-bit unsigned clock plus a signed delay: a negative sum wraps round. */
  function Later(clk: nat, gap: int): (t: nat)
    ensures t >= clk + gap
    ensures clk + gap >= 0 ==> t == clk + gap
  {
    if clk + gap >= 0 then clk + gap else (clk + gap) % TWO64
  }
}
