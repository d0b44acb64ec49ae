/** DRAM commands, bank coordinates and the small value types every other module shares. */
module Commands {

  datatype Option<+T> = None | Some(value: T)

  function Max(a: int, b: int): (m: int)
    ensures m >= a && m >= b && (m == a || m == b)
  {
    if a >= b then a else b
  }

  function Min(a: int, b: int): (m: int)
    ensures m <= a && m <= b && (m == a || m == b)
  {
    if a <= b then a else b
  }

  ghost predicate Distinct<T>(s: seq<T>) { forall i, j :: 0 <= i < j < |s| ==> s[i] != s[j] }

  datatype Kind =
    | Read | ReadPrecharge | Write | WritePrecharge
    | Activate | Precharge
    | RefreshBank | Refresh | SrefEnter | SrefExit

  const KINDS: nat := 10

  /** Position of a command type in the per-bank timing vector. */
  function Index(k: Kind): nat {
    match k
    case Read => 0
    case ReadPrecharge => 1
    case Write => 2
    case WritePrecharge => 3
    case Activate => 4
    case Precharge => 5
    case RefreshBank => 6
    case Refresh => 7
    case SrefEnter => 8
    case SrefExit => 9
  }

  /** One bank of the channel. */
  datatype Loc = Loc(rank: int, bankgroup: int, bank: int)

  /** A command carries the coordinates and the transaction address it was made from; -1 marks an unused coordinate. */
  datatype Command = Command(kind: Kind, rank: int, bankgroup: int, bank: int, row: int, column: int, hexAddr: int) {
    predicate IsRefresh() { kind.Refresh? || kind.RefreshBank? }
    predicate IsRead() { kind.Read? || kind.ReadPrecharge? }
    predicate IsWrite() { kind.Write? || kind.WritePrecharge? }
    predicate IsReadWrite() { IsRead() || IsWrite() }
    predicate IsRankCmd() { kind.Refresh? || kind.SrefEnter? || kind.SrefExit? }
    function At(): Loc { Loc(rank, bankgroup, bank) }
    /** Whether the command acts on the given bank. */
    predicate Touches(l: Loc) { if IsRankCmd() then l.rank == rank else l == At() }
  }

  /** One line of the command trace: what was issued, and when. */
  datatype Issued = Issued(cmd: Command, clk: nat)
}
