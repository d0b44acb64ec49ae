/** The channel as the simulator updates it: fields changed in place by loops over banks, refined to `Channel`. */
module ChannelStateImpl {
  import opened Commands
  import opened Timing
  import opened Channel
  import opened ChannelHistory

  /** Banks after raising the tables of the chosen ones. */
  ghost predicate Raised(was: map<Loc, Bank>, now: map<Loc, Bank>, ds: seq<Delay>, clk: nat, chosen: Loc -> bool) {
    && now.Keys == was.Keys
    && forall l :: l in was ==>
         now[l] == if chosen(l) then was[l].(earliest := RaiseAll(was[l].earliest, ds, clk)) else was[l]
  }

  class ChannelState {
    const cfg: Config
    var banks: map<Loc, Bank>
    var refreshQ: seq<Command>
    var asleep: set<int>
    var fourAw: seq<seq<nat>>
    var thirtyTwoAw: seq<seq<nat>>

    ghost function State(): Chan reads this { Chan(banks, refreshQ, asleep, fourAw, thirtyTwoAw) }

    ghost predicate Valid() reads this { cfg.WellFormed() && Shaped(cfg, State()) }

    constructor (c: Config)
      requires c.WellFormed()
      ensures cfg == c && Valid() && State() == InitChan(c)
    {
      cfg := c;
      banks := map l | l in Locs(c) :: FRESH_BANK;
      refreshQ := [];
      asleep := {};
      fourAw := seq(c.ranks, _ => []);
      thirtyTwoAw := seq(c.ranks, _ => []);
    }

    /** True exactly when no bank of the rank has an open row. */
    method IsAllBankIdleInRank(rank: int) returns (idle: bool)
      requires Valid() && 0 <= rank < cfg.ranks
      ensures idle <==> forall l :: l in banks && l.rank == rank ==> !banks[l].phase.Open?
    {
      for j := 0 to cfg.bankgroups
        invariant forall l :: l in banks && l.rank == rank && Scanned(l, j, 0) ==> !banks[l].phase.Open?
      {
        for k := 0 to cfg.banksPerGroup
          invariant forall l :: l in banks && l.rank == rank && Scanned(l, j, k) ==> !banks[l].phase.Open?
        {
          if banks[Loc(rank, j, k)].phase.Open? { return false; }
        }
      }
      return true;
    }

    // ---- Refresh requests ----

    /** A refresh request for a rank goes to the back of the list, or the first one for that rank leaves it. */
    method RankNeedRefresh(rank: int, need: bool)
      modifies this`refreshQ
      ensures need ==> refreshQ == old(refreshQ) + [Command(Refresh, rank, -1, -1, -1, -1, -1)]
      ensures !need ==> refreshQ == DropRank(old(refreshQ), rank)
    {
      if need {
        refreshQ := refreshQ + [Command(Refresh, rank, -1, -1, -1, -1, -1)];
      } else {
        ghost var q := refreshQ;
        for i := 0 to |refreshQ|
          invariant refreshQ == q
          invariant DropRank(q, rank) == q[..i] + DropRank(q[i..], rank)
        {
          if refreshQ[i].rank == rank {
            refreshQ := refreshQ[..i] + refreshQ[i + 1..];
            return;
          }
          assert q[i..] == [q[i]] + q[i + 1..];
        }
      }
    }

    method BankNeedRefresh(l: Loc, need: bool)
      modifies this`refreshQ
      ensures need ==> refreshQ == old(refreshQ) + [Command(RefreshBank, l.rank, l.bankgroup, l.bank, -1, -1, -1)]
      ensures !need ==> refreshQ == DropBank(old(refreshQ), l)
    {
      if need {
        refreshQ := refreshQ + [Command(RefreshBank, l.rank, l.bankgroup, l.bank, -1, -1, -1)];
      } else {
        ghost var q := refreshQ;
        for i := 0 to |refreshQ|
          invariant refreshQ == q
          invariant DropBank(q, l) == q[..i] + DropBank(q[i..], l)
        {
          if refreshQ[i].At() == l {
            refreshQ := refreshQ[..i] + refreshQ[i + 1..];
            return;
          }
          assert q[i..] == [q[i]] + q[i + 1..];
        }
      }
    }

    // ---- Asking ----

    method GetReadyCommand(q: Command, clk: nat) returns (r: Reply)
      requires Valid() && Addressed(cfg, q)
      ensures r == ChanReply(cfg, State(), q, clk)
    {
      if q.IsRankCmd() {
        var ready := 0;
        for j := 0 to cfg.bankgroups
          invariant ScanRank(cfg, State(), q, clk, 0, 0, 0) == ScanRank(cfg, State(), q, clk, j, 0, ready)
        {
          for k := 0 to cfg.banksPerGroup
            invariant ScanRank(cfg, State(), q, clk, 0, 0, 0) ==
                      if k < cfg.banksPerGroup then ScanRank(cfg, State(), q, clk, j, k, ready)
                      else ScanRank(cfg, State(), q, clk, j + 1, 0, ready)
          {
            r := BankReply(banks[Loc(q.rank, j, k)], q, clk);
            match r
            case Abort => return;
            case NotReady =>
            case Go(x) =>
              if x.kind != q.kind {
                return Go(x.(rank := q.rank, bankgroup := j, bank := k, row := -1, column := -1));
              }
              ready := ready + 1;
          }
        }
        r := if ready == cfg.Banks() then Go(q) else NotReady;
      } else {
        r := BankReply(banks[q.At()], q, clk);
        if r.Go? && r.cmd.kind.Activate? && !ActivationWindowOk(cfg, Chan(banks, refreshQ, asleep, fourAw, thirtyTwoAw), r.cmd.rank, clk) {
          r := NotReady;
        }
      }
    }

    // ---- Spreading delays ----

    method RaiseBank(l: Loc, ds: seq<Delay>, clk: nat)
      requires l in banks
      modifies this`banks
      ensures banks == old(banks)[l := old(banks)[l].(earliest := RaiseAll(old(banks)[l].earliest, ds, clk))]
    {
      ghost var was := banks;
      for i := 0 to |ds|
        invariant banks == was[l := was[l].(earliest := RaiseAll(was[l].earliest, ds[..i], clk))]
      {
        assert ds[..i + 1][..i] == ds[..i];
        banks := banks[l := banks[l].(earliest := Raise(banks[l].earliest, ds[i].next, Later(clk, ds[i].gap)))];
      }
      assert ds[..|ds|] == ds;
    }

    method UpdateOtherBanksSameBankgroupTiming(a: Loc, ds: seq<Delay>, clk: nat)
      requires Valid() && cfg.Holds(a)
      modifies this`banks
      ensures Raised(old(banks), banks, ds, clk,
        (l: Loc) => l.rank == a.rank && l.bankgroup == a.bankgroup && l.bank != a.bank)
    {
      hide RaiseAll;
      ghost var was := banks;
      for k := 0 to cfg.banksPerGroup
        invariant Raised(was, banks, ds, clk,
          (l: Loc) => l.rank == a.rank && l.bankgroup == a.bankgroup && l.bank != a.bank && l.bank < k)
      {
        if k != a.bank { RaiseBank(Loc(a.rank, a.bankgroup, k), ds, clk); }
      }
    }

    /** The innermost loop of the spreads that cover whole bankgroups. */
    method RaiseGroup(rank: int, g: int, ds: seq<Delay>, clk: nat)
      requires Valid() && 0 <= rank < cfg.ranks && 0 <= g < cfg.bankgroups
      modifies this`banks
      ensures Raised(old(banks), banks, ds, clk, (l: Loc) => l.rank == rank && l.bankgroup == g)
    {
      hide RaiseAll;
      ghost var was := banks;
      for k := 0 to cfg.banksPerGroup
        invariant Raised(was, banks, ds, clk, (l: Loc) => l.rank == rank && l.bankgroup == g && l.bank < k)
      {
        RaiseBank(Loc(rank, g, k), ds, clk);
      }
    }

    method UpdateOtherBankgroupsSameRankTiming(a: Loc, ds: seq<Delay>, clk: nat)
      requires Valid() && cfg.Holds(a)
      modifies this`banks
      ensures Raised(old(banks), banks, ds, clk, (l: Loc) => l.rank == a.rank && l.bankgroup != a.bankgroup)
    {
      hide RaiseAll;
      ghost var was := banks;
      for j := 0 to cfg.bankgroups
        invariant Raised(was, banks, ds, clk,
          (l: Loc) => l.rank == a.rank && l.bankgroup != a.bankgroup && l.bankgroup < j)
      {
        if j != a.bankgroup { RaiseGroup(a.rank, j, ds, clk); }
      }
    }

    /** Raises every bank of one rank; used for rank-level commands and, rank by rank, for the other ranks. */
    method UpdateSameRankTiming(rank: int, ds: seq<Delay>, clk: nat)
      requires Valid() && 0 <= rank < cfg.ranks
      modifies this`banks
      ensures Raised(old(banks), banks, ds, clk, (l: Loc) => l.rank == rank)
    {
      hide RaiseAll;
      ghost var was := banks;
      for j := 0 to cfg.bankgroups
        invariant Raised(was, banks, ds, clk, (l: Loc) => l.rank == rank && l.bankgroup < j)
      {
        RaiseGroup(rank, j, ds, clk);
      }
    }

    method UpdateOtherRanksTiming(rank: int, ds: seq<Delay>, clk: nat)
      requires Valid()
      modifies this`banks
      ensures Raised(old(banks), banks, ds, clk, (l: Loc) => l.rank != rank)
    {
      hide RaiseAll;
      ghost var was := banks;
      for i := 0 to cfg.ranks
        invariant Raised(was, banks, ds, clk, (l: Loc) => l.rank != rank && l.rank < i)
      {
        if i != rank { UpdateSameRankTiming(i, ds, clk); }
      }
    }

    method UpdateActivationTimes(rank: int, clk: nat)
      requires Valid() && 0 <= rank < cfg.ranks
      modifies this`fourAw, this`thirtyTwoAw
      ensures fourAw == old(fourAw)[rank := WindowAdd(old(fourAw)[rank], clk, Later(clk, cfg.tFAW))]
      ensures thirtyTwoAw == if cfg.IsGDDR()
        then old(thirtyTwoAw)[rank := WindowAdd(old(thirtyTwoAw)[rank], clk, Later(clk, cfg.t32AW))]
        else old(thirtyTwoAw)
    {
      if |fourAw[rank]| > 0 && clk >= fourAw[rank][0] {
        fourAw := fourAw[rank := fourAw[rank][1..]];
      }
      fourAw := fourAw[rank := fourAw[rank] + [Later(clk, cfg.tFAW)]];
      if cfg.IsGDDR() {
        if |thirtyTwoAw[rank]| > 0 && clk >= thirtyTwoAw[rank][0] {
          thirtyTwoAw := thirtyTwoAw[rank := thirtyTwoAw[rank][1..]];
        }
        thirtyTwoAw := thirtyTwoAw[rank := thirtyTwoAw[rank] + [Later(clk, cfg.t32AW)]];
      }
    }

    /** The spread loops together give every bank exactly the delays the command imposes on it. */
    method DoUpdateTiming(cmd: Command, clk: nat)
      requires Valid() && Addressed(cfg, cmd)
      modifies this`banks, this`fourAw, this`thirtyTwoAw
      ensures State() == UpdateTiming(cfg, old(State()), cmd, clk)
    {
      if cmd.kind.Activate? { UpdateActivationTimes(cmd.rank, clk); }
      if cmd.IsRankCmd() {
        UpdateSameRankTiming(cmd.rank, DelayList(cfg, SameRank, cmd.kind), clk);
      } else {
        SpreadAround(cmd.At(), cmd.kind, clk);
      }
      assert banks == UpdateTiming(cfg, old(State()), cmd, clk).banks;
    }

    /** Same bank, other banks of the group, other groups of the rank, other ranks: each bank meets one list. */
    method SpreadAround(a: Loc, k: Kind, clk: nat)
      requires Valid() && cfg.Holds(a)
      modifies this`banks
      ensures banks.Keys == old(banks).Keys
      ensures forall l :: l in banks ==>
        banks[l] == old(banks)[l].(earliest := RaiseAll(old(banks)[l].earliest, DelayList(cfg, ScopeOf(a, l), k), clk))
    {
      hide RaiseAll, DelayList;
      RaiseBank(a, DelayList(cfg, SameBank, k), clk);
      UpdateOtherBanksSameBankgroupTiming(a, DelayList(cfg, OtherBanksSameGroup, k), clk);
      UpdateOtherBankgroupsSameRankTiming(a, DelayList(cfg, OtherGroupsSameRank, k), clk);
      UpdateOtherRanksTiming(a.rank, DelayList(cfg, OtherRanks, k), clk);
    }

    // ---- Changing states ----

    /** Steps every bank of a rank; stops at the first bank where the program exits. */
    method StepRank(cmd: Command) returns (ok: bool)
      requires Valid() && 0 <= cmd.rank < cfg.ranks
      modifies this`banks
      ensures ok ==> Stepped(old(banks), banks, cmd, (l: Loc) => l.rank == cmd.rank)
      ensures !ok ==> exists l :: l in old(banks) && l.rank == cmd.rank && BankNext(old(banks)[l], cmd.kind, cmd.row).None?
    {
      ghost var was := banks;
      for j := 0 to cfg.bankgroups
        invariant Stepped(was, banks, cmd, (l: Loc) => l.rank == cmd.rank && l.bankgroup < j)
      {
        for k := 0 to cfg.banksPerGroup
          invariant Stepped(was, banks, cmd, (l: Loc) => l.rank == cmd.rank && Scanned(l, j, k))
        {
          var here := Loc(cmd.rank, j, k);
          var b := BankNext(banks[here], cmd.kind, cmd.row);
          if b.None? {
            assert banks[here] == was[here];
            return false;
          }
          banks := banks[here := b.value];
        }
      }
      return true;
    }

    /** Bank states after a command; `ok` is false where the program exits. */
    method DoUpdateState(cmd: Command) returns (ok: bool)
      requires Valid() && Addressed(cfg, cmd)
      modifies this`banks, this`refreshQ, this`asleep
      ensures ok <==> UpdateState(cfg, old(State()), cmd).Some?
      ensures ok ==> State() == UpdateState(cfg, old(State()), cmd).value
    {
      ghost var was := banks;
      if cmd.IsRankCmd() {
        ok := StepRank(cmd);
        if !ok { return; }
        if cmd.kind.Refresh? { RankNeedRefresh(cmd.rank, false); }
        else if cmd.kind.SrefEnter? { asleep := asleep + {cmd.rank}; }
        else { asleep := asleep - {cmd.rank}; }
      } else {
        var b := BankNext(banks[cmd.At()], cmd.kind, cmd.row);
        if b.None? { return false; }
        banks := banks[cmd.At() := b.value];
        if cmd.kind.RefreshBank? { BankNeedRefresh(cmd.At(), false); }
      }
      assert Stepped(was, banks, cmd, (l: Loc) => cmd.Touches(l));
      assert banks == UpdateState(cfg, old(State()), cmd).value.banks;
      return true;
    }

    method UpdateTimingAndStates(cmd: Command, clk: nat) returns (ok: bool)
      requires Valid() && Addressed(cfg, cmd)
      modifies this
      ensures ok <==> Issue(cfg, old(State()), cmd, clk).Some?
      ensures ok ==> Valid() && State() == Issue(cfg, old(State()), cmd, clk).value
    {
      ok := DoUpdateState(cmd);
      if ok { DoUpdateTiming(cmd, clk); }
    }
  }

  ghost predicate Stepped(was: map<Loc, Bank>, now: map<Loc, Bank>, cmd: Command, chosen: Loc -> bool) {
    && now.Keys == was.Keys
    && forall l :: l in was ==>
         if chosen(l) then BankNext(was[l], cmd.kind, cmd.row) == Some(now[l]) else now[l] == was[l]
  }
}
