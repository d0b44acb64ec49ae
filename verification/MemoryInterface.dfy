/** The switch, the multi-stack interface and the readers as objects, kept against the moves of the network. */
module MemoryInterfaceImpl {
  import opened Commands
  import opened Counting
  import opened MemoryNet
  import opened MemoryRuns
  import opened MemoryPaths

  const SWITCH_BATCH_SIZE: nat := 128 / 64

  // ---- The switch -------------------------------------------------------------------------------------------------

  /** Packets of q for target t, labelled with the input they came from. */
  function Picked(q: seq<Pair>, from: nat, t: nat): (r: seq<Pair>) {
    if q == [] then []
    else
      var last := q[|q| - 1];
      Picked(q[..|q| - 1], from, t) + (if last.0 == t then [(from, last.1)] else [])
  }

  function BatchOf(q: seq<Pair>): (n: nat)
    ensures n == if |q| < 2 then |q| else 2
  {
    Min(SWITCH_BATCH_SIZE, |q|)
  }

  /** What one cycle brings to output t from the first i inputs: input by input, each in its own order. */
  function Arrivals(ins: seq<seq<Pair>>, t: nat, i: nat): (r: seq<Pair>)
    requires i <= |ins|
  {
    if i == 0 then [] else Arrivals(ins, t, i - 1) + Picked(ins[i - 1][..BatchOf(ins[i - 1])], i - 1, t)
  }

  /** Packets are conserved, seen by (target, address) and by (origin, address). */
  ghost predicate Conserved(ins: seq<seq<Pair>>, outs: seq<seq<Pair>>, ins2: seq<seq<Pair>>, outs2: seq<seq<Pair>>)
    requires |ins| == |outs| == |ins2| == |outs2|
  {
    forall t, a: nat :: 0 <= t < |outs| ==>
      && Sum(ins2, Both(t, a)) + Tally(outs2[t], Second(a)) == Sum(ins, Both(t, a)) + Tally(outs[t], Second(a))
      && Tally(ins2[t], Second(a)) + Sum(outs2, Both(t, a)) == Tally(ins[t], Second(a)) + Sum(outs, Both(t, a))
  }

  lemma NoneMoved(ins: seq<seq<Pair>>, outs: seq<seq<Pair>>)
    requires |ins| == |outs|
    ensures Conserved(ins, outs, ins, outs)
  {}

  lemma OneConserved(ins: seq<seq<Pair>>, outs: seq<seq<Pair>>, i: nat)
    requires |ins| == |outs| && i < |ins| && ins[i] != [] && ins[i][0].0 < |outs|
    ensures Conserved(ins, outs, Pop(ins, i), Push(outs, ins[i][0].0, (i, ins[i][0].1)))
  {
    var e := ins[i][0];
    forall t, a: nat | 0 <= t < |outs|
      ensures Sum(Pop(ins, i), Both(t, a)) + Tally(Push(outs, e.0, (i, e.1))[t], Second(a))
           == Sum(ins, Both(t, a)) + Tally(outs[t], Second(a))
      ensures Tally(Pop(ins, i)[t], Second(a)) + Sum(Push(outs, e.0, (i, e.1)), Both(t, a))
           == Tally(ins[t], Second(a)) + Sum(outs, Both(t, a))
    {
      SumPop(ins, i, Both(t, a));
      SumPush(outs, e.0, (i, e.1), Both(t, a));
      TallyPush(outs[e.0], (i, e.1), Second(a));
    }
  }

  lemma ConservedTrans(ins: seq<seq<Pair>>, outs: seq<seq<Pair>>, ins1: seq<seq<Pair>>, outs1: seq<seq<Pair>>,
                       ins2: seq<seq<Pair>>, outs2: seq<seq<Pair>>)
    requires |ins| == |outs| == |ins1| == |outs1| == |ins2| == |outs2|
    requires Conserved(ins, outs, ins1, outs1) && Conserved(ins1, outs1, ins2, outs2)
    ensures Conserved(ins, outs, ins2, outs2)
  {}

  /** Up to a batch from input i, each packet to the output it names. */
  method CarryFrom(ins0: seq<seq<Pair>>, outs0: seq<seq<Pair>>, i: nat) returns (ins: seq<seq<Pair>>, outs: seq<seq<Pair>>)
    requires Within(ins0, |outs0|) && Within(outs0, |outs0|) && i < |ins0|
    ensures Within(ins, |outs0|) && Within(outs, |outs0|)
    ensures ins == ins0[i := ins0[i][BatchOf(ins0[i])..]]
    ensures forall t :: 0 <= t < |outs0| ==> outs[t] == outs0[t] + Picked(ins0[i][..BatchOf(ins0[i])], i, t)
    ensures Conserved(ins0, outs0, ins, outs)
  {
    hide Sum, Tally, Conserved;
    ins, outs := ins0, outs0;
    NoneMoved(ins0, outs0);
    var j := 0;
    while j < SWITCH_BATCH_SIZE && ins[i] != []
      invariant 0 <= j <= BatchOf(ins0[i]) && Within(ins, |outs0|) && Within(outs, |outs0|)
      invariant ins == ins0[i := ins0[i][j..]]
      invariant forall t :: 0 <= t < |outs0| ==> outs[t] == outs0[t] + Picked(ins0[i][..j], i, t)
      invariant Conserved(ins0, outs0, ins, outs)
    {
      var now := ins[i][0];
      assert now == ins0[i][j] && ins0[i][..j + 1][..j] == ins0[i][..j];
      OneConserved(ins, outs, i);
      PopWithin(ins, |outs0|, i);
      PushWithin(outs, |outs0|, now.0, (i, now.1));
      ConservedTrans(ins0, outs0, ins, outs, Pop(ins, i), Push(outs, now.0, (i, now.1)));
      ins, outs := ins[i := ins[i][1..]], outs[now.0 := outs[now.0] + [(i, now.1)]];
      j := j + 1;
    }
  }

  /** One direction of the switch for one cycle: up to a batch from every input. */
  method Carry(ins0: seq<seq<Pair>>, outs0: seq<seq<Pair>>) returns (ins: seq<seq<Pair>>, outs: seq<seq<Pair>>)
    requires Within(ins0, |outs0|) && Within(outs0, |outs0|)
    ensures Within(ins, |outs0|) && Within(outs, |outs0|)
    ensures forall i :: 0 <= i < |ins0| ==> ins[i] == ins0[i][BatchOf(ins0[i])..]
    ensures forall t :: 0 <= t < |outs0| ==> outs[t] == outs0[t] + Arrivals(ins0, t, |ins0|)
    ensures Conserved(ins0, outs0, ins, outs)
  {
    hide Sum, Tally, Conserved, Picked;
    ins, outs := ins0, outs0;
    NoneMoved(ins0, outs0);
    var i := 0;
    while i < |ins|
      invariant 0 <= i <= |ins| && Within(ins, |outs0|) && Within(outs, |outs0|)
      invariant forall k :: 0 <= k < |ins| ==> ins[k] == if k < i then ins0[k][BatchOf(ins0[k])..] else ins0[k]
      invariant forall t :: 0 <= t < |outs0| ==> outs[t] == outs0[t] + Arrivals(ins0, t, i)
      invariant Conserved(ins0, outs0, ins, outs)
    {
      var ins1, outs1 := CarryFrom(ins, outs, i);
      ConservedTrans(ins0, outs0, ins, outs, ins1, outs1);
      ins, outs, i := ins1, outs1, i + 1;
    }
  }

  class MemorySwitch {
    var reqIn: seq<seq<Pair>>
    var reqOut: seq<seq<Pair>>
    var resIn: seq<seq<Pair>>
    var resOut: seq<seq<Pair>>

    ghost predicate Valid(n: nat)
      reads this
    {
      Within(reqIn, n) && Within(reqOut, n) && Within(resIn, n) && Within(resOut, n)
    }

    constructor (num: nat)
      ensures reqIn == reqOut == resIn == resOut == seq(num, _ => [])
    {
      reqIn, reqOut := seq(num, _ => []), seq(num, _ => []);
      resIn, resOut := seq(num, _ => []), seq(num, _ => []);
    }

    method ClockTick(ghost n: nat)
      requires Valid(n)
      modifies this
      ensures Valid(n)
      ensures Conserved(old(reqIn), old(reqOut), reqIn, reqOut) && Conserved(old(resIn), old(resOut), resIn, resOut)
      ensures forall i :: 0 <= i < n ==> reqIn[i] == old(reqIn)[i][BatchOf(old(reqIn)[i])..]
      ensures forall i :: 0 <= i < n ==> resIn[i] == old(resIn)[i][BatchOf(old(resIn)[i])..]
      ensures forall t :: 0 <= t < n ==> reqOut[t] == old(reqOut)[t] + Arrivals(old(reqIn), t, n)
      ensures forall t :: 0 <= t < n ==> resOut[t] == old(resOut)[t] + Arrivals(old(resIn), t, n)
    {
      var i, o := Carry(reqIn, reqOut);
      reqIn, reqOut := i, o;
      i, o := Carry(resIn, resOut);
      resIn, resOut := i, o;
    }

    method SendReq(core: nat, st: nat, addr: nat)
      requires core < |reqIn|
      modifies this`reqIn
      ensures reqIn == Push(old(reqIn), core, (st, addr))
    {
      reqIn := reqIn[core := reqIn[core] + [(st, addr)]];
    }

    method SendRes(st: nat, core: nat, addr: nat)
      requires st < |resIn|
      modifies this`resIn
      ensures resIn == Push(old(resIn), st, (core, addr))
    {
      resIn := resIn[st := resIn[st] + [(core, addr)]];
    }

    /** The next request for the stack; the all-ones word when there is none. */
    method GetReq(st: nat) returns (addr: nat)
      requires st < |reqOut|
      modifies this`reqOut
      ensures old(reqOut)[st] == [] ==> addr == SENTINEL && reqOut == old(reqOut)
      ensures old(reqOut)[st] != [] ==> addr == old(reqOut)[st][0].1 && reqOut == Pop(old(reqOut), st)
    {
      if reqOut[st] == [] { return SENTINEL; }
      addr := reqOut[st][0].1;
      reqOut := reqOut[st := reqOut[st][1..]];
    }

    method GetRes(core: nat) returns (res: (nat, nat))
      requires core < |resOut|
      modifies this`resOut
      ensures old(resOut)[core] == [] ==> res == (SENTINEL, SENTINEL) && resOut == old(resOut)
      ensures old(resOut)[core] != [] ==> res == old(resOut)[core][0] && resOut == Pop(old(resOut), core)
    {
      if resOut[core] == [] { return (SENTINEL, SENTINEL); }
      res := resOut[core][0];
      resOut := resOut[core := resOut[core][1..]];
    }
  }

  /** Carrying packets through the switch keeps the balance at every stack. */
  lemma CarryKeepsBooks(s: Net, r: Net)
    requires Books(s) && Shaped(r)
    requires r == s.(reqIn := r.reqIn, reqOut := r.reqOut, resIn := r.resIn, resOut := r.resOut)
    requires Conserved(s.reqIn, s.reqOut, r.reqIn, r.reqOut) && Conserved(s.resIn, s.resOut, r.resIn, r.resOut)
    ensures Books(r)
  {
    forall st, a: nat | 0 <= st < |s.idMap| ensures Balanced(r, st, a) {
      assert Balanced(s, st, a);
    }
  }

  // ---- The interface ----------------------------------------------------------------------------------------------

  ghost predicate SameDebts(s: Net, r: Net)
    requires Shaped(s) && Shaped(r)
  {
    |r.idMap| == |s.idMap| && r.coreOf == s.coreOf && forall id :: 0 <= id < |s.coreOf| ==> Owed(r, id) == Owed(s, id)
  }

  /** What one cycle of the switch does, packet by packet. */
  ghost predicate Switched(s: Net, r: Net)
    requires Shaped(s) && Shaped(r)
  {
    && r == s.(reqIn := r.reqIn, reqOut := r.reqOut, resIn := r.resIn, resOut := r.resOut) && |r.idMap| == |s.idMap|
    && forall i :: 0 <= i < |s.idMap| ==>
         && r.reqIn[i] == s.reqIn[i][BatchOf(s.reqIn[i])..] && r.resIn[i] == s.resIn[i][BatchOf(s.resIn[i])..]
         && r.reqOut[i] == s.reqOut[i] + Arrivals(s.reqIn, i, |s.idMap|)
         && r.resOut[i] == s.resOut[i] + Arrivals(s.resIn, i, |s.idMap|)
  }

  /** Every request at stack st's output joins its queue, oldest first. */
  ghost function TakeReqs(s: Net, st: nat): (r: Net)
    requires Shaped(s) && st < |s.idMap|
    ensures Shaped(r) && |r.idMap| == |s.idMap|
    decreases |s.reqOut[st]|
  {
    if s.reqOut[st] == [] then s else TakeReqs(TakeReq(s, st), st)
  }

  ghost function TakeAllReqs(s: Net, st: nat): (r: Net)
    requires Shaped(s) && st <= |s.idMap|
    ensures Shaped(r) && |r.idMap| == |s.idMap|
    decreases |s.idMap| - st
  {
    if st == |s.idMap| then s else TakeAllReqs(TakeReqs(s, st), st + 1)
  }

  lemma TakeResShape(s: Net, core: nat)
    requires Shaped(s) && core < |s.resOut| && s.resOut[core] != [] && TakeRes(s, core).Some?
    ensures var r := TakeRes(s, core).value; r.resOut == Pop(s.resOut, core) && |r.idMap| == |s.idMap|
  {}

  /** Every response at core's output is credited, oldest first, up to a lookup that misses. */
  ghost function TakeRess(s: Net, core: nat): (r: Net)
    requires Shaped(s) && core < |s.idMap|
    ensures Shaped(r) && |r.idMap| == |s.idMap|
    decreases |s.resOut[core]|
  {
    if s.resOut[core] == [] || TakeRes(s, core).None? then s
    else
      TakeResShape(s, core);
      TakeRess(TakeRes(s, core).value, core)
  }

  ghost function TakeAllRess(s: Net, core: nat): (r: Net)
    requires Shaped(s) && core <= |s.idMap|
    ensures Shaped(r) && |r.idMap| == |s.idMap|
    decreases |s.idMap| - core
  {
    if core == |s.idMap| then s else TakeAllRess(TakeRess(s, core), core + 1)
  }

  function Upto(lo: nat, n: nat): (r: seq<nat>)
    requires lo <= n
    ensures |r| == n - lo && forall k :: 0 <= k < |r| ==> r[k] == lo + k
    decreases n - lo
  {
    if lo == n then [] else [lo] + Upto(lo + 1, n)
  }

  lemma FromFirst(s: Net, done: seq<seq<nat>>, room: seq<nat>)
    requires Books(s) && |done| == |room| == |s.idMap|
    requires forall st :: 0 <= st < |s.idMap| ==> multiset(done[st]) <= s.dram[st]
    ensures Plausible(s, Upto(0, |s.idMap|), done, room)
  {}

  lemma FromNext(s: Net, i: nat, done: seq<seq<nat>>, room: seq<nat>)
    requires Books(s) && i < |s.idMap| && Plausible(s, Upto(i, |s.idMap|), done, room)
    ensures |done| == |room| == |s.idMap| && multiset(done[i]) <= s.dram[i]
    ensures var w := StackTick(s, i, done[i], room[i]);
      && Plausible(w, Upto(i + 1, |s.idMap|), done, room)
      && TickStacks(s, Upto(i, |s.idMap|), done, room) == TickStacks(w, Upto(i + 1, |s.idMap|), done, room)
  {
    hide Balanced, StackTick, SameAt;
    var order := Upto(i, |s.idMap|);
    assert order[0] == i && order[1..] == Upto(i + 1, |s.idMap|);
    var w := StackTick(s, i, done[i], room[i]);
    forall k | 0 <= k < |order| - 1 ensures multiset(done[order[1..][k]]) <= w.dram[order[1..][k]] {
      assert order[1..][k] == order[k + 1];
      Untouched(s, w, i, order[k + 1]);
    }
  }

  lemma Untouched(s: Net, w: Net, st: nat, k: nat)
    requires Shaped(s) && Shaped(w) && SameElsewhere(s, w, st) && k < |s.idMap| && k != st
    ensures w.dram[k] == s.dram[k]
  {
    assert SameAt(s, w, k);
  }

  lemma NoneLeft(s: Net, done: seq<seq<nat>>, room: seq<nat>)
    requires Books(s) && Plausible(s, [], done, room)
    ensures TickStacks(s, [], done, room) == s
  {}

  class MultiMemoryInterface {
    const useSwitch: bool
    const n: nat
    const memorySwitch: MemorySwitch
    var coreOf: seq<nat>
    var requested: seq<seq<nat>>
    var dram: seq<multiset<nat>>
    var ready: seq<seq<multiset<nat>>>
    var idMap: seq<seq<Pair>>

    ghost function State(): Net
      reads this, memorySwitch
    {
      Net(useSwitch, coreOf, memorySwitch.reqIn, memorySwitch.reqOut, memorySwitch.resIn, memorySwitch.resOut,
          requested, dram, ready, idMap)
    }

    ghost predicate Valid()
      reads this, memorySwitch
    {
      Books(State()) && |idMap| == n < SENTINEL
    }

    constructor (useSwitch: bool, num: nat)
      requires num < 0x8000_0000   // an int in the original
      ensures Valid() && n == num && State() == Empty(useSwitch, num).net && fresh(memorySwitch)
    {
      this.useSwitch, n := useSwitch, num;
      memorySwitch := new MemorySwitch(num);
      coreOf := [];
      requested, dram, ready, idMap := seq(num, _ => []), seq(num, _ => multiset{}), seq(num, _ => []), seq(num, _ => []);
      new;
      EmptyIsOk(useSwitch, num);
    }

    method RegisterId(core: nat) returns (id: nat)
      requires Valid() && core < n
      modifies this`coreOf, this`ready
      ensures Valid() && State() == Register(old(State()), core) && id == old(|coreOf|)
      ensures Owed(State(), id) == 0 && forall k :: 0 <= k < id ==> Owed(State(), k) == old(Owed(State(), k))
    {
      RegisterKeepsBooks(State(), core);
      id := |coreOf|;
      coreOf := coreOf + [core];
      var st := 0;
      ghost var before := ready;
      while st < n
        modifies this`ready
        invariant 0 <= st <= n && |ready| == n
        invariant forall k :: 0 <= k < n ==> ready[k] == if k < st then before[k] + [multiset{}] else before[k]
      {
        ready := ready[st := ready[st] + [multiset{}]];
        st := st + 1;
      }
      assert ready == Register(old(State()), core).ready;
    }

    method RequestRead(id: nat, x: nat)
      requires Valid() && id < |coreOf| && Route(x).0 < n
      modifies this`requested, this`idMap, memorySwitch`reqIn
      ensures Valid() && State() == Request(old(State()), id, Route(x).0, (RouteInRange(x); Route(x).1))
      ensures Owed(State(), id) == old(Owed(State(), id)) + 1
      ensures forall k :: 0 <= k < |coreOf| && k != id ==> Owed(State(), k) == old(Owed(State(), k))
      ensures Sent(old(State()), State(), id, Route(x).0, Route(x).1)
    {
      var (st, addr) := Route(x);
      RouteInRange(x);
      RequestSends(State(), id, st, addr);
      RequestKeepsBooks(State(), id, st, addr);
      if useSwitch {
        if coreOf[id] == st {
          requested := requested[st := Insert(requested[st], addr)];
        } else {
          memorySwitch.SendReq(coreOf[id], st, addr);
        }
      } else {
        requested := requested[st := Insert(requested[st], addr)];
      }
      idMap := idMap[st := idMap[st] + [(addr, id)]];
    }

    method GetAllReadyReadRequest(id: nat) returns (res: nat)
      requires Valid() && id < |coreOf|
      modifies this`ready
      ensures Valid() && State() == Collect(old(State()), id) && res == SumReady(old(ready), id)
      ensures Owed(State(), id) == old(Owed(State(), id)) - res
      ensures forall k :: 0 <= k < |coreOf| && k != id ==> Owed(State(), k) == old(Owed(State(), k))
    {
      CollectKeepsBooks(State(), id);
      res := 0;
      var st := 0;
      ghost var before := ready;
      while st < n
        invariant 0 <= st <= n && |ready| == n
        invariant forall k :: 0 <= k < n ==> ready[k] == if k < st then before[k][id := multiset{}] else before[k]
        invariant res + SumReady(before[st..], id) == SumReady(before, id)
      {
        assert before[st..][1..] == before[st + 1..];
        res := res + |ready[st][id]|;
        ready := ready[st := ready[st][id := multiset{}]];
        st := st + 1;
      }
      assert ready == Collect(old(State()), id).ready;
    }

    /** The reader of the entry that the lookup finds gets the answer, and the entry goes. */
    method CreditReader(st: nat, addr: nat)
      requires Shaped(State()) && |idMap| == n && st < n && Credit(State(), st, addr).Some?
      modifies this`ready, this`idMap
      ensures Some(State()) == Credit(old(State()), st, addr)
    {
      var k := Find(idMap[st], addr).value;
      var id := idMap[st][k].1;
      ready := ready[st := ready[st][id := ready[st][id] + multiset{addr}]];
      idMap := idMap[st := idMap[st][..k] + idMap[st][k + 1..]];
    }

    /** A stack answered; the lookup is there whenever the books balance. */
    method ReadCallback(st: nat, addr: nat)
      requires Shaped(State()) && |idMap| == n && st < n && Respond(State(), st, addr).Some?
      modifies this`ready, this`idMap, memorySwitch`resIn
      ensures Some(State()) == Respond(old(State()), st, addr)
      ensures exists k: nat :: Responded(old(State()), State(), st, addr, k)
    {
      RespondIs(State(), st, addr);
      var k := Find(idMap[st], addr).value;
      var id := idMap[st][k].1;
      if useSwitch && coreOf[id] != st {
        memorySwitch.SendRes(st, coreOf[id], addr);
      } else {
        CreditReader(st, addr);
      }
    }

    /** Requests that left the switch join their stacks' queues. */
    method DrainRequests()
      requires Valid()
      modifies this`requested, memorySwitch`reqOut
      ensures Valid() && SameDebts(old(State()), State())
      ensures forall st :: 0 <= st < n ==> memorySwitch.reqOut[st] == []
      ensures State() == TakeAllReqs(old(State()), 0)
    {
      hide Balanced, Owed, TakeReqs;
      var st := 0;
      while st < n
        invariant 0 <= st <= n && Valid() && SameDebts(old(State()), State())
        invariant TakeAllReqs(old(State()), 0) == TakeAllReqs(State(), st)
        invariant forall k :: 0 <= k < st ==> memorySwitch.reqOut[k] == []
      {
        DrainStack(st);
        st := st + 1;
      }
    }

    method DrainStack(st: nat)
      requires Valid() && st < n
      modifies this`requested, memorySwitch`reqOut
      ensures Valid() && SameDebts(old(State()), State())
      ensures memorySwitch.reqOut == old(memorySwitch.reqOut)[st := []]
      ensures State() == TakeReqs(old(State()), st)
    {
      hide Balanced, Owed;
      while true
        invariant Valid() && SameDebts(old(State()), State())
        invariant TakeReqs(old(State()), st) == TakeReqs(State(), st)
        invariant memorySwitch.reqOut == old(memorySwitch.reqOut)[st := memorySwitch.reqOut[st]]
        decreases |memorySwitch.reqOut[st]|
      {
        var more := DrainOne(st);
        if !more { break; }
      }
    }

    /** The oldest request at the stack's output, if any. */
    method DrainOne(st: nat) returns (more: bool)
      requires Valid() && st < n
      modifies this`requested, memorySwitch`reqOut
      ensures Valid() && SameDebts(old(State()), State()) && more == (old(memorySwitch.reqOut)[st] != [])
      ensures State() == if more then TakeReq(old(State()), st) else old(State())
    {
      hide Balanced, Owed;
      ghost var s := State();
      var addr := memorySwitch.GetReq(st);
      if addr == SENTINEL { return false; }
      requested := requested[st := Insert(requested[st], addr)];
      TakeReqKeepsBooks(s, st);
      SameOwed(s, TakeReq(s, st));
      more := true;
    }

    /** Responses that left the switch are credited to the reader the lookup names. */
    method DrainResponses()
      requires Valid()
      modifies this`ready, this`idMap, memorySwitch`resOut
      ensures Valid() && SameDebts(old(State()), State())
      ensures forall core :: 0 <= core < n ==> memorySwitch.resOut[core] == []
      ensures State() == TakeAllRess(old(State()), 0)
    {
      hide Balanced, Owed, TakeRess;
      var core := 0;
      while core < n
        invariant 0 <= core <= n && Valid() && SameDebts(old(State()), State())
        invariant TakeAllRess(old(State()), 0) == TakeAllRess(State(), core)
        invariant forall k :: 0 <= k < core ==> memorySwitch.resOut[k] == []
      {
        DrainCore(core);
        core := core + 1;
      }
    }

    method DrainCore(core: nat)
      requires Valid() && core < n
      modifies this`ready, this`idMap, memorySwitch`resOut
      ensures Valid() && SameDebts(old(State()), State())
      ensures memorySwitch.resOut == old(memorySwitch.resOut)[core := []]
      ensures State() == TakeRess(old(State()), core)
    {
      hide Balanced, Owed, Credit, Known;
      while true
        invariant Valid() && SameDebts(old(State()), State())
        invariant TakeRess(old(State()), core) == TakeRess(State(), core)
        invariant memorySwitch.resOut == old(memorySwitch.resOut)[core := memorySwitch.resOut[core]]
        decreases |memorySwitch.resOut[core]|
      {
        var more := CreditOne(core);
        if !more { break; }
      }
    }

    /** The oldest response at the core's output, if any. */
    method CreditOne(core: nat) returns (more: bool)
      requires Valid() && core < n
      modifies this`ready, this`idMap, memorySwitch`resOut
      ensures Valid() && SameDebts(old(State()), State()) && more == (old(memorySwitch.resOut)[core] != [])
      ensures more ==> Some(State()) == TakeRes(old(State()), core) && memorySwitch.resOut == Pop(old(memorySwitch.resOut), core)
      ensures !more ==> State() == old(State())
    {
      hide Balanced, Owed, Credit, Known;
      ghost var s := State();
      var res := memorySwitch.GetRes(core);
      if res.0 == SENTINEL { return false; }
      TakeResNeverMisses(s, core);
      PopWithin(s.resOut, n, core);
      CreditReader(res.0, res.1);
      more := true;
    }

    /** Stack st's memory answers `done`, then accepts waiting reads, smallest first, while it has room. */
    method TickMemory(st: nat, done: seq<nat>, room: nat)
      requires Valid() && st < n && multiset(done) <= dram[st]
      modifies this`requested, this`dram, this`ready, this`idMap, memorySwitch`resIn
      ensures Valid() && SameDebts(old(State()), State())
      ensures State() == StackTick(old(State()), st, done, room)
      ensures Served(old(State()), State(), st, done, room)
    {
      hide Balanced, Owed, SameAt, Within, Known, Accept, Answers, Served;
      StackTickServes(State(), st, done, room);
      TickAnswers(st, done);
      ghost var s := State();
      var left := room;
      while requested[st] != [] && left > 0
        modifies this`requested, this`dram
        invariant Valid() && SameDebts(old(State()), State())
        invariant Accepts(s, st, room) == Accepts(State(), st, left)
        decreases left
      {
        AcceptOne(st);
        left := left - 1;
      }
    }

    method AcceptOne(st: nat)
      requires Valid() && st < n && requested[st] != []
      modifies this`requested, this`dram
      ensures Valid() && SameDebts(old(State()), State()) && State() == Accept(old(State()), st)
    {
      AcceptKeepsBooks(State(), st);
      SameOwed(State(), Accept(State(), st));
      var addr := requested[st][0];
      dram := dram[st := dram[st] + multiset{addr}];
      requested := requested[st := requested[st][1..]];
    }

    method TickAnswers(st: nat, done: seq<nat>)
      requires Valid() && st < n && multiset(done) <= dram[st]
      modifies this`dram, this`ready, this`idMap, memorySwitch`resIn
      ensures Valid() && SameDebts(old(State()), State())
      ensures State() == Answers(old(State()), st, done)
    {
      hide Balanced, Owed, SameAt, Within, Known, Complete, Respond;
      var i := 0;
      while i < |done|
        invariant 0 <= i <= |done| && Valid() && SameDebts(old(State()), State())
        invariant multiset(done[i..]) <= dram[st]
        invariant Answers(old(State()), st, done) == Answers(State(), st, done[i..])
      {
        assert done[i..] == [done[i]] + done[i + 1..];
        AnswerOne(st, done[i]);
        i := i + 1;
      }
    }

    method AnswerOne(st: nat, a: nat)
      requires Valid() && st < n && a in dram[st]
      modifies this`dram, this`ready, this`idMap, memorySwitch`resIn
      ensures Valid() && SameDebts(old(State()), State())
      ensures Some(State()) == Complete(old(State()), st, a) && dram == old(dram)[st := old(dram)[st] - multiset{a}]
    {
      hide Balanced, Owed;
      CompleteNeverMisses(State(), st, a);
      dram := dram[st := dram[st] - multiset{a}];
      ReadCallback(st, a);
    }

    /** The stacks one after another; any other order gives the same state (StackOrderIrrelevant). */
    method TickMemories(done: seq<seq<nat>>, room: seq<nat>)
      requires Valid() && |done| == |room| == n && forall st :: 0 <= st < n ==> multiset(done[st]) <= dram[st]
      modifies this`requested, this`dram, this`ready, this`idMap, memorySwitch`resIn
      ensures Valid() && SameDebts(old(State()), State())
      ensures Plausible(old(State()), Upto(0, n), done, room)
      ensures State() == TickStacks(old(State()), Upto(0, n), done, room)
    {
      hide Balanced, Owed, Plausible, TickStacks, StackTick;
      var i := 0;
      FromFirst(State(), done, room);
      while i < n
        invariant 0 <= i <= n && Valid() && SameDebts(old(State()), State())
        invariant Plausible(old(State()), Upto(0, n), done, room) && Plausible(State(), Upto(i, n), done, room)
        invariant TickStacks(old(State()), Upto(0, n), done, room) == TickStacks(State(), Upto(i, n), done, room)
      {
        FromNext(State(), i, done, room);
        TickMemory(i, done[i], room[i]);
        i := i + 1;
      }
      NoneLeft(State(), done, room);
    }

    /** The switch moves, then its outputs are emptied: requests into the stacks' queues, responses to readers. */
    method TickSwitch() returns (ghost mid: Net)
      requires Valid()
      modifies this`requested, this`ready, this`idMap, memorySwitch
      ensures Valid() && SameDebts(old(State()), State()) && dram == old(dram)
      ensures Shaped(mid) && Switched(old(State()), mid) && State() == TakeAllRess(TakeAllReqs(mid, 0), 0)
      ensures forall k :: 0 <= k < n ==> memorySwitch.reqOut[k] == [] && memorySwitch.resOut[k] == []
    {
      hide Balanced, Owed, Picked, Arrivals, Conserved, TakeAllReqs, TakeAllRess;
      ghost var s := State();
      memorySwitch.ClockTick(n);
      CarryKeepsBooks(s, State());
      SameOwed(s, State());
      mid := State();
      DrainRequests();
      DrainResponses();
    }

    /** One cycle: the switch moves and drains, then every memory answers and accepts. */
    method ClockTick(done: seq<seq<nat>>, room: seq<nat>) returns (ghost mid: Net, ghost drained: Net)
      requires Valid() && |done| == |room| == n && forall st :: 0 <= st < n ==> multiset(done[st]) <= dram[st]
      modifies this`requested, this`dram, this`ready, this`idMap, memorySwitch
      ensures Valid() && SameDebts(old(State()), State())
      ensures if useSwitch then Shaped(mid) && Switched(old(State()), mid) && drained == TakeAllRess(TakeAllReqs(mid, 0), 0)
        else drained == old(State())
      ensures Books(drained) && Plausible(drained, Upto(0, n), done, room) && State() == TickStacks(drained, Upto(0, n), done, room)
    {
      hide Balanced, Owed, Plausible, TickStacks, Picked, Arrivals, Conserved, TakeAllReqs, TakeAllRess, Switched;
      mid := State();
      if useSwitch { mid := TickSwitch(); }
      drained := State();
      TickMemories(done, room);
    }
  }

  // ---- Readers ----------------------------------------------------------------------------------------------------

  /** A reader's requests for the addresses, one after another. */
  ghost function Requests(s: Net, id: nat, xs: seq<nat>): (r: Net)
    requires Shaped(s) && id < |s.coreOf| && forall x :: x in xs ==> Route(x).0 < |s.idMap|
    ensures Shaped(r) && |r.idMap| == |s.idMap| && r.coreOf == s.coreOf
    decreases |xs|
  {
    if xs == [] then s
    else
      var p, x := Requests(s, id, xs[..|xs| - 1]), xs[|xs| - 1];
      RouteInRange(x);
      Request(p, id, Route(x).0, Route(x).1)
  }

  lemma RequestsNone(s: Net, id: nat, xs: seq<nat>)
    requires Shaped(s) && id < |s.coreOf|
    ensures Requests(s, id, xs[..0]) == s
  {}

  lemma RequestsNext(s: Net, id: nat, xs: seq<nat>, k: nat)
    requires Shaped(s) && id < |s.coreOf| && k < |xs| && forall x :: x in xs ==> Route(x).0 < |s.idMap|
    ensures Route(xs[k]).1 < SENTINEL
    ensures Requests(s, id, xs[..k + 1]) == Request(Requests(s, id, xs[..k]), id, Route(xs[k]).0, Route(xs[k]).1)
  {
    hide Request, Shaped;
    assert xs[..k + 1][..k] == xs[..k] && xs[..k + 1][k] == xs[k];
    RouteInRange(xs[k]);
  }

  class MemoryReader {
    const memory: MultiMemoryInterface
    const id: nat
    var queue: seq<nat>
    var processing: int
    var finished: bool

    /** The count is what waits here plus what the interface still owes. */
    ghost predicate Valid()
      reads this, memory, memory.memorySwitch
    {
      memory.Valid() && id < |memory.coreOf| && processing == |queue| + Owed(memory.State(), id)
    }

    constructor (memory: MultiMemoryInterface, core: nat)
      requires memory.Valid() && core < memory.n
      modifies memory`coreOf, memory`ready
      ensures this.memory == memory && Valid() && queue == [] && processing == 0 && finished && id == old(|memory.coreOf|)
      ensures forall k :: 0 <= k < id ==> Owed(memory.State(), k) == old(Owed(memory.State(), k))
    {
      this.memory := memory;
      var next := memory.RegisterId(core);
      id := next;
      queue, processing, finished := [], 0, true;
    }

    method SubmitReadRequest(addr: nat, len: nat)
      requires Valid()
      modifies this
      ensures Valid() && queue == old(queue) + Batch(addr, len) && !finished && |queue| == |old(queue)| + (len + 63) / 64
      ensures forall i :: 0 <= i < (len + 63) / 64 ==> queue[|old(queue)| + i] == (addr + 64 * i) % 0x1_0000_0000_0000_0000
    {
      var i := 0;
      ghost var k := 0;
      while i < len
        invariant k <= |Batch(addr, len)| && i == k * STRIDE
        invariant queue == old(queue) + Batch(addr, len)[..k] && processing == old(processing) + k
      {
        queue := queue + [(addr + i) % WORD];
        processing := processing + 1;
        i := i + STRIDE;
        k := k + 1;
      }
      finished := false;
    }

    method SendOne()
      requires Valid() && queue != [] && Route(queue[0]).0 < memory.n
      modifies this`queue, memory`requested, memory`idMap, memory.memorySwitch`reqIn
      ensures Valid() && queue == old(queue)[1..]
      ensures var x := old(queue)[0]; memory.State() == Request(old(memory.State()), id, Route(x).0, (RouteInRange(x); Route(x).1))
      ensures forall k :: 0 <= k < |memory.coreOf| && k != id ==> Owed(memory.State(), k) == old(Owed(memory.State(), k))
    {
      hide Balanced, Owed;
      memory.RequestRead(id, queue[0]);
      queue := queue[1..];
    }

    /** The sending half of a cycle: up to 17 requests, oldest first. */
    method SendSome()
      requires Valid() && forall x :: x in queue ==> Route(x).0 < memory.n
      modifies this`queue, memory`requested, memory`idMap, memory.memorySwitch`reqIn
      ensures Valid() && queue == old(queue)[Min(17, |old(queue)|)..]
      ensures memory.State() == Requests(old(memory.State()), id, old(queue)[..Min(17, |old(queue)|)])
      ensures forall k :: 0 <= k < |memory.coreOf| && k != id ==> Owed(memory.State(), k) == old(Owed(memory.State(), k))
    {
      hide Balanced, Owed, Within, Known, Route, Request, Requests;
      var cnt := 0;
      RequestsNone(memory.State(), id, queue);
      while queue != []
        modifies this`queue, memory`requested, memory`idMap, memory.memorySwitch`reqIn
        invariant Valid() && cnt <= Min(16, |old(queue)|) && queue == old(queue)[cnt..]
        invariant memory.State() == Requests(old(memory.State()), id, old(queue)[..cnt])
        invariant forall k :: 0 <= k < |memory.coreOf| && k != id ==> Owed(memory.State(), k) == old(Owed(memory.State(), k))
      {
        RequestsNext(old(memory.State()), id, old(queue), cnt);
        SendOne();
        cnt := cnt + 1;
        if cnt > 16 { break; }
      }
    }

    /** Sends up to 17 requests, then collects whatever is ready; other readers' accounts do not move. */
    method ClockTick()
      requires Valid() && forall x :: x in queue ==> Route(x).0 < memory.n
      modifies this`queue, this`processing, memory`requested, memory`idMap, memory`ready, memory.memorySwitch`reqIn
      ensures Valid() && queue == old(queue)[Min(17, |old(queue)|)..]
      ensures memory.State() == Collect(Requests(old(memory.State()), id, old(queue)[..Min(17, |old(queue)|)]), id)
      ensures processing == old(processing) - SumReady(old(memory.ready), id) >= 0
      ensures forall k :: 0 <= k < |memory.coreOf| && k != id ==> Owed(memory.State(), k) == old(Owed(memory.State(), k))
    {
      hide Balanced, Owed, Within, Known, Route, Collect, SumReady, Requests;
      SendSome();
      var res := memory.GetAllReadyReadRequest(id);
      processing := processing - res;
    }

    method IsReady() returns (b: bool)
      requires Valid()
      ensures b <==> queue == [] && NothingOwed(memory.State(), id)
    {
      OwedZeroIff(memory.State(), id);
      b := processing == 0;
    }

    method FinishAndReset() returns (b: bool)
      requires Valid()
      modifies this`finished
      ensures Valid() && (b <==> !old(finished) && queue == [] && NothingOwed(memory.State(), id))
      ensures finished == (b || old(finished))
    {
      OwedZeroIff(memory.State(), id);
      b := processing == 0 && !finished;
      if b { finished := true; }
    }
  }
}
