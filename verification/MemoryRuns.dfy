/** Every run of readers over the memory network, and the order of the per-stack loop. */
module MemoryRuns {
  import opened Commands
  import opened Counting
  import opened MemoryNet
  import Address

  const WORD: nat := 0x1_0000_0000_0000_0000
  const STRIDE: nat := 64

  /** A reader's addresses not yet sent, its count of unfinished reads, and whether its last batch was reported. */
  datatype Reader = Reader(queue: seq<nat>, processing: int, finished: bool)

  /** Readers are numbered as they register. */
  datatype System = System(net: Net, readers: seq<Reader>)

  datatype Move =
    | Enroll(core: nat)
    | Submit(id: nat, addr: nat, len: nat) | Send(id: nat) | Gather(id: nat) | Finish(id: nat)
    | MoveReq(core: nat) | MoveRes(st: nat) | LeaveReq(st: nat) | LeaveRes(core: nat)
    | Admit(st: nat) | Answer(st: nat, a: nat)

  /** Refused: nothing to move here. Missed: a lookup table had no entry for a response. Outside: no such stack. */
  datatype Outcome = Done(y: System) | Refused | Missed | Outside

  /** The addresses of one batch: one per stride, in 64-bit arithmetic. */
  function Batch(addr: nat, len: nat): (s: seq<nat>)
    ensures |s| == (len + STRIDE - 1) / STRIDE
  {
    seq((len + STRIDE - 1) / STRIDE, i requires 0 <= i => (addr + i * STRIDE) % WORD)
  }

  /** Stack and inner address of a 64-bit address. */
  function Route(x: nat): (r: (nat, nat))
  {
    Address.StackMap(MAPPER_OFFSET, MAPPER_OFFSET + 3, x % WORD)
  }

  /** The three stack bits leave an inner address of at most 61 bits, which is never the "empty" mark of the switch. */
  lemma RouteInRange(x: nat)
    ensures Route(x).0 < 8 && Route(x).1 < SENTINEL
  {
    var w := x % WORD;
    assert Address.Pow2(64) == WORD by { Powers(); }
    Address.ShrBound(w, 61, 3);
    Address.ShrBound(Address.Shr(w, 3), 45, 16);
    JoinBound(Address.Shr(Address.Shr(w, 3), 16), 16, Address.Low(w, 16), 45);
    Powers();
  }

  lemma Powers()
    ensures Address.Pow2(3) == 8 && Address.Pow2(61) == 0x2000_0000_0000_0000 && Address.Pow2(64) == WORD
  {
    assert Address.Pow2(10) == 0x400;
    assert Address.Pow2(20) == 0x10_0000;
    assert Address.Pow2(30) == 0x4000_0000;
    assert Address.Pow2(40) == 0x100_0000_0000;
    assert Address.Pow2(50) == 0x4_0000_0000_0000;
    assert Address.Pow2(60) == 0x1000_0000_0000_0000;
  }

  /** The routing by arithmetic: the eight stacks take turns every 64 kilobytes. */
  lemma RouteIs(x: nat)
    ensures var w := x % WORD; Route(x) == (w / 0x1_0000 % 8, w / 0x8_0000 * 0x1_0000 + w % 0x1_0000)
  {
    hide Address.StackMap;
    Address.StackMapIs(MAPPER_OFFSET, MAPPER_OFFSET + 3, x % WORD);
    assert Address.Pow2(3) == 8 && Address.Pow2(10) == 0x400 && Address.Pow2(16) == 0x1_0000 && Address.Pow2(19) == 0x8_0000;
  }

  lemma {:induction false} JoinBound(hi: nat, n: nat, lo: nat, k: nat)
    requires hi < Address.Pow2(k)
    ensures Address.Join(hi, n, lo) < Address.Pow2(n + k)
  {
    if n > 0 { JoinBound(hi, n - 1, lo / 2, k); }
  }

  /** Every address has its stack exactly when there are at least eight. */
  lemma EveryAddressRoutes(n: nat)
    ensures (forall x: nat :: Route(x).0 < n) <==> n >= 8
  {
    hide Route;
    forall x: nat ensures Route(x).0 < 8 { RouteInRange(x); }
    if n < 8 { var x := StackSeven(); }
  }

  /** An address of the last of the eight stacks. */
  lemma StackSeven() returns (x: nat)
    ensures x < WORD && Route(x).0 == 7
  {
    hide Address.StackUnmap, Address.StackMap, Address.Pow2;
    x := Address.StackUnmap(MAPPER_OFFSET, MAPPER_OFFSET + 3, 7, 0);
    Powers();
    Address.StackOnto(MAPPER_OFFSET, MAPPER_OFFSET + 3, 7, 0);
    SevenIsSmall();
    assert x % WORD == x;
  }

  lemma SevenIsSmall()
    ensures Address.StackUnmap(16, 19, 7, 0) < WORD
  {
    hide Address.Join, Address.Pow2, Address.Shr;
    Powers();
    NothingToShift(0, 16);
    JoinBound(0, 3, 7, 1);
    JoinBound(Address.Join(0, 3, 7), 16, Address.Low(0, 16), 4);
    PowersGrow(20, 64);
  }

  lemma {:induction false} NothingToShift(x: nat, n: nat)
    requires x == 0
    ensures Address.Shr(x, n) == 0
  {
    if n > 0 { NothingToShift(x / 2, n - 1); }
  }

  lemma {:induction false} PowersGrow(a: nat, b: nat)
    requires a <= b
    ensures Address.Pow2(a) <= Address.Pow2(b)
  {
    if a < b { PowersGrow(a, b - 1); }
  }

  ghost predicate Sized(y: System) { Shaped(y.net) && |y.readers| == |y.net.coreOf| }

  function Act(y: System, m: Move): (r: Outcome)
    requires Sized(y)
    ensures r.Done? ==> Sized(r.y)
  {
    var s, rs := y.net, y.readers;
    match m
    case Enroll(core) =>
      if core < |s.idMap| then Done(System(Register(s, core), rs + [Reader([], 0, true)])) else Refused
    case Submit(id, addr, len) =>
      if id < |rs| then
        var b := Batch(addr, len);
        Done(y.(readers := rs[id := Reader(rs[id].queue + b, rs[id].processing + |b|, false)]))
      else Refused
    case Send(id) =>
      if id < |rs| && rs[id].queue != [] then
        var (st, a) := Route(rs[id].queue[0]);
        RouteInRange(rs[id].queue[0]);
        if st >= |s.idMap| then Outside
        else Done(System(Request(s, id, st, a), rs[id := rs[id].(queue := rs[id].queue[1..])]))
      else Refused
    case Gather(id) =>
      if id < |rs| then
        Done(System(Collect(s, id), rs[id := rs[id].(processing := rs[id].processing - SumReady(s.ready, id))]))
      else Refused
    case Finish(id) =>
      if id < |rs| && rs[id].processing == 0 && !rs[id].finished then Done(y.(readers := rs[id := rs[id].(finished := true)]))
      else Refused
    case MoveReq(core) => if core < |s.reqIn| && s.reqIn[core] != [] then Done(y.(net := SwitchReq(s, core))) else Refused
    case MoveRes(st) => if st < |s.resIn| && s.resIn[st] != [] then Done(y.(net := SwitchRes(s, st))) else Refused
    case LeaveReq(st) => if st < |s.reqOut| && s.reqOut[st] != [] then Done(y.(net := TakeReq(s, st))) else Refused
    case LeaveRes(core) =>
      if core < |s.resOut| && s.resOut[core] != [] then
        match TakeRes(s, core) case Some(w) => Done(y.(net := w)) case None => Missed
      else Refused
    case Admit(st) => if st < |s.requested| && s.requested[st] != [] then Done(y.(net := Accept(s, st))) else Refused
    case Answer(st, a) =>
      if st < |s.dram| && a in s.dram[st] then
        match Complete(s, st, a) case Some(w) => Done(y.(net := w)) case None => Missed
      else Refused
  }

  /** A reader counts what waits in its queue, what it has under way and what is ready for it. */
  ghost predicate ReaderOk(y: System, id: nat)
    requires Sized(y) && id < |y.readers|
  {
    y.readers[id].processing == |y.readers[id].queue| + Owed(y.net, id)
  }

  ghost predicate SystemOk(y: System) {
    Books(y.net) && Sized(y) && forall id :: 0 <= id < |y.readers| ==> ReaderOk(y, id)
  }

  /** A move of the network leaves every reader's count of what it is owed. */
  lemma NetMoveKeepsOk(y: System, m: Move)
    requires SystemOk(y) && (m.MoveReq? || m.MoveRes? || m.LeaveReq? || m.LeaveRes? || m.Admit? || m.Answer?)
    ensures !Act(y, m).Missed?
    ensures Act(y, m).Done? ==> SystemOk(Act(y, m).y)
  {
    hide Balanced, Owed, SumReady, Within;
    var s := y.net;
    if m.LeaveRes? && m.core < |s.resOut| && s.resOut[m.core] != [] { TakeResNeverMisses(s, m.core); }
    if m.Answer? && m.st < |s.dram| && m.a in s.dram[m.st] { CompleteNeverMisses(s, m.st, m.a); }
    if Act(y, m).Done? {
      var w := Act(y, m).y;
      if m.MoveReq? { SwitchReqKeepsBooks(s, m.core); SameOwed(s, w.net); }
      if m.MoveRes? { SwitchResKeepsBooks(s, m.st); SameOwed(s, w.net); }
      if m.LeaveReq? { TakeReqKeepsBooks(s, m.st); SameOwed(s, w.net); }
      if m.Admit? { AcceptKeepsBooks(s, m.st); SameOwed(s, w.net); }
      forall id | 0 <= id < |w.readers| ensures ReaderOk(w, id) {
        assert ReaderOk(y, id);
      }
    }
  }

  lemma ReaderMoveKeepsOk(y: System, m: Move)
    requires SystemOk(y) && (m.Enroll? || m.Submit? || m.Send? || m.Gather? || m.Finish?) && Act(y, m).Done?
    ensures SystemOk(Act(y, m).y)
  {
    hide Balanced, Owed, SumReady, Within;
    var s, w := y.net, Act(y, m).y;
    if m.Enroll? { RegisterKeepsBooks(s, m.core); }
    if m.Gather? { CollectKeepsBooks(s, m.id); }
    if m.Send? {
      var x := y.readers[m.id].queue[0];
      RouteInRange(x);
      RequestKeepsBooks(s, m.id, Route(x).0, Route(x).1);
    }
    forall id | 0 <= id < |w.readers| ensures ReaderOk(w, id) {
      assert id < |y.readers| ==> ReaderOk(y, id);
    }
  }

  lemma ActKeepsOk(y: System, m: Move)
    requires SystemOk(y)
    ensures !Act(y, m).Missed? && (Act(y, m).Outside? ==> |y.net.idMap| < 8)
    ensures Act(y, m).Done? ==> SystemOk(Act(y, m).y) && |Act(y, m).y.net.idMap| == |y.net.idMap|
  {
    if m.Send? && m.id < |y.readers| && y.readers[m.id].queue != [] { RouteInRange(y.readers[m.id].queue[0]); }
    SameStacks(y, m);
    if m.Enroll? || m.Submit? || m.Send? || m.Gather? || m.Finish? {
      if Act(y, m).Done? { ReaderMoveKeepsOk(y, m); }
    } else {
      NetMoveKeepsOk(y, m);
    }
  }

  lemma SameStacks(y: System, m: Move)
    requires Sized(y)
    ensures Act(y, m).Done? ==> |Act(y, m).y.net.idMap| == |y.net.idMap|
    ensures m.LeaveRes? || m.Answer? || !Act(y, m).Missed?
  {}

  lemma SameOwed(s: Net, r: Net)
    requires Shaped(s) && Shaped(r) && r.idMap == s.idMap && r.ready == s.ready && r.coreOf == s.coreOf
    ensures forall id :: 0 <= id < |s.coreOf| ==> Owed(r, id) == Owed(s, id)
  {}

  // ---- Runs -------------------------------------------------------------------------------------------------------

  function Empty(useSwitch: bool, n: nat): (y: System)
    ensures Sized(y)
  {
    var none := seq(n, _ => []);
    System(Net(useSwitch, [], none, none, none, none, seq(n, _ => []), seq(n, _ => multiset{}), seq(n, _ => []), none), [])
  }

  lemma {:induction false} SumEmpty(n: nat, f: Pair -> bool)
    ensures Sum(seq(n, _ => []), f) == 0
  {
    if n > 0 {
      assert seq(n, _ => [])[1..] == seq<seq<Pair>>(n - 1, _ => []);
      SumEmpty(n - 1, f);
    }
  }

  lemma EmptyIsOk(useSwitch: bool, n: nat)
    ensures SystemOk(Empty(useSwitch, n))
  {
    var s := Empty(useSwitch, n).net;
    forall st, a: nat | 0 <= st < |s.idMap| ensures Balanced(s, st, a) {
      SumEmpty(n, Both(st, a));
    }
  }

  /** The system after the moves, those refused left out; Missed as soon as a lookup fails. */
  function Play(y: System, moves: seq<Move>): (r: Outcome)
    requires Sized(y)
    ensures r.Done? ==> Sized(r.y)
    decreases |moves|
  {
    if moves == [] then Done(y)
    else match Act(y, moves[0])
      case Done(w) => Play(w, moves[1..])
      case Refused => Play(y, moves[1..])
      case Missed => Missed
      case Outside => Outside
  }

  lemma {:induction false} PlayKeepsOk(y: System, moves: seq<Move>)
    requires SystemOk(y)
    ensures !Play(y, moves).Missed? && !Play(y, moves).Refused? && (Play(y, moves).Outside? ==> |y.net.idMap| < 8)
    ensures Play(y, moves).Done? ==> SystemOk(Play(y, moves).y)
    decreases |moves|
  {
    if moves != [] {
      ActKeepsOk(y, moves[0]);
      hide SystemOk, Act;
      match Act(y, moves[0])
      case Done(w) => PlayKeepsOk(w, moves[1..]);
      case Refused => PlayKeepsOk(y, moves[1..]);
      case Missed =>
      case Outside =>
    }
  }

  /**
   * In every run no lookup misses, each stack's table has one entry per read under way, and every reader's count
   * is what it has queued, under way or uncollected: never negative, and zero exactly when nothing of it is left.
   * A run can leave the array of stacks only if there are fewer than eight.
   */
  lemma EveryRunBalances(useSwitch: bool, n: nat, moves: seq<Move>)
    ensures var r := Play(Empty(useSwitch, n), moves);
      && (r.Done? || (r.Outside? && n < 8))
      && (r.Done? ==> SystemOk(r.y) && forall id :: 0 <= id < |r.y.readers| ==>
            && r.y.readers[id].processing >= 0
            && (r.y.readers[id].processing == 0 <==> r.y.readers[id].queue == [] && NothingOwed(r.y.net, id)))
  {
    EmptyIsOk(useSwitch, n);
    PlayKeepsOk(Empty(useSwitch, n), moves);
    var r := Play(Empty(useSwitch, n), moves);
    if r.Done? {
      var y := r.y;
      forall id | 0 <= id < |y.readers|
        ensures y.readers[id].processing >= 0
        ensures y.readers[id].processing == 0 <==> y.readers[id].queue == [] && NothingOwed(y.net, id)
      {
        assert ReaderOk(y, id);
        OwedZeroIff(y.net, id);
      }
    }
  }

  /** With fewer than eight stacks, three moves leave the array: a reader, one batch of stack seven, one send. */
  lemma FewStacksFail(useSwitch: bool, n: nat) returns (x: nat)
    requires 1 <= n < 8
    ensures Play(Empty(useSwitch, n), [Enroll(0), Submit(0, x, 1), Send(0)]).Outside?
  {
    hide Route;
    x := StackSeven();
    var y0 := Empty(useSwitch, n);
    var m := [Enroll(0), Submit(0, x, 1), Send(0)];
    var y1 := Act(y0, m[0]).y;
    var y2 := Act(y1, m[1]).y;
    assert Batch(x, 1) == [x] by { assert (x + 0 * STRIDE) % WORD == x; }
    assert y2.readers[0].queue == [x] && |y2.net.idMap| == n;
    assert m[1..][0] == m[1] && m[1..][1..] == [Send(0)] && [Send(0)][0] == Send(0);
    assert Play(y2, [Send(0)]) == Outside;
    assert Play(y1, m[1..]) == Play(y2, m[1..][1..]);
  }

  /** No table entry names the reader and no stack has anything ready for it. */
  ghost predicate NothingOwed(s: Net, id: nat)
    requires Shaped(s) && id < |s.coreOf|
  {
    forall st :: 0 <= st < |s.idMap| ==> s.ready[st][id] == multiset{} && forall e :: e in s.idMap[st] ==> e.1 != id
  }

  lemma OwedZeroIff(s: Net, id: nat)
    requires Shaped(s) && id < |s.coreOf|
    ensures Owed(s, id) == 0 <==> NothingOwed(s, id)
  {
    SumZeroIff(s.idMap, Second(id));
    SumReadyZeroIff(s.ready, id);
    if NothingOwed(s, id) {
      forall st, e | 0 <= st < |s.idMap| && e in s.idMap[st] ensures !Second(id)(e) {}
    }
    if Owed(s, id) == 0 {
      forall st | 0 <= st < |s.idMap| ensures s.ready[st][id] == multiset{} && forall e :: e in s.idMap[st] ==> e.1 != id {
        assert forall e :: e in s.idMap[st] ==> !Second(id)(e);
      }
    }
  }

  lemma {:induction false} SumReadyZeroIff(ready: seq<seq<multiset<nat>>>, id: nat)
    requires forall st :: 0 <= st < |ready| ==> id < |ready[st]|
    ensures SumReady(ready, id) == 0 <==> forall st :: 0 <= st < |ready| ==> ready[st][id] == multiset{}
  {
    if ready != [] {
      SumReadyZeroIff(ready[1..], id);
      assert forall st :: 0 < st < |ready| ==> ready[st] == ready[1..][st - 1];
    }
  }

  lemma TallyHead(q: seq<Pair>)
    ensures q == [] || Tally(q, First(q[0].0)) > 0
  {}

  /** With nothing under way at any stack, a reader with an empty queue is idle once it has collected. */
  lemma DrainedMeansDone(y: System, id: nat)
    requires SystemOk(y) && id < |y.readers| && y.readers[id].queue == []
    requires forall st, a: nat :: 0 <= st < |y.net.idMap| ==> UnderWay(y.net, st, a) == 0
    ensures Act(y, Gather(id)).Done? && Act(y, Gather(id)).y.readers[id].processing == 0
  {
    var s := y.net;
    forall st | 0 <= st < |s.idMap| ensures s.idMap[st] == [] {
      TallyHead(s.idMap[st]);
      assert s.idMap[st] != [] ==> Balanced(s, st, s.idMap[st][0].0);
    }
    SumZeroIff(s.idMap, Second(id));
    assert ReaderOk(y, id);
  }

  // ---- The per-stack loop -----------------------------------------------------------------------------------------

  /** Equal in everything one stack's iteration can touch or read. */
  ghost predicate SameAt(s: Net, r: Net, st: nat)
    requires Shaped(s) && Shaped(r) && st < |s.idMap| == |r.idMap|
  {
    && s.useSwitch == r.useSwitch && s.coreOf == r.coreOf
    && s.requested[st] == r.requested[st] && s.dram[st] == r.dram[st] && s.resIn[st] == r.resIn[st]
    && s.ready[st] == r.ready[st] && s.idMap[st] == r.idMap[st]
  }

  /** Equal outside the stack. */
  ghost predicate SameElsewhere(s: Net, r: Net, st: nat)
    requires Shaped(s) && Shaped(r)
  {
    && |s.idMap| == |r.idMap| && s.useSwitch == r.useSwitch && s.coreOf == r.coreOf
    && s.reqIn == r.reqIn && s.reqOut == r.reqOut && s.resOut == r.resOut
    && forall i :: 0 <= i < |s.idMap| && i != st ==> SameAt(s, r, i)
  }

  lemma ElsewhereTrans(s: Net, w: Net, r: Net, st: nat)
    requires Shaped(s) && Shaped(w) && Shaped(r) && SameElsewhere(s, w, st) && SameElsewhere(w, r, st)
    ensures SameElsewhere(s, r, st)
  {
    forall i | 0 <= i < |s.idMap| && i != st ensures SameAt(s, r, i) {
      assert SameAt(s, w, i) && SameAt(w, r, i);
    }
  }

  lemma CompleteLocal(s: Net, st: nat, a: nat)
    requires Shaped(s) && st < |s.idMap| && a in s.dram[st] && Complete(s, st, a).Some?
    ensures var w := Complete(s, st, a).value; SameElsewhere(s, w, st) && w.dram[st] == s.dram[st] - multiset{a} && w.requested == s.requested
  {}

  /** The stack's memory answers the reads in `done`, in that order. */
  ghost function Answers(s: Net, st: nat, done: seq<nat>): (r: Net)
    requires Books(s) && st < |s.idMap| && multiset(done) <= s.dram[st]
    ensures Books(r) && SameElsewhere(s, r, st) && r.requested == s.requested
    decreases |done|
  {
    if done == [] then s
    else
      assert done == [done[0]] + done[1..];
      CompleteNeverMisses(s, st, done[0]);
      var w := Complete(s, st, done[0]).value;
      CompleteLocal(s, st, done[0]);
      var r := Answers(w, st, done[1..]);
      ElsewhereTrans(s, w, r, st);
      r
  }

  /** The memory then accepts up to `room` waiting reads. */
  ghost function Accepts(s: Net, st: nat, room: nat): (r: Net)
    requires Books(s) && st < |s.idMap|
    ensures Books(r) && SameElsewhere(s, r, st)
    decreases room
  {
    if room == 0 || s.requested[st] == [] then s
    else
      AcceptKeepsBooks(s, st);
      assert SameElsewhere(s, Accept(s, st), st);
      var r := Accepts(Accept(s, st), st, room - 1);
      ElsewhereTrans(s, Accept(s, st), r, st);
      r
  }

  /** One iteration of the parallel loop; `done` and `room` are what that stack's memory decides. */
  ghost function StackTick(s: Net, st: nat, done: seq<nat>, room: nat): (r: Net)
    requires Books(s) && st < |s.idMap| && multiset(done) <= s.dram[st]
    ensures Books(r) && SameElsewhere(s, r, st)
  {
    var w := Answers(s, st, done);
    var r := Accepts(w, st, room);
    ElsewhereTrans(s, w, r, st);
    r
  }

  lemma CompleteSame(s: Net, r: Net, st: nat, a: nat)
    requires Shaped(s) && Shaped(r) && st < |s.idMap| == |r.idMap| && SameAt(s, r, st) && a in s.dram[st]
    requires Complete(s, st, a).Some? && Complete(r, st, a).Some?
    ensures var w, v := Complete(s, st, a).value, Complete(r, st, a).value;
      |w.idMap| == |v.idMap| == |s.idMap| && SameAt(w, v, st) && w.dram[st] == s.dram[st] - multiset{a}
  {}

  lemma {:induction false} AnswersLocal(s: Net, r: Net, st: nat, done: seq<nat>)
    requires Books(s) && Books(r) && st < |s.idMap| == |r.idMap| && multiset(done) <= s.dram[st] && SameAt(s, r, st)
    ensures SameAt(Answers(s, st, done), Answers(r, st, done), st)
    decreases |done|
  {
    hide Balanced, Complete;
    if done != [] {
      assert done == [done[0]] + done[1..];
      CompleteNeverMisses(s, st, done[0]);
      CompleteNeverMisses(r, st, done[0]);
      CompleteSame(s, r, st, done[0]);
      AnswersLocal(Complete(s, st, done[0]).value, Complete(r, st, done[0]).value, st, done[1..]);
    }
  }

  lemma {:induction false} AcceptsLocal(s: Net, r: Net, st: nat, room: nat)
    requires Books(s) && Books(r) && st < |s.idMap| == |r.idMap| && SameAt(s, r, st)
    ensures SameAt(Accepts(s, st, room), Accepts(r, st, room), st)
    decreases room
  {
    if room > 0 && s.requested[st] != [] {
      AcceptKeepsBooks(s, st);
      AcceptKeepsBooks(r, st);
      AcceptsLocal(Accept(s, st), Accept(r, st), st, room - 1);
    }
  }

  ghost predicate Plausible(s: Net, order: seq<nat>, done: seq<seq<nat>>, room: seq<nat>)
    requires Shaped(s)
  {
    && |done| == |room| == |s.idMap| && Distinct(order)
    && forall k :: 0 <= k < |order| ==> order[k] < |s.idMap| && multiset(done[order[k]]) <= s.dram[order[k]]
  }

  /** The loop's iterations in the given order. */
  ghost function TickStacks(s: Net, order: seq<nat>, done: seq<seq<nat>>, room: seq<nat>): (r: Net)
    requires Books(s) && Plausible(s, order, done, room)
    ensures Books(r) && |r.idMap| == |s.idMap|
    decreases |order|
  {
    if order == [] then s
    else
      var st := order[0];
      var w := StackTick(s, st, done[st], room[st]);
      assert Plausible(w, order[1..], done, room) by {
        forall k | 0 <= k < |order[1..]|
          ensures order[1..][k] < |w.idMap| && multiset(done[order[1..][k]]) <= w.dram[order[1..][k]]
        {
          assert order[1..][k] == order[k + 1] && order[k + 1] != st;
          assert SameAt(s, w, order[k + 1]);
        }
      }
      TickStacks(w, order[1..], done, room)
  }

  /** Whatever the order, each stack ends as if it alone had ticked, and the stacks not listed do not change. */
  lemma {:induction false} TickStacksPointwise(s: Net, order: seq<nat>, done: seq<seq<nat>>, room: seq<nat>, st: nat)
    requires Books(s) && Plausible(s, order, done, room) && st < |s.idMap|
    ensures var r := TickStacks(s, order, done, room);
      && r.reqIn == s.reqIn && r.reqOut == s.reqOut && r.resOut == s.resOut
      && (if st in order then multiset(done[st]) <= s.dram[st] && SameAt(StackTick(s, st, done[st], room[st]), r, st)
          else SameAt(s, r, st))
    decreases |order|
  {
    if order != [] {
      var i := order[0];
      var w := StackTick(s, i, done[i], room[i]);
      assert Plausible(w, order[1..], done, room) by {
        forall k | 0 <= k < |order[1..]|
          ensures order[1..][k] < |w.idMap| && multiset(done[order[1..][k]]) <= w.dram[order[1..][k]]
        {
          assert order[1..][k] == order[k + 1] && order[k + 1] != i;
          assert SameAt(s, w, order[k + 1]);
        }
      }
      TickStacksPointwise(w, order[1..], done, room, st);
      if st == i {
        assert st !in order[1..];
      } else {
        assert SameAt(s, w, st);
        if st in order {
          assert st in order[1..];
          AnswersLocal(s, w, st, done[st]);
          AcceptsLocal(Answers(s, st, done[st]), Answers(w, st, done[st]), st, room[st]);
        }
      }
    }
  }

  /** Two orders over the same stacks give the same network. */
  lemma StackOrderIrrelevant(s: Net, order: seq<nat>, other: seq<nat>, done: seq<seq<nat>>, room: seq<nat>)
    requires Books(s) && Plausible(s, order, done, room) && Plausible(s, other, done, room)
    requires forall st :: st in order <==> st in other
    ensures TickStacks(s, order, done, room) == TickStacks(s, other, done, room)
  {
    hide StackTick, Shaped;
    var r, w := TickStacks(s, order, done, room), TickStacks(s, other, done, room);
    forall st | 0 <= st < |s.idMap| ensures SameAt(r, w, st) {
      TickStacksPointwise(s, order, done, room, st);
      TickStacksPointwise(s, other, done, room, st);
    }
    if |s.idMap| > 0 {
      TickStacksPointwise(s, order, done, room, 0);
      TickStacksPointwise(s, other, done, room, 0);
      SameEverywhere(r, w);
    } else {
      assert |order| == 0 && |other| == 0;
    }
  }

  lemma SameEverywhere(s: Net, r: Net)
    requires Shaped(s) && Shaped(r) && 0 < |s.idMap| == |r.idMap|
    requires s.reqIn == r.reqIn && s.reqOut == r.reqOut && s.resOut == r.resOut
    requires forall st :: 0 <= st < |s.idMap| ==> SameAt(s, r, st)
    ensures s == r
  {
    assert SameAt(s, r, 0);
    forall st | 0 <= st < |s.idMap|
      ensures s.requested[st] == r.requested[st] && s.dram[st] == r.dram[st] && s.resIn[st] == r.resIn[st]
      ensures s.ready[st] == r.ready[st] && s.idMap[st] == r.idMap[st]
    {
      assert SameAt(s, r, st);
    }
  }
}
