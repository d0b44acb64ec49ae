/** The way each request and response takes: through the switch exactly when reader and stack belong to different cores. */
module MemoryPaths {
  import opened Commands
  import opened Counting
  import opened MemoryNet
  import opened MemoryRuns

  /** (core, stack, address) */
  type Trip = (nat, nat, nat)

  /** What has happened so far, by (stack, address) or by trip. */
  datatype Paths = Paths(
    local: multiset<Pair>,       // asked for by a reader next to the stack, or with no switch
    remote: multiset<Trip>,      // asked for by a reader of another core
    left: multiset<Trip>,        // requests that left the switch
    out: multiset<Pair>,         // the same by stack and address
    admitted: multiset<Pair>,    // accepted by the stack's memory, the smallest waiting address each time
    answered: multiset<Trip>,    // answers for a reader of another core
    back: multiset<Trip>)        // answers that left the switch

  const NONE := Paths(multiset{}, multiset{}, multiset{}, multiset{}, multiset{}, multiset{}, multiset{})

  /** The lookup for address a lands on entry k: the oldest one. */
  ghost predicate Oldest(m: seq<Pair>, a: nat, k: nat) {
    k < |m| && m[k].0 == a && forall j :: 0 <= j < k ==> m[j].0 != a
  }

  lemma {:induction false} FindIsOldest(m: seq<Pair>, a: nat)
    ensures Find(m, a).Some? ==> Oldest(m, a, Find(m, a).value)
    ensures Find(m, a).None? ==> forall j :: 0 <= j < |m| ==> m[j].0 != a
  {
    if m != [] { FindIsOldest(m[1..], a); }
  }

  /** What one move adds. */
  ghost function Record(y: System, m: Move, p: Paths): Paths
    requires Sized(y)
  {
    var s, rs := y.net, y.readers;
    match m
    case Send(id) =>
      if id < |rs| && rs[id].queue != [] && Route(rs[id].queue[0]).0 < |s.idMap| then
        var (st, a) := Route(rs[id].queue[0]);
        if s.useSwitch && s.coreOf[id] != st then p.(remote := p.remote + multiset{(s.coreOf[id], st, a)})
        else p.(local := p.local + multiset{(st, a)})
      else p
    case LeaveReq(st) =>
      if st < |s.reqOut| && s.reqOut[st] != [] then
        var e := s.reqOut[st][0];
        p.(left := p.left + multiset{(e.0, st, e.1)}, out := p.out + multiset{(st, e.1)})
      else p
    case Admit(st) =>
      if st < |s.requested| && s.requested[st] != [] then p.(admitted := p.admitted + multiset{(st, Least(s.requested[st]))}) else p
    case Answer(st, a) =>
      if st < |s.dram| && a in s.dram[st] && exists k: nat :: Oldest(s.idMap[st], a, k) then
        var k: nat :| Oldest(s.idMap[st], a, k);
        var core := s.coreOf[s.idMap[st][k].1];
        if s.useSwitch && core != st then p.(answered := p.answered + multiset{(core, st, a)}) else p
      else p
    case LeaveRes(core) =>
      if core < |s.resOut| && s.resOut[core] != [] then
        var e := s.resOut[core][0];
        p.(back := p.back + multiset{(core, e.0, e.1)})
      else p
    case _ => p
  }

  /** The smallest element of a queue. */
  ghost function Least(q: seq<nat>): (a: nat)
    requires q != []
    ensures a in q && forall b :: b in q ==> a <= b
  {
    if |q| == 1 then q[0]
    else
      var a := Least(q[1..]);
      assert q == [q[0]] + q[1..];
      if q[0] <= a then q[0] else a
  }

  /** At a stack: what joined its queue came from a reader beside it or out of the switch. */
  ghost predicate JoinedAt(s: Net, p: Paths, st: nat, a: nat)
    requires Shaped(s) && st < |s.idMap|
  {
    multiset(s.requested[st])[a] + p.admitted[(st, a)] == p.local[(st, a)] + p.out[(st, a)]
  }

  /** Between a core and a stack: what was sent is in the switch or has left it. */
  ghost predicate CrossedAt(s: Net, p: Paths, core: nat, st: nat, a: nat)
    requires Shaped(s) && core < |s.idMap| && st < |s.idMap|
  {
    && p.remote[(core, st, a)] == Tally(s.reqIn[core], Both(st, a)) + Tally(s.reqOut[st], Both(core, a)) + p.left[(core, st, a)]
    && p.answered[(core, st, a)] == Tally(s.resIn[st], Both(core, a)) + Tally(s.resOut[core], Both(st, a)) + p.back[(core, st, a)]
  }

  ghost predicate Kept(s: Net, p: Paths) {
    && Shaped(s)
    && (forall st, a: nat :: 0 <= st < |s.idMap| ==> JoinedAt(s, p, st, a))
    && (forall core, st, a: nat :: 0 <= core < |s.idMap| && 0 <= st < |s.idMap| ==> CrossedAt(s, p, core, st, a))
  }

  lemma PopTally(q: seq<Pair>, f: Pair -> bool)
    requires q != []
    ensures Tally(q, f) == Bit(f(q[0])) + Tally(q[1..], f)
  {}

  /** Nothing the paths speak of has changed. */
  lemma SameKept(s: Net, r: Net, p: Paths)
    requires Kept(s, p) && Shaped(r) && |r.idMap| == |s.idMap| && r.requested == s.requested
    requires r.reqIn == s.reqIn && r.reqOut == s.reqOut && r.resIn == s.resIn && r.resOut == s.resOut
    ensures Kept(r, p)
  {
    hide Shaped;
    forall st, a: nat | 0 <= st < |r.idMap| ensures JoinedAt(r, p, st, a) { assert JoinedAt(s, p, st, a); }
    forall core, st, a: nat | 0 <= core < |r.idMap| && 0 <= st < |r.idMap| ensures CrossedAt(r, p, core, st, a) {
      assert CrossedAt(s, p, core, st, a);
    }
  }

  lemma SendNearKeepsPaths(s: Net, id: nat, st: nat, a: nat, p: Paths)
    requires Kept(s, p) && id < |s.coreOf| && st < |s.idMap| && a < SENTINEL && !(s.useSwitch && s.coreOf[id] != st)
    ensures Kept(Request(s, id, st, a), p.(local := p.local + multiset{(st, a)}))
  {
    hide Tally, Insert;
    var r, q := Request(s, id, st, a), p.(local := p.local + multiset{(st, a)});
    forall w, b: nat | 0 <= w < |r.idMap| ensures JoinedAt(r, q, w, b) { assert JoinedAt(s, p, w, b); }
    forall c, w, b: nat | 0 <= c < |r.idMap| && 0 <= w < |r.idMap| ensures CrossedAt(r, q, c, w, b) {
      assert CrossedAt(s, p, c, w, b);
    }
  }

  lemma SendAwayKeepsPaths(s: Net, id: nat, st: nat, a: nat, p: Paths)
    requires Kept(s, p) && id < |s.coreOf| && st < |s.idMap| && a < SENTINEL && s.useSwitch && s.coreOf[id] != st
    ensures Kept(Request(s, id, st, a), p.(remote := p.remote + multiset{(s.coreOf[id], st, a)}))
  {
    hide Tally, Insert;
    var r, core := Request(s, id, st, a), s.coreOf[id];
    var q := p.(remote := p.remote + multiset{(core, st, a)});
    forall w, b: nat | 0 <= w < |r.idMap| ensures JoinedAt(r, q, w, b) { assert JoinedAt(s, p, w, b); }
    forall c, w, b: nat | 0 <= c < |r.idMap| && 0 <= w < |r.idMap| ensures CrossedAt(r, q, c, w, b) {
      assert CrossedAt(s, p, c, w, b);
      TallyPush(s.reqIn[core], (st, a), Both(w, b));
    }
  }

  lemma MoveReqKeepsPaths(s: Net, i: nat, p: Paths)
    requires Kept(s, p) && i < |s.reqIn| && s.reqIn[i] != []
    ensures Kept(SwitchReq(s, i), p)
  {
    hide Tally;
    var r, e := SwitchReq(s, i), s.reqIn[i][0];
    forall st, a: nat | 0 <= st < |r.idMap| ensures JoinedAt(r, p, st, a) { assert JoinedAt(s, p, st, a); }
    forall c, w, b: nat | 0 <= c < |r.idMap| && 0 <= w < |r.idMap| ensures CrossedAt(r, p, c, w, b) {
      assert CrossedAt(s, p, c, w, b);
      PopTally(s.reqIn[i], Both(w, b));
      TallyPush(s.reqOut[e.0], (i, e.1), Both(c, b));
    }
  }

  lemma MoveResKeepsPaths(s: Net, i: nat, p: Paths)
    requires Kept(s, p) && i < |s.resIn| && s.resIn[i] != []
    ensures Kept(SwitchRes(s, i), p)
  {
    hide Tally;
    var r, e := SwitchRes(s, i), s.resIn[i][0];
    forall st, a: nat | 0 <= st < |r.idMap| ensures JoinedAt(r, p, st, a) { assert JoinedAt(s, p, st, a); }
    forall c, w, b: nat | 0 <= c < |r.idMap| && 0 <= w < |r.idMap| ensures CrossedAt(r, p, c, w, b) {
      assert CrossedAt(s, p, c, w, b);
      PopTally(s.resIn[i], Both(c, b));
      TallyPush(s.resOut[e.0], (i, e.1), Both(w, b));
    }
  }

  lemma LeaveReqKeepsPaths(s: Net, st: nat, p: Paths)
    requires Kept(s, p) && st < |s.reqOut| && s.reqOut[st] != []
    ensures var e := s.reqOut[st][0];
      Kept(TakeReq(s, st), p.(left := p.left + multiset{(e.0, st, e.1)}, out := p.out + multiset{(st, e.1)}))
  {
    hide Tally, Insert;
    var r, e := TakeReq(s, st), s.reqOut[st][0];
    var q := p.(left := p.left + multiset{(e.0, st, e.1)}, out := p.out + multiset{(st, e.1)});
    forall w, b: nat | 0 <= w < |r.idMap| ensures JoinedAt(r, q, w, b) { assert JoinedAt(s, p, w, b); }
    forall c, w, b: nat | 0 <= c < |r.idMap| && 0 <= w < |r.idMap| ensures CrossedAt(r, q, c, w, b) {
      assert CrossedAt(s, p, c, w, b);
      PopTally(s.reqOut[st], Both(c, b));
    }
  }

  lemma LeaveResKeepsPaths(s: Net, core: nat, p: Paths)
    requires Kept(s, p) && core < |s.resOut| && s.resOut[core] != [] && TakeRes(s, core).Some?
    ensures var e := s.resOut[core][0]; Kept(TakeRes(s, core).value, p.(back := p.back + multiset{(core, e.0, e.1)}))
  {
    hide Tally;
    var r, e := TakeRes(s, core).value, s.resOut[core][0];
    var q := p.(back := p.back + multiset{(core, e.0, e.1)});
    assert r.reqIn == s.reqIn && r.reqOut == s.reqOut && r.resIn == s.resIn && r.requested == s.requested && r.resOut == Pop(s.resOut, core);
    forall w, b: nat | 0 <= w < |r.idMap| ensures JoinedAt(r, q, w, b) { assert JoinedAt(s, p, w, b); }
    forall c, w, b: nat | 0 <= c < |r.idMap| && 0 <= w < |r.idMap| ensures CrossedAt(r, q, c, w, b) {
      assert CrossedAt(s, p, c, w, b);
      PopTally(s.resOut[core], Both(w, b));
    }
  }

  lemma AdmitKeepsPaths(s: Net, st: nat, p: Paths)
    requires Kept(s, p) && st < |s.requested| && s.requested[st] != []
    ensures Kept(Accept(s, st), p.(admitted := p.admitted + multiset{(st, Least(s.requested[st]))}))
  {
    hide Tally, Least;
    var r, q := Accept(s, st), p.(admitted := p.admitted + multiset{(st, Least(s.requested[st]))});
    assert s.requested[st] == [s.requested[st][0]] + s.requested[st][1..];
    LeastIsFirst(s.requested[st]);
    forall w, b: nat | 0 <= w < |r.idMap| ensures JoinedAt(r, q, w, b) { assert JoinedAt(s, p, w, b); }
    forall c, w, b: nat | 0 <= c < |r.idMap| && 0 <= w < |r.idMap| ensures CrossedAt(r, q, c, w, b) {
      assert CrossedAt(s, p, c, w, b);
    }
  }

  lemma LeastIsFirst(q: seq<nat>)
    requires q != [] && Ascending(q)
    ensures Least(q) == q[0]
  {
    assert q[0] in q;
  }

  /** A stack's answer enters the switch exactly when its oldest asker belongs to another core. */
  lemma AnswerKeepsPaths(s: Net, st: nat, a: nat, k: nat, p: Paths)
    requires Kept(s, p) && st < |s.dram| && a in s.dram[st] && Oldest(s.idMap[st], a, k)
    ensures Complete(s, st, a).Some?
    ensures var core := s.coreOf[s.idMap[st][k].1];
      Kept(Complete(s, st, a).value, if s.useSwitch && core != st then p.(answered := p.answered + multiset{(core, st, a)}) else p)
  {
    hide Tally;
    var core := s.coreOf[s.idMap[st][k].1];
    FindIsOldest(s.idMap[st], a);
    var f := Find(s.idMap[st], a);
    assert f == Some(k);
    var r := Complete(s, st, a).value;
    if s.useSwitch && core != st {
      var q := p.(answered := p.answered + multiset{(core, st, a)});
      forall w, b: nat | 0 <= w < |r.idMap| ensures JoinedAt(r, q, w, b) { assert JoinedAt(s, p, w, b); }
      forall c, w, b: nat | 0 <= c < |r.idMap| && 0 <= w < |r.idMap| ensures CrossedAt(r, q, c, w, b) {
        assert CrossedAt(s, p, c, w, b);
        TallyPush(s.resIn[st], (core, a), Both(c, b));
      }
    } else {
      SameKept(s, r, p);
    }
  }

  lemma ActKeepsPaths(y: System, m: Move, p: Paths)
    requires SystemOk(y) && Kept(y.net, p) && Act(y, m).Done?
    ensures Kept(Act(y, m).y.net, Record(y, m, p))
  {
    hide Kept, Balanced, Owed, Within;
    var s := y.net;
    match m {
      case Enroll(core) => SameKept(s, Register(s, core), p);
      case Submit(id, addr, len) =>
      case Send(id) =>
        var x := y.readers[id].queue[0];
        RouteInRange(x);
        if s.useSwitch && s.coreOf[id] != Route(x).0 {
          SendAwayKeepsPaths(s, id, Route(x).0, Route(x).1, p);
        } else {
          SendNearKeepsPaths(s, id, Route(x).0, Route(x).1, p);
        }
      case Gather(id) => SameKept(s, Collect(s, id), p);
      case Finish(id) =>
      case MoveReq(core) => MoveReqKeepsPaths(s, core, p);
      case MoveRes(st) => MoveResKeepsPaths(s, st, p);
      case LeaveReq(st) => LeaveReqKeepsPaths(s, st, p);
      case LeaveRes(core) => LeaveResKeepsPaths(s, core, p);
      case Admit(st) => AdmitKeepsPaths(s, st, p);
      case Answer(st, a) =>
        CompleteNeverMisses(s, st, a);
        AnswerRecorded(y, st, a, p);
    }
  }

  lemma AnswerRecorded(y: System, st: nat, a: nat, p: Paths)
    requires Sized(y) && Kept(y.net, p) && st < |y.net.dram| && a in y.net.dram[st] && Complete(y.net, st, a).Some?
    ensures Kept(Complete(y.net, st, a).value, Record(y, Answer(st, a), p))
  {
    hide Kept;
    var s := y.net;
    FindIsOldest(s.idMap[st], a);
    var f := Find(s.idMap[st], a).value;
    assert Oldest(s.idMap[st], a, f);
    AnswerKeepsPaths(s, st, a, f, p);
    forall k: nat | Oldest(s.idMap[st], a, k) ensures k == f {}
  }

  /** What a whole run adds. */
  ghost function Follow(y: System, moves: seq<Move>, p: Paths): Paths
    requires Sized(y)
    decreases |moves|
  {
    if moves == [] then p
    else match Act(y, moves[0])
      case Done(w) => Follow(w, moves[1..], Record(y, moves[0], p))
      case Refused => Follow(y, moves[1..], p)
      case _ => p
  }

  lemma {:induction false} PlayKeepsPaths(y: System, moves: seq<Move>, p: Paths)
    requires SystemOk(y) && Kept(y.net, p)
    ensures Play(y, moves).Done? ==> Kept(Play(y, moves).y.net, Follow(y, moves, p))
    decreases |moves|
  {
    hide Kept, Record;
    if moves != [] {
      ActKeepsOk(y, moves[0]);
      var a := Act(y, moves[0]);
      if a.Done? { ActKeepsPaths(y, moves[0], p); }
      hide SystemOk, Act;
      match a {
        case Done(w) => PlayKeepsPaths(w, moves[1..], Record(y, moves[0], p));
        case Refused => PlayKeepsPaths(y, moves[1..], p);
        case Missed =>
        case Outside =>
      }
    }
  }

  /**
   * In every run, at every stack and address: what joined the queue was asked for beside the stack or has left the switch at that
   * stack; and between every core and stack, whatever was sent across is in the switch or has left it at its own end, requests
   * and answers alike.
   */
  lemma EveryRunKeepsPaths(useSwitch: bool, n: nat, moves: seq<Move>)
    ensures var y := Empty(useSwitch, n); Play(y, moves).Done? ==> Kept(Play(y, moves).y.net, Follow(y, moves, NONE))
  {
    hide Follow, Play;
    var y := Empty(useSwitch, n);
    EmptyIsOk(useSwitch, n);
    assert Kept(y.net, NONE);
    PlayKeepsPaths(y, moves, NONE);
  }

  // ---- Single calls -----------------------------------------------------------------------------------------------------

  /** Reader id's request went beside the stack, or into the switch at the reader's core and nowhere else. */
  ghost predicate Sent(s: Net, r: Net, id: nat, st: nat, a: nat)
    requires Shaped(s) && Shaped(r) && id < |s.coreOf| && st < |s.idMap|
  {
    var core, known := s.coreOf[id], s.idMap[st := s.idMap[st] + [(a, id)]];
    if s.useSwitch && core != st
    then r == s.(idMap := known, reqIn := s.reqIn[core := s.reqIn[core] + [(st, a)]])
    else
      && r == s.(idMap := known, requested := r.requested) && |r.requested| == |s.requested|
      && (forall w :: 0 <= w < |s.requested| && w != st ==> r.requested[w] == s.requested[w])
      && multiset(r.requested[st]) == multiset(s.requested[st]) + multiset{a}
  }

  lemma RequestSends(s: Net, id: nat, st: nat, a: nat)
    requires Shaped(s) && id < |s.coreOf| && st < |s.idMap| && a < SENTINEL
    ensures Sent(s, Request(s, id, st, a), id, st, a)
  {
    hide Insert;
  }

  /** The answer for a went to its oldest asker, entry k, or into the switch towards that asker's core, the entry staying. */
  ghost predicate Responded(s: Net, r: Net, st: nat, a: nat, k: nat)
    requires Shaped(s) && Shaped(r) && st < |s.idMap|
  {
    && Oldest(s.idMap[st], a, k)
    && var id := s.idMap[st][k].1;
       if s.useSwitch && s.coreOf[id] != st
       then r == s.(resIn := s.resIn[st := s.resIn[st] + [(s.coreOf[id], a)]])
       else r == s.(ready := s.ready[st := s.ready[st][id := s.ready[st][id] + multiset{a}]],
                    idMap := s.idMap[st := s.idMap[st][..k] + s.idMap[st][k + 1..]])
  }

  lemma RespondIs(s: Net, st: nat, a: nat)
    requires Shaped(s) && st < |s.idMap|
    ensures Respond(s, st, a).Some? <==> exists k: nat :: Oldest(s.idMap[st], a, k)
    ensures Respond(s, st, a).Some? ==> exists k: nat :: Responded(s, Respond(s, st, a).value, st, a, k)
  {
    FindIsOldest(s.idMap[st], a);
    var f := Find(s.idMap[st], a);
    if f.Some? { assert Responded(s, Respond(s, st, a).value, st, a, f.value); }
  }

  /** The stack's memory gave back `done` and took the smallest waiting addresses, as many as there was room for. */
  ghost predicate Served(s: Net, r: Net, st: nat, done: seq<nat>, room: nat)
    requires Shaped(s) && Shaped(r) && st < |s.idMap|
  {
    var q := s.requested[st];
    var k := Min(room, |q|);
    && r.requested == s.requested[st := q[k..]] && r.dram == s.dram[st := s.dram[st] - multiset(done) + multiset(q[..k])]
    && forall a, b :: a in q[..k] && b in q[k..] ==> a <= b
  }

  lemma {:induction false} AnswersTake(s: Net, st: nat, done: seq<nat>)
    requires Books(s) && st < |s.idMap| && multiset(done) <= s.dram[st]
    ensures |s.dram| == |s.idMap|
    ensures var r := Answers(s, st, done); r.requested == s.requested && r.dram == Without(s.dram, st, done)
    decreases |done|
  {
    hide Balanced, SameAt, Within, Known, Without;
    WithoutStep(s.dram, st, done);
    if done != [] {
      assert done == [done[0]] + done[1..];
      CompleteNeverMisses(s, st, done[0]);
      CompleteTakes(s, st, done[0]);
      AnswersTake(Complete(s, st, done[0]).value, st, done[1..]);
    }
  }

  /** The reads in `done` taken out of stack st. */
  ghost function Without(dram: seq<multiset<nat>>, st: nat, done: seq<nat>): seq<multiset<nat>>
    requires st < |dram|
  {
    dram[st := dram[st] - multiset(done)]
  }

  lemma WithoutStep(dram: seq<multiset<nat>>, st: nat, done: seq<nat>)
    requires st < |dram|
    ensures Without(dram, st, done) ==
      if done == [] then dram else Without(dram[st := dram[st] - multiset{done[0]}], st, done[1..])
  {
    if done != [] {
      assert done == [done[0]] + done[1..];
      assert dram[st] - multiset{done[0]} - multiset(done[1..]) == dram[st] - multiset(done);
    } else {
      assert dram[st] - multiset(done) == dram[st];
    }
  }

  lemma CompleteTakes(s: Net, st: nat, a: nat)
    requires Shaped(s) && st < |s.dram| && a in s.dram[st] && Complete(s, st, a).Some?
    ensures var r := Complete(s, st, a).value;
      r.dram == s.dram[st := s.dram[st] - multiset{a}] && r.requested == s.requested && |s.dram| == |r.idMap| == |s.idMap|
  {}

  /** Waiting and accepted reads after stack st took the first k of those waiting. */
  ghost function Took(waiting: seq<seq<nat>>, dram: seq<multiset<nat>>, st: nat, room: nat): (seq<seq<nat>>, seq<multiset<nat>>)
    requires st < |waiting| == |dram|
  {
    var k := Min(room, |waiting[st]|);
    (waiting[st := waiting[st][k..]], dram[st := dram[st] + multiset(waiting[st][..k])])
  }

  lemma TookStep(waiting: seq<seq<nat>>, dram: seq<multiset<nat>>, st: nat, room: nat)
    requires st < |waiting| == |dram|
    ensures Took(waiting, dram, st, room) ==
      if room == 0 || waiting[st] == [] then (waiting, dram)
      else Took(waiting[st := waiting[st][1..]], dram[st := dram[st] + multiset{waiting[st][0]}], st, room - 1)
  {
    var q, d := waiting[st], dram[st];
    if room > 0 && q != [] {
      var k := Min(room, |q|);
      assert q[..k] == [q[0]] + q[1..][..k - 1];
      assert d + multiset{q[0]} + multiset(q[1..][..k - 1]) == d + multiset(q[..k]);
      assert q[1..][k - 1..] == q[k..] && Min(room - 1, |q[1..]|) == k - 1;
      assert waiting[st := q[1..]][st := q[k..]] == waiting[st := q[k..]];
      assert dram[st := d + multiset{q[0]}][st := d + multiset(q[..k])] == dram[st := d + multiset(q[..k])];
    } else {
      assert waiting[st := q[0..]] == waiting;
      assert d + multiset(q[..0]) == d && dram[st := d] == dram;
    }
  }

  lemma {:induction false} AcceptsTake(s: Net, st: nat, room: nat)
    requires Books(s) && st < |s.idMap|
    ensures |s.dram| == |s.requested| == |s.idMap|
    ensures var r := Accepts(s, st, room); (r.requested, r.dram) == Took(s.requested, s.dram, st, room)
    decreases room
  {
    hide Balanced, SameAt, Within, Known, Took;
    TookStep(s.requested, s.dram, st, room);
    if room > 0 && s.requested[st] != [] {
      AcceptKeepsBooks(s, st);
      AcceptsTake(Accept(s, st), st, room - 1);
    }
  }

  lemma StackTickServes(s: Net, st: nat, done: seq<nat>, room: nat)
    requires Books(s) && st < |s.idMap| && multiset(done) <= s.dram[st]
    ensures Served(s, StackTick(s, st, done, room), st, done, room)
  {
    hide Balanced, SameAt, Answers, Accepts, Within, Known;
    AnswersTake(s, st, done);
    AcceptsTake(Answers(s, st, done), st, room);
    Smallest(s.requested[st], Min(room, |s.requested[st]|));
  }

  lemma Smallest(q: seq<nat>, k: nat)
    requires Ascending(q) && k <= |q|
    ensures forall a, b :: a in q[..k] && b in q[k..] ==> a <= b
  {}
}
