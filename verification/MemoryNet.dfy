/** Requests and responses between readers, the switch and the memory stacks, as moves of one packet at a time. */
module MemoryNet {
  import opened Commands
  import opened Counting

  const MAPPER_OFFSET: nat := 16
  const SENTINEL: nat := 0xFFFF_FFFF_FFFF_FFFF

  /** (stack or core, address) inside the switch; (address, reader) in a lookup table. */
  type Pair = (nat, nat)

  datatype Net = Net(
    useSwitch: bool,
    coreOf: seq<nat>,                // the core each registered reader belongs to
    reqIn: seq<seq<Pair>>,           // by core: (stack, address)
    reqOut: seq<seq<Pair>>,          // by stack: (core, address)
    resIn: seq<seq<Pair>>,           // by stack: (core, address)
    resOut: seq<seq<Pair>>,          // by core: (stack, address)
    requested: seq<seq<nat>>,        // by stack, ascending as the ordered multiset iterates
    dram: seq<multiset<nat>>,        // by stack: reads accepted and not yet answered
    ready: seq<seq<multiset<nat>>>,  // by stack and reader
    idMap: seq<seq<Pair>>)           // by stack: (address, reader), equal keys in insertion order

  // ---- Counting ---------------------------------------------------------------------------------------------------

  function First(v: nat): Pair -> bool { (e: Pair) => e.0 == v }
  function Second(v: nat): Pair -> bool { (e: Pair) => e.1 == v }
  function Both(v: nat, w: nat): Pair -> bool { (e: Pair) => e.0 == v && e.1 == w }

  function SumReady(ready: seq<seq<multiset<nat>>>, id: nat): (n: nat)
    requires forall st :: 0 <= st < |ready| ==> id < |ready[st]|
  {
    if ready == [] then 0 else |ready[0][id]| + SumReady(ready[1..], id)
  }

  lemma {:induction false} SumReadyUpdate(ready: seq<seq<multiset<nat>>>, st: nat, row: seq<multiset<nat>>, id: nat)
    requires st < |ready| && id < |row|
    requires forall i :: 0 <= i < |ready| ==> id < |ready[i]|
    ensures SumReady(ready[st := row], id) + |ready[st][id]| == SumReady(ready, id) + |row[id]|
  {
    if st == 0 {
      assert ready[st := row][1..] == ready[1..];
    } else {
      assert ready[st := row][1..] == ready[1..][st - 1 := row];
      SumReadyUpdate(ready[1..], st - 1, row, id);
    }
  }

  /** Where a lookup by address lands, if anywhere. */
  function Find(m: seq<Pair>, a: nat): (r: Option<nat>)
    ensures r.Some? ==> r.value < |m| && m[r.value].0 == a
    ensures r.Some? <==> Tally(m, First(a)) > 0
  {
    if m == [] then None
    else if m[0].0 == a then Some(0)
    else match Find(m[1..], a) case None => None case Some(k) => Some(k + 1)
  }

  /** An ordered multiset: insertion keeps the elements ascending. */
  function Insert(s: seq<nat>, a: nat): (r: seq<nat>)
    ensures multiset(r) == multiset(s) + multiset{a}
  {
    if s == [] || a < s[0] then [a] + s
    else
      assert s == [s[0]] + s[1..];
      [s[0]] + Insert(s[1..], a)
  }

  lemma {:induction false} InsertKeepsOrder(s: seq<nat>, a: nat)
    requires Ascending(s)
    ensures Ascending(Insert(s, a))
  {
    if s != [] && a >= s[0] {
      var w := Insert(s[1..], a);
      InsertKeepsOrder(s[1..], a);
      forall i | 0 <= i < |w| ensures s[0] <= w[i] {
        InsertMembers(s[1..], a, i);
      }
    }
  }

  lemma InsertMembers(s: seq<nat>, a: nat, i: nat)
    requires i < |Insert(s, a)|
    ensures Insert(s, a)[i] == a || Insert(s, a)[i] in s
  {
    hide Insert;
    var w := Insert(s, a);
    assert w[i] in multiset(w);
    assert w[i] in multiset(s) + multiset{a};
  }

  predicate Ascending(s: seq<nat>) { forall i, j :: 0 <= i < j < |s| ==> s[i] <= s[j] }

  // ---- Moves ------------------------------------------------------------------------------------------------------

  ghost predicate Within(qs: seq<seq<Pair>>, n: nat) {
    |qs| == n && forall i, k :: 0 <= i < n && 0 <= k < |qs[i]| ==> qs[i][k].0 < n && qs[i][k].1 < SENTINEL
  }

  ghost predicate Known(idMap: seq<seq<Pair>>, ids: nat) {
    forall st, k :: 0 <= st < |idMap| && 0 <= k < |idMap[st]| ==> idMap[st][k].0 < SENTINEL && idMap[st][k].1 < ids
  }

  /** One queue of each kind per stack or core, every target exists, every entry names a registered reader. */
  ghost predicate Shaped(s: Net) {
    var n := |s.idMap|;
    && Within(s.reqIn, n) && Within(s.reqOut, n) && Within(s.resIn, n) && Within(s.resOut, n)
    && |s.requested| == n && |s.dram| == n && |s.ready| == n
    && (forall id :: 0 <= id < |s.coreOf| ==> s.coreOf[id] < n)
    && (forall st :: 0 <= st < n ==> |s.ready[st]| == |s.coreOf|)
    && (forall st :: 0 <= st < n ==> Ascending(s.requested[st]))
    && Known(s.idMap, |s.coreOf|)
  }

  function Push(qs: seq<seq<Pair>>, i: nat, e: Pair): (r: seq<seq<Pair>>)
    requires i < |qs|
  {
    qs[i := qs[i] + [e]]
  }

  function Pop(qs: seq<seq<Pair>>, i: nat): (r: seq<seq<Pair>>)
    requires i < |qs| && qs[i] != []
  {
    qs[i := qs[i][1..]]
  }

  lemma PushWithin(qs: seq<seq<Pair>>, n: nat, i: nat, e: Pair)
    requires Within(qs, n) && i < n && e.0 < n && e.1 < SENTINEL
    ensures Within(Push(qs, i, e), n)
  {}

  lemma PopWithin(qs: seq<seq<Pair>>, n: nat, i: nat)
    requires Within(qs, n) && i < n && qs[i] != []
    ensures Within(Pop(qs, i), n)
  {}

  /** The switch carries one request from core i's input to its stack's output. */
  function SwitchReq(s: Net, i: nat): (r: Net)
    requires Shaped(s) && i < |s.reqIn| && s.reqIn[i] != []
    ensures Shaped(r)
  {
    var e := s.reqIn[i][0];
    PopWithin(s.reqIn, |s.idMap|, i);
    PushWithin(s.reqOut, |s.idMap|, e.0, (i, e.1));
    s.(reqIn := Pop(s.reqIn, i), reqOut := Push(s.reqOut, e.0, (i, e.1)))
  }

  function SwitchRes(s: Net, i: nat): (r: Net)
    requires Shaped(s) && i < |s.resIn| && s.resIn[i] != []
    ensures Shaped(r)
  {
    var e := s.resIn[i][0];
    PopWithin(s.resIn, |s.idMap|, i);
    PushWithin(s.resOut, |s.idMap|, e.0, (i, e.1));
    s.(resIn := Pop(s.resIn, i), resOut := Push(s.resOut, e.0, (i, e.1)))
  }

  /** A request leaves the switch for its stack's request queue. */
  function TakeReq(s: Net, st: nat): (r: Net)
    requires Shaped(s) && st < |s.reqOut| && s.reqOut[st] != []
    ensures Shaped(r)
  {
    PopWithin(s.reqOut, |s.idMap|, st);
    InsertKeepsOrder(s.requested[st], s.reqOut[st][0].1);
    s.(reqOut := Pop(s.reqOut, st), requested := s.requested[st := Insert(s.requested[st], s.reqOut[st][0].1)])
  }

  /** Hand the answer for a to the reader of the entry the lookup finds; None: the lookup misses. */
  function Credit(s: Net, st: nat, a: nat): (r: Option<Net>)
    requires Shaped(s) && st < |s.idMap|
    ensures r.Some? ==> Shaped(r.value)
    ensures r.Some? <==> Tally(s.idMap[st], First(a)) > 0
  {
    match Find(s.idMap[st], a)
    case None => None
    case Some(k) =>
      var id := s.idMap[st][k].1;
      Some(s.(ready := s.ready[st := s.ready[st][id := s.ready[st][id] + multiset{a}]],
              idMap := s.idMap[st := s.idMap[st][..k] + s.idMap[st][k + 1..]]))
  }

  /** A response leaves the switch at a core. */
  function TakeRes(s: Net, core: nat): (r: Option<Net>)
    requires Shaped(s) && core < |s.resOut| && s.resOut[core] != []
    ensures r.Some? ==> Shaped(r.value)
  {
    var e := s.resOut[core][0];
    PopWithin(s.resOut, |s.idMap|, core);
    Credit(s.(resOut := Pop(s.resOut, core)), e.0, e.1)
  }

  /** The callback for a read of a: a reader of this core is credited, otherwise the response enters the switch. */
  function Respond(s: Net, st: nat, a: nat): (r: Option<Net>)
    requires Shaped(s) && st < |s.idMap|
    ensures r.Some? ==> Shaped(r.value)
  {
    match Find(s.idMap[st], a)
    case None => None
    case Some(k) =>
      var id := s.idMap[st][k].1;
      if s.useSwitch && s.coreOf[id] != st
      then PushWithin(s.resIn, |s.idMap|, st, (s.coreOf[id], a)); Some(s.(resIn := Push(s.resIn, st, (s.coreOf[id], a))))
      else Credit(s, st, a)
  }

  /** The stack answers a read of a. */
  function Complete(s: Net, st: nat, a: nat): (r: Option<Net>)
    requires Shaped(s) && st < |s.dram| && a in s.dram[st]
    ensures r.Some? ==> Shaped(r.value)
  {
    Respond(s.(dram := s.dram[st := s.dram[st] - multiset{a}]), st, a)
  }

  /** The stack's controller accepts the smallest waiting address. */
  function Accept(s: Net, st: nat): (r: Net)
    requires Shaped(s) && st < |s.requested| && s.requested[st] != []
    ensures Shaped(r)
  {
    s.(requested := s.requested[st := s.requested[st][1..]],
       dram := s.dram[st := s.dram[st] + multiset{s.requested[st][0]}])
  }

  /** Reader id asks stack st for address a. */
  function Request(s: Net, id: nat, st: nat, a: nat): (r: Net)
    requires Shaped(s) && id < |s.coreOf| && st < |s.idMap| && a < SENTINEL
    ensures Shaped(r)
  {
    var w := s.(idMap := s.idMap[st := s.idMap[st] + [(a, id)]]);
    if s.useSwitch && s.coreOf[id] != st
    then PushWithin(s.reqIn, |s.idMap|, s.coreOf[id], (st, a)); w.(reqIn := Push(s.reqIn, s.coreOf[id], (st, a)))
    else InsertKeepsOrder(s.requested[st], a); w.(requested := s.requested[st := Insert(s.requested[st], a)])
  }

  /** Reader id takes everything ready for it. */
  function Collect(s: Net, id: nat): (r: Net)
    requires Shaped(s) && id < |s.coreOf|
    ensures Shaped(r)
  {
    s.(ready := seq(|s.ready|, st requires 0 <= st < |s.ready| => s.ready[st][id := multiset{}]))
  }

  /** A new reader on the given core. */
  function Register(s: Net, core: nat): (r: Net)
    requires Shaped(s) && core < |s.idMap|
    ensures Shaped(r)
  {
    s.(coreOf := s.coreOf + [core], ready := seq(|s.ready|, st requires 0 <= st < |s.ready| => s.ready[st] + [multiset{}]))
  }

  // ---- Balance ----------------------------------------------------------------------------------------------------

  /** Reads of address a under way at stack st, wherever they are between request and response. */
  function UnderWay(s: Net, st: nat, a: nat): (n: nat)
    requires Shaped(s) && st < |s.idMap|
  {
    Sum(s.reqIn, Both(st, a)) + Tally(s.reqOut[st], Second(a)) + multiset(s.requested[st])[a]
    + s.dram[st][a] + Tally(s.resIn[st], Second(a)) + Sum(s.resOut, Both(st, a))
  }

  /** Reads of reader id that it has sent and not yet collected. */
  function Owed(s: Net, id: nat): (n: nat)
    requires Shaped(s) && id < |s.coreOf|
  {
    Sum(s.idMap, Second(id)) + SumReady(s.ready, id)
  }

  ghost predicate Balanced(s: Net, st: nat, a: nat)
    requires Shaped(s) && st < |s.idMap|
  {
    Tally(s.idMap[st], First(a)) == UnderWay(s, st, a)
  }

  /** The lookup table of every stack has exactly one entry per read under way. */
  ghost predicate Books(s: Net) {
    Shaped(s) && (forall st, a: nat :: 0 <= st < |s.idMap| ==> Balanced(s, st, a))
  }

  lemma SwitchReqKeepsBooks(s: Net, i: nat)
    requires Books(s) && i < |s.reqIn| && s.reqIn[i] != []
    ensures Books(SwitchReq(s, i))
  {
    var r := SwitchReq(s, i);
    var e := s.reqIn[i][0];
    forall st, a: nat | 0 <= st < |s.idMap| ensures Balanced(r, st, a) {
      assert Balanced(s, st, a);
      SumPop(s.reqIn, i, Both(st, a));
      TallyPush(s.reqOut[e.0], (i, e.1), Second(a));
    }
  }

  lemma SwitchResKeepsBooks(s: Net, i: nat)
    requires Books(s) && i < |s.resIn| && s.resIn[i] != []
    ensures Books(SwitchRes(s, i))
  {
    var r := SwitchRes(s, i);
    var e := s.resIn[i][0];
    forall st, a: nat | 0 <= st < |s.idMap| ensures Balanced(r, st, a) {
      assert Balanced(s, st, a);
      SumPush(s.resOut, e.0, (i, e.1), Both(st, a));
    }
  }

  lemma TakeReqKeepsBooks(s: Net, st: nat)
    requires Books(s) && st < |s.reqOut| && s.reqOut[st] != []
    ensures Books(TakeReq(s, st))
  {
    var r := TakeReq(s, st);
    forall w, a: nat | 0 <= w < |s.idMap| ensures Balanced(r, w, a) {
      assert Balanced(s, w, a);
    }
  }

  lemma AcceptKeepsBooks(s: Net, st: nat)
    requires Books(s) && st < |s.requested| && s.requested[st] != []
    ensures Books(Accept(s, st))
  {
    var r := Accept(s, st);
    assert s.requested[st] == [s.requested[st][0]] + s.requested[st][1..];
    forall w, a: nat | 0 <= w < |s.idMap| ensures Balanced(r, w, a) {
      assert Balanced(s, w, a);
    }
  }

  lemma RequestKeepsBooks(s: Net, id: nat, st: nat, a: nat)
    requires Books(s) && id < |s.coreOf| && st < |s.idMap| && a < SENTINEL
    ensures Books(Request(s, id, st, a))
    ensures Owed(Request(s, id, st, a), id) == Owed(s, id) + 1
    ensures forall other :: 0 <= other < |s.coreOf| && other != id ==> Owed(Request(s, id, st, a), other) == Owed(s, other)
  {
    var r := Request(s, id, st, a);
    forall w, b: nat | 0 <= w < |s.idMap| ensures Balanced(r, w, b) {
      assert Balanced(s, w, b);
      TallyPush(s.idMap[st], (a, id), First(b));
      SumPush(s.reqIn, s.coreOf[id], (st, a), Both(w, b));
    }
    forall other | 0 <= other < |s.coreOf| ensures Owed(r, other) == Owed(s, other) + Bit(other == id) {
      SumPush(s.idMap, st, (a, id), Second(other));
    }
  }

  /** Crediting removes one entry for the address, and moves one read of some reader from the table to its ready set. */
  lemma CreditBalances(s: Net, st: nat, a: nat)
    requires Shaped(s) && st < |s.idMap| && Credit(s, st, a).Some?
    ensures var r := Credit(s, st, a).value;
      && (forall w, b: nat :: 0 <= w < |s.idMap| ==>
            Tally(s.idMap[w], First(b)) == Tally(r.idMap[w], First(b)) + Bit(w == st && b == a))
      && (forall w, b: nat :: 0 <= w < |s.idMap| ==> UnderWay(r, w, b) == UnderWay(s, w, b))
      && (forall id :: 0 <= id < |s.coreOf| ==> Owed(r, id) == Owed(s, id))
  {
    var r := Credit(s, st, a).value;
    var k := Find(s.idMap[st], a).value;
    var who := s.idMap[st][k].1;
    forall w, b: nat | 0 <= w < |s.idMap|
      ensures Tally(s.idMap[w], First(b)) == Tally(r.idMap[w], First(b)) + Bit(w == st && b == a)
    {
      TallyErase(s.idMap[st], k, First(b));
    }
    forall id | 0 <= id < |s.coreOf| ensures Owed(r, id) == Owed(s, id) {
      SumUpdate(s.idMap, st, r.idMap[st], Second(id));
      TallyErase(s.idMap[st], k, Second(id));
      SumReadyUpdate(s.ready, st, r.ready[st], id);
    }
  }

  lemma UnderWayIsListed(s: Net, st: nat, a: nat)
    requires Books(s) && st < |s.idMap| && UnderWay(s, st, a) > 0
    ensures Find(s.idMap[st], a).Some?
  {
    assert Balanced(s, st, a);
  }

  /** A response at a core always finds an entry, though perhaps another reader's. */
  lemma TakeResNeverMisses(s: Net, core: nat)
    requires Books(s) && core < |s.resOut| && s.resOut[core] != []
    ensures TakeRes(s, core).Some? && Books(TakeRes(s, core).value)
    ensures forall id :: 0 <= id < |s.coreOf| ==> Owed(TakeRes(s, core).value, id) == Owed(s, id)
  {
    var e := s.resOut[core][0];
    SumIncludes(s.resOut, core, Both(e.0, e.1));
    UnderWayIsListed(s, e.0, e.1);
    PopWithin(s.resOut, |s.idMap|, core);
    var w := s.(resOut := Pop(s.resOut, core));
    CreditBalances(w, e.0, e.1);
    var r := TakeRes(s, core).value;
    forall st, a: nat | 0 <= st < |s.idMap| ensures Balanced(r, st, a) {
      assert Balanced(s, st, a);
      SumPop(s.resOut, core, Both(st, a));
      assert UnderWay(r, st, a) == UnderWay(w, st, a);
    }
    forall id | 0 <= id < |s.coreOf| ensures Owed(r, id) == Owed(s, id) {
      assert Owed(w, id) == Owed(s, id);
    }
  }

  /** An answer from a stack always finds an entry, so the callback's assertion holds. */
  lemma CompleteNeverMisses(s: Net, st: nat, a: nat)
    requires Books(s) && st < |s.dram| && a in s.dram[st]
    ensures Complete(s, st, a).Some? && Books(Complete(s, st, a).value)
    ensures forall id :: 0 <= id < |s.coreOf| ==> Owed(Complete(s, st, a).value, id) == Owed(s, id)
  {
    UnderWayIsListed(s, st, a);
    var w := s.(dram := s.dram[st := s.dram[st] - multiset{a}]);
    var r := Complete(s, st, a).value;
    var id := s.idMap[st][Find(s.idMap[st], a).value].1;
    if s.useSwitch && s.coreOf[id] != st {
      ForwardKeepsBooks(s, st, a, s.coreOf[id], r);
    } else {
      CreditKeepsBooks(s, st, a, w);
    }
  }

  lemma CreditKeepsBooks(s: Net, st: nat, a: nat, w: Net)
    requires Books(s) && st < |s.dram| && a in s.dram[st]
    requires w == s.(dram := s.dram[st := s.dram[st] - multiset{a}]) && Shaped(w) && Credit(w, st, a).Some?
    ensures Books(Credit(w, st, a).value)
    ensures forall id :: 0 <= id < |s.coreOf| ==> Owed(Credit(w, st, a).value, id) == Owed(s, id)
  {
    hide Tally, Sum, Credit, SumReady;
    CreditBalances(w, st, a);
    var r := Credit(w, st, a).value;
    SameSize(w, st, a);
    forall v, b: nat | 0 <= v < |s.idMap| ensures Balanced(r, v, b) {
      assert Balanced(s, v, b);
      assert UnderWay(r, v, b) == UnderWay(w, v, b);
    }
    forall i | 0 <= i < |s.coreOf| ensures Owed(r, i) == Owed(s, i) {
      assert Owed(w, i) == Owed(s, i);
    }
  }

  lemma SameSize(s: Net, st: nat, a: nat)
    requires Shaped(s) && st < |s.idMap| && Credit(s, st, a).Some?
    ensures |Credit(s, st, a).value.idMap| == |s.idMap| && Credit(s, st, a).value.coreOf == s.coreOf
  {}

  lemma ForwardKeepsBooks(s: Net, st: nat, a: nat, core: nat, r: Net)
    requires Books(s) && st < |s.dram| && a in s.dram[st]
    requires r == s.(dram := s.dram[st := s.dram[st] - multiset{a}], resIn := Push(s.resIn, st, (core, a))) && Shaped(r)
    ensures Books(r)
  {
    forall v, b: nat | 0 <= v < |s.idMap| ensures Balanced(r, v, b) {
      assert Balanced(s, v, b);
      TallyPush(s.resIn[st], (core, a), Second(b));
    }
  }

  lemma {:induction false} SumReadyCleared(ready: seq<seq<multiset<nat>>>, id: nat, cleared: seq<seq<multiset<nat>>>, other: nat)
    requires |cleared| == |ready|
    requires forall st :: 0 <= st < |ready| ==> id < |ready[st]| && other < |ready[st]|
    requires forall st :: 0 <= st < |ready| ==> cleared[st] == ready[st][id := multiset{}]
    ensures SumReady(cleared, other) == if other == id then 0 else SumReady(ready, other)
  {
    if ready != [] {
      SumReadyCleared(ready[1..], id, cleared[1..], other);
    }
  }

  lemma CollectKeepsBooks(s: Net, id: nat)
    requires Books(s) && id < |s.coreOf|
    ensures Books(Collect(s, id))
    ensures Owed(Collect(s, id), id) == Owed(s, id) - SumReady(s.ready, id)
    ensures forall other :: 0 <= other < |s.coreOf| && other != id ==> Owed(Collect(s, id), other) == Owed(s, other)
  {
    var r := Collect(s, id);
    forall st, a: nat | 0 <= st < |s.idMap| ensures Balanced(r, st, a) {
      assert Balanced(s, st, a);
    }
    forall other | 0 <= other < |s.coreOf|
      ensures SumReady(r.ready, other) == if other == id then 0 else SumReady(s.ready, other)
    {
      SumReadyCleared(s.ready, id, r.ready, other);
    }
  }

  lemma {:induction false} SumReadyExtended(ready: seq<seq<multiset<nat>>>, longer: seq<seq<multiset<nat>>>, ids: nat, id: nat)
    requires |longer| == |ready| && id <= ids
    requires forall st :: 0 <= st < |ready| ==> |ready[st]| == ids && longer[st] == ready[st] + [multiset{}]
    ensures SumReady(longer, id) == if id == ids then 0 else SumReady(ready, id)
  {
    if ready != [] {
      SumReadyExtended(ready[1..], longer[1..], ids, id);
    }
  }

  lemma {:induction false} NobodyKnown(idMap: seq<seq<Pair>>, id: nat)
    requires Known(idMap, id)
    ensures Sum(idMap, Second(id)) == 0
  {
    if idMap != [] {
      assert forall st :: 0 <= st < |idMap[1..]| ==> idMap[1..][st] == idMap[st + 1];
      NobodyKnown(idMap[1..], id);
      NoneTallied(idMap[0], Second(id));
    }
  }

  lemma RegisterKeepsBooks(s: Net, core: nat)
    requires Books(s) && core < |s.idMap|
    ensures Books(Register(s, core))
    ensures Owed(Register(s, core), |s.coreOf|) == 0
    ensures forall id :: 0 <= id < |s.coreOf| ==> Owed(Register(s, core), id) == Owed(s, id)
  {
    var r := Register(s, core);
    forall st, a: nat | 0 <= st < |s.idMap| ensures Balanced(r, st, a) {
      assert Balanced(s, st, a);
    }
    NobodyKnown(s.idMap, |s.coreOf|);
    forall id | 0 <= id <= |s.coreOf|
      ensures SumReady(r.ready, id) == if id == |s.coreOf| then 0 else SumReady(s.ready, id)
    {
      SumReadyExtended(s.ready, r.ready, |s.coreOf|, id);
    }
  }
}
