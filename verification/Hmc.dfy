/** The cube as an object: insertion, the drain loops of the crossbar, the vault callback and the two-clock tick. */
module HmcImpl {
  import opened Commands
  import opened Counting
  import opened HmcCube
  import opened HmcPace

  /** One history and one busy counter per port. */
  ghost predicate PortsOk(h: seq<seq<nat>>, busy: seq<int>, cycles: nat) {
    |h| == |busy| && forall i :: 0 <= i < |h| ==> |h[i]| == cycles && Paced(h[i], busy[i])
  }

  lemma PortsNext(h: seq<seq<nat>>, busy: seq<int>, cycles: nat, g: seq<seq<nat>>, drained: seq<int>)
    requires PortsOk(h, busy, cycles) && |g| == |h| == |drained|
    requires forall i :: 0 <= i < |h| ==> g[i] == h[i] + [0] && drained[i] == Drained(busy[i])
    ensures PortsOk(g, drained, cycles + 1)
  {
    forall i | 0 <= i < |g| ensures |g[i]| == cycles + 1 && Paced(g[i], drained[i]) { NextCycle(h[i], busy[i]); }
  }

  function Credit(h: seq<seq<nat>>, i: nat, f: nat): (g: seq<seq<nat>>)
    requires i < |h| && h[i] != []
  {
    var last := |h[i]| - 1;
    var row: seq<nat> := h[i][last := h[i][last] + f];
    h[i := row]
  }

  lemma PortsAdmit(h: seq<seq<nat>>, busy: seq<int>, cycles: nat, i: nat, f: nat)
    requires PortsOk(h, busy, cycles) && cycles > 0 && i < |h| && busy[i] <= 0 && f <= MAX_FLITS
    ensures PortsOk(Credit(h, i, f), busy[i := f], cycles)
  {
    Admit(h[i], busy[i], f);
  }

  /** Every accepted request has been answered or has exactly one response still to come. */
  ghost predicate Ledger(c: Cube, inserted: multiset<Resp>, delivered: multiset<Resp>) {
    forall x :: inserted[x] == delivered[x] + Outstanding(c, x)
  }

  /** Port p cannot take a packet now. */
  ghost predicate Shut<T>(outs: seq<seq<T>>, busy: seq<int>, depth: nat, p: nat) {
    p < |outs| == |busy| && (|outs[p]| >= depth || busy[p] > 0)
  }

  /** What is left of a source after its turn: the front has crossed, or the port it goes to is shut. */
  ghost predicate Turned<A, B>(now: seq<A>, before: seq<A>, outs: seq<seq<B>>, busy: seq<int>, depth: nat, dest: A -> nat) {
    (before != [] && now == before[1..]) || (now == before && (before != [] ==> Shut(outs, busy, depth, dest(before[0]))))
  }

  /** No port that was shut has opened. */
  ghost predicate NoneFreed<T>(outs: seq<seq<T>>, busy: seq<int>, outs2: seq<seq<T>>, busy2: seq<int>) {
    && |outs2| == |outs| == |busy| == |busy2|
    && forall p :: 0 <= p < |outs| ==> |outs2[p]| >= |outs[p]| && (busy[p] > 0 ==> busy2[p] > 0)
  }

  lemma TurnedStays<A, B>(now: seq<A>, before: seq<A>, outs: seq<seq<B>>, busy: seq<int>, outs2: seq<seq<B>>, busy2: seq<int>,
                          depth: nat, dest: A -> nat)
    requires Turned(now, before, outs, busy, depth, dest) && NoneFreed(outs, busy, outs2, busy2)
    ensures Turned(now, before, outs2, busy2, depth, dest)
  {}

  lemma NothingTurned<A, B>(outs: seq<seq<B>>, busy: seq<int>, depth: nat, dest: A -> nat)
    ensures Turned([], [], outs, busy, depth, dest)
  {}

  function QuadOf(): Req -> nat { (r: Req) => r.Quad() }

  function LinkOf(): Resp -> nat { (r: Resp) => r.link }

  /** Every busy port moves two flits on. */
  method DrainPorts(busy: seq<int>) returns (drained: seq<int>)
    ensures |drained| == |busy| && forall i :: 0 <= i < |busy| ==> drained[i] == Drained(busy[i])
  {
    drained := busy;
    var i := 0;
    while i < |drained|
      invariant i <= |drained| == |busy|
      invariant forall k :: 0 <= k < |busy| ==> drained[k] == if k < i then Drained(busy[k]) else busy[k]
    {
      if drained[i] > 0 { drained := drained[i := drained[i] - 2]; }
      i := i + 1;
    }
  }

  /** The histories with a new cycle opened. */
  ghost function Opened(h: seq<seq<nat>>): (g: seq<seq<nat>>)
    ensures |g| == |h| && forall i :: 0 <= i < |h| ==> g[i] == h[i] + [0]
  {
    seq(|h|, i requires 0 <= i < |h| => h[i] + [0])
  }

  /** Link at has room, and no link between the next in turn and it has. */
  ghost predicate FirstWithRoom(queues: seq<seq<Req>>, depth: nat, next: nat, at: nat)
    requires next < |queues| && at < |queues|
  {
    && |queues[at]| < depth
    && exists k :: 0 <= k < |queues| && at == Around(next, k, |queues|)
         && forall i :: 0 <= i < k ==> |queues[Around(next, i, |queues|)]| >= depth
  }

  lemma RoomAfter(queues: seq<seq<Req>>, depth: nat, next: nat, k: nat)
    requires next < |queues| && k < |queues| && forall i :: 0 <= i < k ==> |queues[Around(next, i, |queues|)]| >= depth
    ensures |queues[Around(next, k, |queues|)]| < depth ==> FirstWithRoom(queues, depth, next, Around(next, k, |queues|))
  {}

  lemma EveryTurn(queues: seq<seq<Req>>, depth: nat, next: nat)
    requires next < |queues| && forall i :: 0 <= i < |queues| ==> |queues[Around(next, i, |queues|)]| >= depth
    ensures forall l :: 0 <= l < |queues| ==> |queues[l]| >= depth
  {
    forall l | 0 <= l < |queues| ensures |queues[l]| >= depth {
      var i := if l >= next then l - next else l + |queues| - next;
      assert l == Around(next, i, |queues|);
    }
  }

  class HmcMemorySystem {
    const depth: nat
    const links: nat
    const psPerLogic: nat
    var linkReq: seq<seq<Req>>
    var linkAge: seq<nat>
    var linkResp: seq<seq<Resp>>
    var quadReq: seq<seq<Req>>
    var quadAge: seq<nat>
    var quadResp: seq<seq<Resp>>
    var vaults: seq<seq<Req>>
    var lookup: seq<Resp>
    var quadBusy: seq<int>
    var linkBusy: seq<int>
    var nextLink: nat
    var logicClk: nat
    var logicPs: nat
    var dramPs: nat
    var clk: nat                         // memory cycles
    ghost var inserted: multiset<Resp>   // responses the accepted requests are owed
    ghost var delivered: multiset<Resp>  // responses handed to the processor, with the link they left on
    ghost var quadIn: seq<seq<nat>>      // flits admitted to each quad per logic cycle
    ghost var linkIn: seq<seq<nat>>      // flits admitted to each response link per logic cycle

    ghost function State(): Cube
      reads this
    {
      Cube(depth, linkReq, linkAge, linkResp, quadReq, quadAge, quadResp, vaults, lookup)
    }

    ghost predicate ClocksOk()
      reads this
    {
      0 < psPerLogic <= PS_PER_DRAM && logicPs == logicClk * psPerLogic && dramPs <= logicPs < dramPs + psPerLogic
    }

    ghost predicate Core()
      reads this
    {
      && Books(State()) && Ledger(State(), inserted, delivered) && nextLink < links
      && |linkReq| == |linkAge| == |linkResp| == links && |quadReq| == |quadAge| == |quadResp| == QUADS
    }

    constructor (depth: nat, links: nat, vaultCount: nat, linkWidth: nat, linkSpeed: nat)
      requires links >= 1 && 1 <= linkWidth <= 128 && 0 < linkSpeed / (128 / linkWidth) <= 1000000
      ensures Valid() && dramPs == 0 && inserted == delivered == multiset{}
    {
      this.depth, this.links, this.psPerLogic := depth, links, PsPerLogic(linkWidth, linkSpeed);
      linkReq, linkAge, linkResp := seq(links, _ => []), seq(links, _ => 0), seq(links, _ => []);
      quadReq, quadAge, quadResp := seq(QUADS, _ => []), seq(QUADS, _ => 0), seq(QUADS, _ => []);
      vaults, lookup := seq(vaultCount, _ => []), [];
      quadBusy, linkBusy := seq(QUADS, _ => 0), seq(links, _ => 0);
      nextLink, logicClk, logicPs, dramPs, clk := 0, 0, 0, 0, 0;
      inserted, delivered := multiset{}, multiset{};
      quadIn, linkIn := seq(QUADS, _ => []), seq(links, _ => []);
      new;
      forall a ensures Balanced(State(), a) {
        SumEmpty(linkReq, ReqAt(a));
        SumEmpty(quadReq, ReqAt(a));
        SumEmpty(vaults, ReqAt(a));
      }
      forall x ensures Outstanding(State(), x) == 0 {
        SumEmpty(quadResp, Like(x));
        SumEmpty(linkResp, Like(x));
      }
    }

    // ---- Insertion ------------------------------------------------------------------------------------------------

    method WillAcceptTransaction() returns (insertable: bool)
      requires Core()
      ensures insertable <==> exists l :: 0 <= l < links && |linkReq[l]| < depth
    {
      insertable := false;
      var l := 0;
      while l < links
        invariant 0 <= l <= links && !insertable && forall k :: 0 <= k < l ==> |linkReq[k]| >= depth
      {
        if |linkReq[l]| < depth { insertable := true; break; }
        l := l + 1;
      }
    }

    method InsertReqToLink(r: Req, l: nat) returns (ok: bool)
      requires Core() && l < links && ReqOk(r, |vaults|)
      modifies this`linkReq, this`linkAge, this`lookup, this`inserted
      ensures Core() && ok == (|old(linkReq)[l]| < depth)
      ensures ok ==> State() == Insert(old(State()), r, l)
      ensures ok ==> exists x :: Owes(r, l, x) && inserted == old(inserted) + multiset{x}
      ensures !ok ==> State() == old(State()) && inserted == old(inserted)
    {
      hide Books, Ledger;
      if |linkReq[l]| < depth {
        InsertFacts(State(), r, l, inserted, delivered);
        RespForOwes(r, l);
        var req := r.(link := l);
        linkReq := linkReq[l := linkReq[l] + [req]];
        lookup := lookup + [RespFor(req)];
        linkAge := linkAge[l := 1];
        inserted := inserted + multiset{RespFor(req)};
        ok := true;
      } else {
        ok := false;
      }
    }

    method IterateNextLink()
      requires nextLink < links
      modifies this`nextLink
      ensures nextLink == if old(nextLink) + 1 == links then 0 else old(nextLink) + 1
    {
      ModStep(nextLink + 1, links);
      nextLink := (nextLink + 1) % links;
    }

    ghost predicate AllFull()
      reads this
    {
      forall l :: 0 <= l < |linkReq| ==> |linkReq[l]| >= depth
    }

    /** Tries the next link in turn and moves on. */
    method TryNext(r: Req) returns (ok: bool)
      requires Core() && ReqOk(r, |vaults|)
      modifies this`linkReq, this`linkAge, this`lookup, this`inserted, this`nextLink
      ensures Core() && ok == (|old(linkReq)[old(nextLink)]| < depth)
      ensures ok ==> State() == Insert(old(State()), r, old(nextLink))
      ensures ok ==> exists x :: Owes(r, old(nextLink), x) && inserted == old(inserted) + multiset{x}
      ensures !ok ==> State() == old(State()) && inserted == old(inserted)
      ensures nextLink == if old(nextLink) + 1 == links then 0 else old(nextLink) + 1
    {
      hide Books, Insert, Ledger, Owes, ReqOk;
      ok := InsertReqToLink(r, nextLink);
      IterateNextLink();
    }

    /** Tries every link once from the next in turn on; refused exactly when all are full. */
    method InsertHMCReq(r: Req) returns (ok: bool, ghost at: nat)
      requires Core() && ReqOk(r, |vaults|)
      modifies this`linkReq, this`linkAge, this`lookup, this`inserted, this`nextLink
      ensures Core() && ok == !old(AllFull())
      ensures ok ==> at < links && FirstWithRoom(old(linkReq), depth, old(nextLink), at) && State() == Insert(old(State()), r, at)
      ensures ok ==> exists x :: Owes(r, at, x) && inserted == old(inserted) + multiset{x}
      ensures nextLink == if !ok then old(nextLink) else if at + 1 == links then 0 else at + 1
      ensures !ok ==> State() == old(State()) && inserted == old(inserted)
    {
      hide Books, Insert, Ledger, Owes, FirstWithRoom, ReqOk;
      at := nextLink;
      var start := nextLink;
      ok := TryNext(r);
      RoomAfter(old(linkReq), depth, start, 0);
      if ok { return; }
      ghost var k := 1;
      while start != nextLink
        invariant Core() && State() == old(State()) && inserted == old(inserted) && !ok
        invariant 1 <= k <= links && nextLink == (if k == links then start else Around(start, k, links))
        invariant forall i :: 0 <= i < k ==> |linkReq[Around(start, i, links)]| >= depth
        decreases links - k
      {
        at := nextLink;
        ok := TryNext(r);
        if ok {
          RoomAfter(old(linkReq), depth, start, k);
          return;
        }
        k := k + 1;
      }
      EveryTurn(linkReq, depth, start);
    }

    // ---- Requests -------------------------------------------------------------------------------------------------

    /** Quad i's front request may enter its vault this cycle. */
    ghost predicate MayEnter(i: nat, accepts: (nat, nat) -> bool)
      reads this
      requires i < |quadReq| && i < |quadResp|
    {
      && quadReq[i] != [] && |quadResp[i]| < depth && quadReq[i][0].exit <= logicClk
      && accepts(quadReq[i][0].vault, quadReq[i][0].addr)
    }

    method EnterVaults(accepts: (nat, nat) -> bool)
      requires Core()
      modifies this`quadReq, this`vaults
      ensures Core() && |vaults| == |old(vaults)|
      ensures forall i :: 0 <= i < QUADS ==> quadReq[i] == if old(MayEnter(i, accepts)) then old(quadReq)[i][1..] else old(quadReq)[i]
    {
      hide Ledger, Books;
      var i := 0;
      while i < QUADS
        invariant i <= QUADS && Core() && |vaults| == |old(vaults)|
        invariant forall k :: 0 <= k < i ==> quadReq[k] == if old(MayEnter(k, accepts)) then old(quadReq)[k][1..] else old(quadReq)[k]
        invariant forall k :: i <= k < QUADS ==> quadReq[k] == old(quadReq)[k]
      {
        if quadReq[i] != [] && |quadResp[i]| < depth {
          var r := quadReq[i][0];
          if r.exit <= logicClk {
            if accepts(r.vault, r.addr) { EnterVault(i); }
          }
        }
        i := i + 1;
      }
    }

    method EnterVault(i: nat)
      requires Core() && i < QUADS && quadReq[i] != []
      modifies this`quadReq, this`vaults
      ensures Core() && |vaults| == |old(vaults)| && quadReq == old(quadReq)[i := old(quadReq)[i][1..]]
    {
      var r := quadReq[i][0];
      EnterKeepsBooks(State(), i);
      SameLedger(State(), Enter(State(), i), inserted, delivered);
      vaults := vaults[r.vault := vaults[r.vault] + [r]];
      quadReq := quadReq[i := quadReq[i][1..]];
    }

    /** One source's turn: its front request crosses, or it grows older. */
    method CrossOne(l: nat)
      requires Core() && l < links && linkReq[l] != []
      requires PortsOk(quadIn, quadBusy, logicClk + 1) && |quadBusy| == QUADS
      modifies this`linkReq, this`linkAge, this`quadReq, this`quadBusy, this`quadIn
      ensures Core() && PortsOk(quadIn, quadBusy, logicClk + 1) && |quadBusy| == QUADS
      ensures linkReq == old(linkReq)[l := linkReq[l]] && NoneFreed(old(quadReq), old(quadBusy), quadReq, quadBusy)
      ensures linkReq[l] == old(linkReq)[l] <==> Shut(old(quadReq), old(quadBusy), depth, old(linkReq)[l][0].Quad())
      ensures Turned(linkReq[l], old(linkReq)[l], quadReq, quadBusy, depth, QuadOf())
    {
      hide Books, Ledger, PortsOk, SameOutstanding;
      AgesMean(State());
      var q := linkReq[l][0].Quad();
      if |quadReq[q]| < depth && quadBusy[q] <= 0 {
        CrossNow(l);
      } else {
        StallKeepsBooks(State(), Age(linkAge, l), quadAge);
        SameLedger(State(), State().(linkAge := Age(linkAge, l)), inserted, delivered);
        linkAge := linkAge[l := linkAge[l] + 1];
      }
    }

    method CrossNow(l: nat)
      requires Core() && l < links && linkReq[l] != []
      requires PortsOk(quadIn, quadBusy, logicClk + 1) && |quadBusy| == QUADS
      requires |quadReq[linkReq[l][0].Quad()]| < depth && quadBusy[linkReq[l][0].Quad()] <= 0
      modifies this`linkReq, this`linkAge, this`quadReq, this`quadBusy, this`quadIn
      ensures Core() && PortsOk(quadIn, quadBusy, logicClk + 1)
      ensures State() == Cross(old(State()), l, logicClk)
      ensures var r := old(linkReq)[l][0]; var q := quadReq[r.vault % 4];
        q[|q| - 1] == r.(exit := logicClk + ReqFlits(r.kind))
      ensures quadBusy == old(quadBusy)[old(linkReq)[l][0].Quad() := ReqFlits(old(linkReq)[l][0].kind)]
    {
      hide Books, Ledger, PortsOk;
      CrossFacts(State(), l, logicClk, inserted, delivered, quadIn, quadBusy);
      var r := linkReq[l][0];
      var q, flits := r.Quad(), ReqFlits(r.kind);
      linkReq := linkReq[l := linkReq[l][1..]];
      quadReq := quadReq[q := quadReq[q] + [r.(exit := logicClk + flits)]];
      quadBusy := quadBusy[q := flits];
      quadIn := Credit(quadIn, q, flits);
      if linkReq[l] == [] { linkAge := linkAge[l := 0]; } else { linkAge := linkAge[l := 1]; }
    }

    /** Every waiting link gets one turn; none is left whose quad could still take its front request. */
    method CrossLinks()
      requires Core() && PortsOk(quadIn, quadBusy, logicClk + 1) && |quadBusy| == QUADS
      modifies this`linkReq, this`linkAge, this`quadReq, this`quadBusy, this`quadIn
      ensures Core() && PortsOk(quadIn, quadBusy, logicClk + 1) && |quadBusy| == QUADS
      ensures forall l :: 0 <= l < links ==> Turned(linkReq[l], old(linkReq)[l], quadReq, quadBusy, depth, QuadOf())
    {
      hide Ledger, PortsOk, Books, Turned, NoneFreed, Shut;
      AgesMean(State());
      var queue: seq<nat> := BuildAgeQueue(linkAge, logicClk);
      ghost var was := linkReq;
      ghost var done: set<nat> := {};
      while queue != []
        invariant Core() && PortsOk(quadIn, quadBusy, logicClk + 1) && |quadBusy| == QUADS && Distinct(queue)
        invariant forall l :: l in queue ==> l < links && l !in done && linkReq[l] == was[l] != []
        invariant forall l :: 0 <= l < links && l !in queue && l !in done ==> linkReq[l] == was[l] == []
        invariant forall l :: l in done ==> l < links && Turned(linkReq[l], was[l], quadReq, quadBusy, depth, QuadOf())
        decreases |queue|
      {
        var src := queue[0];
        assert src in queue;
        forall l | l in queue[1..] ensures l in queue && l != src {}
        ghost var outs, busy := quadReq, quadBusy;
        CrossOne(src);
        forall l | l in done ensures Turned(linkReq[l], was[l], quadReq, quadBusy, depth, QuadOf()) {
          TurnedStays(linkReq[l], was[l], outs, busy, quadReq, quadBusy, depth, QuadOf());
        }
        done := done + {src};
        queue := queue[1..];
      }
      NothingTurned(quadReq, quadBusy, depth, QuadOf());
    }

    /** One logic cycle of the request side. */
    method DrainRequests(accepts: (nat, nat) -> bool)
      requires Core() && PortsOk(quadIn, quadBusy, logicClk) && |quadBusy| == QUADS
      modifies this`linkReq, this`linkAge, this`quadReq, this`quadBusy, this`quadIn, this`vaults
      ensures Core() && PortsOk(quadIn, quadBusy, logicClk + 1) && |quadBusy| == QUADS && |vaults| == |old(vaults)|
      ensures forall l :: 0 <= l < links ==> Turned(linkReq[l], old(linkReq)[l], quadReq, quadBusy, depth, QuadOf())
    {
      hide Ledger, Paced, Books, Turned;
      EnterVaults(accepts);
      var drained := DrainPorts(quadBusy);
      PortsNext(quadIn, quadBusy, logicClk, Opened(quadIn), drained);
      quadBusy, quadIn := drained, Opened(quadIn);
      CrossLinks();
    }

    // ---- Responses ------------------------------------------------------------------------------------------------

    /** A vault has finished an address: the lookup always finds its response. */
    method VaultCallback(a: nat)
      requires Shaped(State()) && Callback(State(), a).Some?
      modifies this`lookup, this`quadResp, this`quadAge
      ensures Some(State()) == Callback(old(State()), a)
    {
      var k := Find(lookup, a).value;
      var resp := lookup[k];
      assert resp in lookup;
      lookup := lookup[..k] + lookup[k + 1..];
      quadResp := quadResp[resp.quad := quadResp[resp.quad] + [resp]];
      quadAge := quadAge[resp.quad := 1];
    }

    /** One memory cycle: the vaults answer, `picks` naming in order a vault and which of its requests is done. */
    method DRAMClockTick(picks: seq<(nat, nat)>)
      requires Core()
      modifies this`lookup, this`quadResp, this`quadAge, this`vaults, this`clk
      ensures Core() && clk == old(clk) + 1 && State() == AnswerAll(old(State()), picks)
    {
      hide Sum, Tally, Balanced, Outstanding, Shaped, Placed, Answer, SameOutstanding, Ledger;
      var i := 0;
      while i < |picks|
        invariant i <= |picks| && Core() && clk == old(clk) && State() == AnswerAll(old(State()), picks[..i])
      {
        assert picks[..i + 1][..i] == picks[..i];
        var (v, k) := picks[i];
        if v < |vaults| && k < |vaults[v]| { AnswerOne(v, k); }
        i := i + 1;
      }
      assert picks[..i] == picks;
      clk := clk + 1;
    }

    method AnswerOne(v: nat, k: nat)
      requires Core() && v < |vaults| && k < |vaults[v]|
      modifies this`lookup, this`quadResp, this`quadAge, this`vaults
      ensures Core() && Some(State()) == Answer(old(State()), v, k)
    {
      hide Sum, Tally, Balanced, Outstanding;
      AnswerNeverMisses(State(), v, k);
      SameLedger(State(), Answer(State(), v, k).value, inserted, delivered);
      var a := vaults[v][k].addr;
      vaults := vaults[v := vaults[v][..k] + vaults[v][k + 1..]];
      VaultCallback(a);
    }

    ghost predicate MayLeave(l: nat)
      reads this
      requires l < |linkResp|
    {
      linkResp[l] != [] && linkResp[l][0].exit <= logicClk
    }

    /** Each response link hands over at most one response that has crossed in full. */
    method DeliverResponses()
      requires Core()
      modifies this`linkResp, this`delivered
      ensures Core()
      ensures forall l :: 0 <= l < links ==> linkResp[l] == if old(MayLeave(l)) then old(linkResp)[l][1..] else old(linkResp)[l]
    {
      hide Ledger, Books;
      var i := 0;
      while i < links
        invariant i <= links && Core()
        invariant forall k :: 0 <= k < i ==> linkResp[k] == if old(MayLeave(k)) then old(linkResp)[k][1..] else old(linkResp)[k]
        invariant forall k :: i <= k < links ==> linkResp[k] == old(linkResp)[k]
      {
        if linkResp[i] != [] && linkResp[i][0].exit <= logicClk { DeliverOne(i); }
        i := i + 1;
      }
    }

    method DeliverOne(l: nat)
      requires Core() && l < links && linkResp[l] != []
      modifies this`linkResp, this`delivered
      ensures Core() && linkResp == old(linkResp)[l := old(linkResp)[l][1..]]
      ensures delivered == old(delivered) + multiset{old(linkResp)[l][0].(exit := 0, link := l)}
    {
      DeliverKeepsBooks(State(), l);
      delivered := delivered + multiset{linkResp[l][0].(exit := 0, link := l)};
      linkResp := linkResp[l := linkResp[l][1..]];
    }

    method CrossBackNow(q: nat)
      requires Core() && q < QUADS && quadResp[q] != [] && quadResp[q][0].link < links
      requires PortsOk(linkIn, linkBusy, logicClk + 1) && |linkBusy| == links
      requires |linkResp[quadResp[q][0].link]| < depth && linkBusy[quadResp[q][0].link] <= 0
      modifies this`quadResp, this`quadAge, this`linkResp, this`linkBusy, this`linkIn
      ensures Core() && PortsOk(linkIn, linkBusy, logicClk + 1)
      ensures State() == CrossBack(old(State()), q, logicClk)
      ensures var r := old(quadResp)[q][0]; var w := linkResp[r.link];
        w[|w| - 1] == r.(exit := logicClk + r.flits)
      ensures linkBusy == old(linkBusy)[old(quadResp)[q][0].link := old(quadResp)[q][0].flits]
    {
      hide Books, Ledger, PortsOk;
      CrossBackFacts(State(), q, logicClk, inserted, delivered, linkIn, linkBusy);
      var r := quadResp[q][0];
      quadResp := quadResp[q := quadResp[q][1..]];
      linkResp := linkResp[r.link := linkResp[r.link] + [r.(exit := logicClk + r.flits)]];
      linkBusy := linkBusy[r.link := r.flits];
      linkIn := Credit(linkIn, r.link, r.flits);
      if quadResp[q] == [] { quadAge := quadAge[q := 0]; } else { quadAge := quadAge[q := 1]; }
    }

    method CrossBackOne(q: nat)
      requires Core() && q < QUADS && quadResp[q] != []
      requires PortsOk(linkIn, linkBusy, logicClk + 1) && |linkBusy| == links
      modifies this`quadResp, this`quadAge, this`linkResp, this`linkBusy, this`linkIn
      ensures Core() && PortsOk(linkIn, linkBusy, logicClk + 1) && |linkBusy| == links
      ensures old(quadResp)[q][0].link < links
      ensures quadResp == old(quadResp)[q := quadResp[q]] && NoneFreed(old(linkResp), old(linkBusy), linkResp, linkBusy)
      ensures quadResp[q] == old(quadResp)[q] <==> Shut(old(linkResp), old(linkBusy), depth, old(quadResp)[q][0].link)
      ensures Turned(quadResp[q], old(quadResp)[q], linkResp, linkBusy, depth, LinkOf())
    {
      hide Books, Ledger, PortsOk, SameOutstanding;
      FrontLink(State(), q);
      AgesMean(State());
      var l := quadResp[q][0].link;
      if |linkResp[l]| < depth && linkBusy[l] <= 0 {
        CrossBackNow(q);
      } else {
        StallKeepsBooks(State(), linkAge, Age(quadAge, q));
        SameLedger(State(), State().(quadAge := Age(quadAge, q)), inserted, delivered);
        quadAge := quadAge[q := quadAge[q] + 1];
      }
    }

    method CrossQuads()
      requires Core() && PortsOk(linkIn, linkBusy, logicClk + 1) && |linkBusy| == links
      modifies this`quadResp, this`quadAge, this`linkResp, this`linkBusy, this`linkIn
      ensures Core() && PortsOk(linkIn, linkBusy, logicClk + 1) && |linkBusy| == links
      ensures forall q :: 0 <= q < QUADS ==> Turned(quadResp[q], old(quadResp)[q], linkResp, linkBusy, depth, LinkOf())
    {
      hide Ledger, PortsOk, Books, Turned, NoneFreed, Shut;
      AgesMean(State());
      var queue: seq<nat> := BuildAgeQueue(quadAge, logicClk);
      ghost var was := quadResp;
      ghost var done: set<nat> := {};
      while queue != []
        invariant Core() && PortsOk(linkIn, linkBusy, logicClk + 1) && |linkBusy| == links && Distinct(queue)
        invariant forall q :: q in queue ==> q < QUADS && q !in done && quadResp[q] == was[q] != []
        invariant forall q :: 0 <= q < QUADS && q !in queue && q !in done ==> quadResp[q] == was[q] == []
        invariant forall q :: q in done ==> q < QUADS && Turned(quadResp[q], was[q], linkResp, linkBusy, depth, LinkOf())
        decreases |queue|
      {
        var src := queue[0];
        assert src in queue;
        forall q | q in queue[1..] ensures q in queue && q != src {}
        ghost var outs, busy := linkResp, linkBusy;
        CrossBackOne(src);
        forall q | q in done ensures Turned(quadResp[q], was[q], linkResp, linkBusy, depth, LinkOf()) {
          TurnedStays(quadResp[q], was[q], outs, busy, linkResp, linkBusy, depth, LinkOf());
        }
        done := done + {src};
        queue := queue[1..];
      }
      NothingTurned(linkResp, linkBusy, depth, LinkOf());
    }

    /** One logic cycle of the response side. */
    method DrainResponses()
      requires Core() && PortsOk(linkIn, linkBusy, logicClk) && |linkBusy| == links
      modifies this`quadResp, this`quadAge, this`linkResp, this`linkBusy, this`linkIn, this`delivered
      ensures Core() && PortsOk(linkIn, linkBusy, logicClk + 1) && |linkBusy| == links
      ensures forall q :: 0 <= q < QUADS ==> Turned(quadResp[q], old(quadResp)[q], linkResp, linkBusy, depth, LinkOf())
    {
      hide Ledger, Paced, Books, Turned;
      DeliverResponses();
      var drained := DrainPorts(linkBusy);
      PortsNext(linkIn, linkBusy, logicClk, Opened(linkIn), drained);
      linkBusy, linkIn := drained, Opened(linkIn);
      CrossQuads();
    }

    // ---- The two clocks -------------------------------------------------------------------------------------------

    ghost predicate Valid()
      reads this
    {
      && Core() && ClocksOk() && |quadBusy| == QUADS && |linkBusy| == links
      && PortsOk(quadIn, quadBusy, logicClk) && PortsOk(linkIn, linkBusy, logicClk)
    }

    /** A logic cycle away from a memory cycle. */
    method LogicTick(accepts: (nat, nat) -> bool)
      requires Core() && |quadBusy| == QUADS && |linkBusy| == links
      requires PortsOk(quadIn, quadBusy, logicClk) && PortsOk(linkIn, linkBusy, logicClk)
      modifies this
      ensures Core() && |quadBusy| == QUADS && |linkBusy| == links && |vaults| == |old(vaults)|
      ensures PortsOk(quadIn, quadBusy, logicClk) && PortsOk(linkIn, linkBusy, logicClk)
      ensures logicClk == old(logicClk) + 1 && logicPs == old(logicPs) + psPerLogic && dramPs == old(dramPs) && clk == old(clk)
      ensures inserted == old(inserted)
    {
      hide Ledger, Books, PortsOk;
      DrainResponses();
      DrainRequests(accepts);
      logicPs := logicPs + psPerLogic;
      logicClk := logicClk + 1;
    }

    /** The memory's cycle, with a logic cycle around it when the two fall together. */
    method MemoryTick(picks: seq<(nat, nat)>, accepts: nat -> (nat, nat) -> bool)
      requires Valid()
      modifies this
      ensures Core() && |quadBusy| == QUADS && |linkBusy| == links && inserted == old(inserted)
      ensures PortsOk(quadIn, quadBusy, logicClk) && PortsOk(linkIn, linkBusy, logicClk)
      ensures logicPs == logicClk * psPerLogic && dramPs == old(dramPs) && clk == old(clk) + 1
      ensures logicClk == if old(dramPs == logicPs) then old(logicClk) + 1 else old(logicClk)
    {
      hide Ledger, Books, PortsOk, AnswerAll, Turned, Drained;
      if dramPs == logicPs {
        DrainResponses();
        DRAMClockTick(picks);
        DrainRequests(accepts(logicClk));
        Times(logicClk, 1, psPerLogic);
        logicPs := logicPs + psPerLogic;
        logicClk := logicClk + 1;
      } else {
        DRAMClockTick(picks);
      }
    }

    /** As many logic cycles as fit before the next memory cycle; the first may share its time with the memory's. */
    method ClockTick(picks: seq<(nat, nat)>, accepts: nat -> (nat, nat) -> bool)
      requires Valid()
      modifies this
      ensures Valid() && dramPs == old(dramPs) + 800 && clk == old(clk) + 1 && inserted == old(inserted)
      ensures logicClk == RoundUp(dramPs, psPerLogic)
    {
      hide Ledger, Books, PortsOk;
      MemoryTick(picks, accepts);
      while logicPs < dramPs + PS_PER_DRAM
        invariant Core() && |quadBusy| == QUADS && |linkBusy| == links && inserted == old(inserted)
        invariant PortsOk(quadIn, quadBusy, logicClk) && PortsOk(linkIn, linkBusy, logicClk)
        invariant dramPs == old(dramPs) && logicPs == logicClk * psPerLogic && clk == old(clk) + 1
        invariant logicPs < dramPs + PS_PER_DRAM + psPerLogic
        decreases dramPs + PS_PER_DRAM + psPerLogic - logicPs
      {
        Times(logicClk, 1, psPerLogic);
        LogicTick(accepts(logicClk));
      }
      dramPs := dramPs + PS_PER_DRAM;
      RoundUpIs(dramPs, psPerLogic, logicClk);
    }

    /** Over any cycles a up to b, a port takes at most two flits a cycle beyond one largest packet. */
    lemma PortBandwidth(i: nat, a: nat, b: nat)
      requires Valid() && a < b <= logicClk
      ensures i < QUADS ==> Flits(quadIn[i][a..b]) <= 2 * (b - a - 1) + MAX_FLITS
      ensures i < links ==> Flits(linkIn[i][a..b]) <= 2 * (b - a - 1) + MAX_FLITS
    {
      assert i < QUADS ==> WindowOk(quadIn[i], a, b);
      assert i < links ==> WindowOk(linkIn[i], a, b);
    }

    /** When the queues and vaults are empty, every accepted request has been answered exactly once. */
    lemma AllAnswered()
      requires Valid()
      requires forall l :: 0 <= l < links ==> linkReq[l] == [] && linkResp[l] == []
      requires forall q :: 0 <= q < QUADS ==> quadReq[q] == [] && quadResp[q] == []
      requires forall v :: 0 <= v < |vaults| ==> vaults[v] == []
      ensures inserted == delivered
    {
      FirstCounts(lookup);
      if lookup != [] {
        var a := lookup[0].addr;
        assert Balanced(State(), a);
        SumEmpty(linkReq, ReqAt(a));
        SumEmpty(quadReq, ReqAt(a));
        SumEmpty(vaults, ReqAt(a));
      }
      forall x ensures inserted[x] == delivered[x] {
        SumEmpty(quadResp, Like(x));
        SumEmpty(linkResp, Like(x));
      }
    }

    /** A response in the lookup table, a quad or a link is the one some accepted request is owed. */
    lemma EveryResponseIsOwed(r: Resp)
      requires Core()
      requires r in lookup || (exists q :: 0 <= q < QUADS && r in quadResp[q]) || (exists l :: 0 <= l < links && r in linkResp[l])
      ensures r.(exit := 0) in inserted
    {
      var x := r.(exit := 0);
      TallyZeroIff(lookup, Like(x));
      SumZeroIff(quadResp, Like(x));
      SumZeroIff(linkResp, Like(x));
      assert Like(x)(r);
      assert inserted[x] == delivered[x] + Outstanding(State(), x);
    }
  }

  lemma FirstCounts(q: seq<Resp>)
    ensures q == [] || Tally(q, RespAt(q[0].addr)) > 0
  {}

  lemma Times(a: int, b: int, c: int)
    ensures (a + b) * c == a * c + b * c
  {}

  lemma InsertFacts(c: Cube, r: Req, l: nat, inserted: multiset<Resp>, delivered: multiset<Resp>)
    requires Books(c) && Ledger(c, inserted, delivered) && l < |c.linkReq| && |c.linkReq[l]| < c.depth && ReqOk(r, |c.vaults|)
    ensures |c.linkReq| == |c.linkAge|
    ensures Books(Insert(c, r, l)) && Ledger(Insert(c, r, l), inserted + multiset{RespFor(r.(link := l))}, delivered)
  {
    hide Sum, Tally, Outstanding, Balanced;
    RespForOwes(r, l);
    InsertKeepsBooks(c, r, l);
  }

  /** All that a crossing of link l's front request keeps. */
  lemma CrossFacts(c: Cube, l: nat, clk: nat, inserted: multiset<Resp>, delivered: multiset<Resp>, h: seq<seq<nat>>, busy: seq<int>)
    requires Books(c) && Ledger(c, inserted, delivered) && PortsOk(h, busy, clk + 1) && |busy| == QUADS
    requires l < |c.linkReq| && c.linkReq[l] != []
    requires var q := c.linkReq[l][0].Quad(); |c.quadReq[q]| < c.depth && busy[q] <= 0
    ensures |c.linkReq| == |c.linkAge| && |c.quadReq| == QUADS && |h| == |busy| && h[c.linkReq[l][0].Quad()] != []
    ensures Books(Cross(c, l, clk)) && Ledger(Cross(c, l, clk), inserted, delivered)
    ensures var q, f := c.linkReq[l][0].Quad(), ReqFlits(c.linkReq[l][0].kind);
      PortsOk(Credit(h, q, f), busy[q := f], clk + 1)
  {
    hide Sum, Tally, Outstanding, Balanced, Paced, SameOutstanding;
    assert c.linkReq[l][0] in c.linkReq[l];
    CrossKeepsBooks(c, l, clk);
    SameLedger(c, Cross(c, l, clk), inserted, delivered);
    PortsAdmit(h, busy, clk + 1, c.linkReq[l][0].Quad(), ReqFlits(c.linkReq[l][0].kind));
  }

  lemma CrossBackFacts(c: Cube, q: nat, clk: nat, inserted: multiset<Resp>, delivered: multiset<Resp>, h: seq<seq<nat>>, busy: seq<int>)
    requires Books(c) && Ledger(c, inserted, delivered) && PortsOk(h, busy, clk + 1) && |busy| == |c.linkReq|
    requires q < QUADS && c.quadResp[q] != [] && c.quadResp[q][0].link < |c.linkReq|
    requires var l := c.quadResp[q][0].link; |c.linkResp[l]| < c.depth && busy[l] <= 0
    ensures |c.linkResp| == |c.linkReq| && |c.quadResp| == |c.quadAge| == QUADS && |h| == |busy| && h[c.quadResp[q][0].link] != []
    ensures Books(CrossBack(c, q, clk)) && Ledger(CrossBack(c, q, clk), inserted, delivered)
    ensures var l, f := c.quadResp[q][0].link, c.quadResp[q][0].flits; PortsOk(Credit(h, l, f), busy[l := f], clk + 1)
  {
    hide Sum, Tally, Outstanding, Balanced, Paced, SameOutstanding;
    assert c.quadResp[q][0] in c.quadResp[q];
    CrossBackKeepsBooks(c, q, clk);
    SameLedger(c, CrossBack(c, q, clk), inserted, delivered);
    PortsAdmit(h, busy, clk + 1, c.quadResp[q][0].link, c.quadResp[q][0].flits);
  }

  lemma FrontLink(c: Cube, q: nat)
    requires Books(c) && q < QUADS && c.quadResp[q] != []
    ensures c.quadResp[q][0].link < |c.linkReq|
  {
    assert c.quadResp[q][0] in c.quadResp[q];
  }

  lemma AgesMean(c: Cube)
    requires Books(c)
    ensures AgesOk(c.linkAge, c.linkReq) && AgesOk(c.quadAge, c.quadResp)
  {}

  lemma SameLedger(c: Cube, d: Cube, inserted: multiset<Resp>, delivered: multiset<Resp>)
    requires Ledger(c, inserted, delivered) && SameOutstanding(c, d)
    ensures Ledger(d, inserted, delivered)
  {}

  lemma {:induction false} SumEmpty<T>(qs: seq<seq<T>>, f: T -> bool)
    requires forall i :: 0 <= i < |qs| ==> qs[i] == []
    ensures Sum(qs, f) == 0
  {
    if qs != [] { SumEmpty(qs[1..], f); }
  }
}
