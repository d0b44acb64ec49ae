/** The memory cube: packets between links, quads and vaults, moved one at a time. */
module HmcCube {
  import opened Commands
  import opened Counting

  /** Request types, those with the same packet sizes and response taken together. */
  datatype ReqType =
    | Fetch(bytes: nat) | Store(bytes: nat) | PostedStore(bytes: nat)
    | Update | PostedUpdate | UpdateReturn | Inc | PostedInc

  datatype RespType = NoResp | ReadResp | WriteResp

  const MAX_FLITS: nat := 17

  predicate KnownSize(bytes: nat) { (bytes % 16 == 0 && bytes <= 128) || bytes == 256 }

  predicate KnownType(t: ReqType) { t.Fetch? || t.Store? || t.PostedStore? ==> KnownSize(t.bytes) }

  /** A data packet carries 16 bytes a flit behind one flit of header; size 0 is a dummy of no flits. */
  function DataFlits(bytes: nat): nat { if bytes == 0 then 0 else bytes / 16 + 1 }

  function ReqFlits(t: ReqType): (n: nat)
    ensures KnownType(t) ==> n <= MAX_FLITS
  {
    match t
    case Fetch(bytes) => if bytes == 0 then 0 else 1
    case Store(bytes) => DataFlits(bytes)
    case PostedStore(bytes) => DataFlits(bytes)
    case Update => 2
    case PostedUpdate => 2
    case UpdateReturn => 2
    case Inc => 1
    case PostedInc => 1
  }

  function RespOf(t: ReqType): RespType {
    match t
    case Fetch(_) => ReadResp
    case Store(_) => WriteResp
    case UpdateReturn => ReadResp
    case Update => WriteResp
    case Inc => WriteResp
    case PostedStore(_) => NoResp
    case PostedUpdate => NoResp
    case PostedInc => NoResp
  }

  function RespFlits(t: ReqType): (n: nat)
    ensures KnownType(t) ==> n <= MAX_FLITS
  {
    match t
    case Fetch(bytes) => DataFlits(bytes)
    case Store(bytes) => if bytes == 0 then 0 else 1
    case UpdateReturn => 2
    case Update => 1
    case Inc => 1
    case _ => 0
  }

  /** Bytes of data a request carries to the memory. */
  function DataOut(t: ReqType): nat {
    match t
    case Store(bytes) => bytes
    case PostedStore(bytes) => bytes
    case Update => 16
    case PostedUpdate => 16
    case UpdateReturn => 16
    case _ => 0
  }

  /** Bytes of data its response brings back. */
  function DataBack(t: ReqType): nat {
    match t
    case Fetch(bytes) => bytes
    case UpdateReturn => 16
    case _ => 0
  }

  predicate Posted(t: ReqType) { t.PostedStore? || t.PostedUpdate? || t.PostedInc? }

  /** Fetches and stores of no bytes are dummies that take no room. */
  predicate Dummy(t: ReqType) { (t.Fetch? || t.Store? || t.PostedStore?) && t.bytes == 0 }

  /** Every packet is one flit of header and tail and sixteen bytes a flit; dummies and responses to posted requests are none. */
  lemma PacketSizes(t: ReqType)
    requires KnownType(t)
    ensures ReqFlits(t) * 16 == if Dummy(t) then 0 else 16 + DataOut(t)
    ensures RespFlits(t) * 16 == if Dummy(t) || Posted(t) then 0 else 16 + DataBack(t)
    ensures RespOf(t) == if Posted(t) then NoResp else if t.Fetch? || t.UpdateReturn? then ReadResp else WriteResp
  {}

  const QUADS: nat := 4

  datatype Req = Req(kind: ReqType, addr: nat, vault: nat, link: nat, exit: nat)
  {
    function Quad(): (q: nat) ensures q < QUADS { vault % QUADS }
  }

  datatype Resp = Resp(addr: nat, kind: RespType, flits: nat, link: nat, quad: nat, exit: nat)

  function RespFor(r: Req): Resp { Resp(r.addr, RespOf(r.kind), RespFlits(r.kind), r.link, r.Quad(), 0) }

  /**
   * The response a request taken by link l is owed: to its own address, on that link, from the quad of its vault, of the kind
   * and size its type asks for.
   */
  ghost predicate Owes(r: Req, l: nat, x: Resp) {
    && x.addr == r.addr && x.link == l && x.quad == r.vault % 4 && x.exit == 0
    && x.kind == (if Posted(r.kind) then NoResp else if r.kind.Fetch? || r.kind.UpdateReturn? then ReadResp else WriteResp)
    && x.flits * 16 == if Dummy(r.kind) || Posted(r.kind) then 0 else 16 + DataBack(r.kind)
  }

  lemma RespForOwes(r: Req, l: nat)
    requires KnownType(r.kind)
    ensures Owes(r, l, RespFor(r.(link := l))) && forall x :: Owes(r, l, x) ==> x == RespFor(r.(link := l))
  {
    PacketSizes(r.kind);
  }

  datatype Cube = Cube(
    depth: nat,
    linkReq: seq<seq<Req>>, linkAge: seq<nat>, linkResp: seq<seq<Resp>>,
    quadReq: seq<seq<Req>>, quadAge: seq<nat>, quadResp: seq<seq<Resp>>,
    vaults: seq<seq<Req>>,       // requests accepted by each vault and not yet answered
    lookup: seq<Resp>)           // responses waiting for their vault; equal keys in insertion order

  predicate ReqOk(r: Req, vaults: nat) { KnownType(r.kind) && r.vault < vaults }

  predicate RespOk(r: Resp, links: nat) { r.flits <= MAX_FLITS && r.link < links && r.quad < QUADS }

  ghost predicate ReqsOk(qs: seq<seq<Req>>, n: nat, vaults: nat, depth: nat) {
    |qs| == n && forall i :: 0 <= i < n ==> |qs[i]| <= depth && forall r :: r in qs[i] ==> ReqOk(r, vaults)
  }

  ghost predicate RespsOk(qs: seq<seq<Resp>>, n: nat, links: nat) {
    |qs| == n && forall i :: 0 <= i < n ==> forall r :: r in qs[i] ==> RespOk(r, links)
  }

  /** An age is positive exactly when its queue has something. */
  ghost predicate AgesOk<T>(ages: seq<nat>, qs: seq<seq<T>>) {
    |ages| == |qs| && forall i :: 0 <= i < |qs| ==> (ages[i] > 0 <==> qs[i] != [])
  }

  ghost predicate Shaped(c: Cube) {
    var n := |c.linkReq|;
    && n >= 1
    && ReqsOk(c.linkReq, n, |c.vaults|, c.depth) && ReqsOk(c.quadReq, QUADS, |c.vaults|, c.depth)
    && RespsOk(c.linkResp, n, n) && RespsOk(c.quadResp, QUADS, n) && (forall r :: r in c.lookup ==> RespOk(r, n))
    && (forall i :: 0 <= i < n ==> |c.linkResp[i]| <= c.depth)
    && AgesOk(c.linkAge, c.linkReq) && AgesOk(c.quadAge, c.quadResp)
  }

  function ReqAt(a: nat): Req -> bool { (r: Req) => r.addr == a }
  function RespAt(a: nat): Resp -> bool { (r: Resp) => r.addr == a }
  function Like(x: Resp): Resp -> bool { (r: Resp) => r.(exit := 0) == x }

  /** Every packet is where it belongs: requests in their quad and vault, responses in their quad and on their link. */
  ghost predicate Placed(c: Cube) {
    && (forall q, r :: 0 <= q < |c.quadReq| && r in c.quadReq[q] ==> r.vault % 4 == q)
    && (forall v, r :: 0 <= v < |c.vaults| && r in c.vaults[v] ==> r.vault == v)
    && (forall q, r :: 0 <= q < |c.quadResp| && r in c.quadResp[q] ==> r.quad == q)
    && (forall l, r :: 0 <= l < |c.linkResp| && r in c.linkResp[l] ==> r.link == l)
  }

  /** Requests for a on their way to, or inside, a vault. */
  function Travelling(c: Cube, a: nat): (n: nat) { Sum(c.linkReq, ReqAt(a)) + Sum(c.quadReq, ReqAt(a)) + Sum(c.vaults, ReqAt(a)) }

  /** Responses like x, but for the time they leave, not yet handed to the processor. */
  function Outstanding(c: Cube, x: Resp): (n: nat) {
    Tally(c.lookup, Like(x)) + Sum(c.quadResp, Like(x)) + Sum(c.linkResp, Like(x))
  }

  ghost predicate Balanced(c: Cube, a: nat) { Tally(c.lookup, RespAt(a)) == Travelling(c, a) }

  ghost predicate Books(c: Cube) { Shaped(c) && Placed(c) && forall a :: Balanced(c, a) }

  ghost predicate SameOutstanding(c: Cube, d: Cube) { forall x :: Outstanding(d, x) == Outstanding(c, x) }

  // ---- Requests ---------------------------------------------------------------------------------------------------

  function Insert(c: Cube, r: Req, l: nat): (d: Cube)
    requires l < |c.linkReq| == |c.linkAge|
  {
    var req := r.(link := l);
    c.(linkReq := c.linkReq[l := c.linkReq[l] + [req]], lookup := c.lookup + [RespFor(req)], linkAge := c.linkAge[l := 1])
  }

  lemma InsertKeepsBooks(c: Cube, r: Req, l: nat)
    requires Books(c) && l < |c.linkReq| && |c.linkReq[l]| < c.depth && ReqOk(r, |c.vaults|)
    ensures Books(Insert(c, r, l))
    ensures forall x :: Outstanding(Insert(c, r, l), x) == Outstanding(c, x) + Bit(Owes(r, l, x))
  {
    hide Sum, Tally;
    var req := r.(link := l);
    var d := Insert(c, r, l);
    RespForOwes(r, l);
    forall a ensures Balanced(d, a) {
      assert Balanced(c, a);
      SumPush(c.linkReq, l, req, ReqAt(a));
      TallyPush(c.lookup, RespFor(req), RespAt(a));
    }
    forall x ensures Outstanding(d, x) == Outstanding(c, x) + Bit(Owes(r, l, x)) { TallyPush(c.lookup, RespFor(req), Like(x)); }
  }

  /** The front request of link l crosses to its quad at the given cycle. */
  function Cross(c: Cube, l: nat, clk: nat): (d: Cube)
    requires l < |c.linkReq| == |c.linkAge| && c.linkReq[l] != [] && |c.quadReq| == QUADS
  {
    var r, rest := c.linkReq[l][0], c.linkReq[l][1..];
    c.(linkReq := c.linkReq[l := rest], linkAge := c.linkAge[l := if rest == [] then 0 else 1],
       quadReq := c.quadReq[r.Quad() := c.quadReq[r.Quad()] + [r.(exit := clk + ReqFlits(r.kind))]])
  }

  lemma CrossKeepsBooks(c: Cube, l: nat, clk: nat)
    requires Books(c) && l < |c.linkReq| && c.linkReq[l] != [] && |c.quadReq[c.linkReq[l][0].Quad()]| < c.depth
    ensures Books(Cross(c, l, clk)) && SameOutstanding(c, Cross(c, l, clk))
  {
    hide Sum, Tally;
    var r := c.linkReq[l][0];
    assert r in c.linkReq[l];
    var d := Cross(c, l, clk);
    forall a ensures Balanced(d, a) {
      assert Balanced(c, a);
      SumPop(c.linkReq, l, ReqAt(a));
      SumPush(c.quadReq, r.Quad(), r.(exit := clk + ReqFlits(r.kind)), ReqAt(a));
    }
  }

  /** The front request of quad q enters its vault. */
  function Enter(c: Cube, q: nat): (d: Cube)
    requires q < |c.quadReq| && c.quadReq[q] != [] && c.quadReq[q][0].vault < |c.vaults|
  {
    var r := c.quadReq[q][0];
    c.(quadReq := c.quadReq[q := c.quadReq[q][1..]], vaults := c.vaults[r.vault := c.vaults[r.vault] + [r]])
  }

  lemma EnterKeepsBooks(c: Cube, q: nat)
    requires Books(c) && q < QUADS && c.quadReq[q] != []
    ensures c.quadReq[q][0].vault < |c.vaults|
    ensures Books(Enter(c, q)) && SameOutstanding(c, Enter(c, q))
  {
    hide Sum, Tally;
    var r := c.quadReq[q][0];
    assert r in c.quadReq[q];
    var d := Enter(c, q);
    forall a ensures Balanced(d, a) {
      assert Balanced(c, a);
      SumPop(c.quadReq, q, ReqAt(a));
      SumPush(c.vaults, r.vault, r, ReqAt(a));
    }
  }

  // ---- Responses --------------------------------------------------------------------------------------------------

  function Find(s: seq<Resp>, a: nat): (r: Option<nat>)
    ensures r.Some? ==> r.value < |s| && s[r.value].addr == a
    ensures r.Some? <==> Tally(s, RespAt(a)) > 0
  {
    if s == [] then None
    else if s[0].addr == a then Some(0)
    else match Find(s[1..], a) case None => None case Some(k) => Some(k + 1)
  }

  /** The vault is done with a: its response joins the quad it belongs to; None where the lookup misses. */
  function Callback(c: Cube, a: nat): (d: Option<Cube>)
    requires Shaped(c)
  {
    match Find(c.lookup, a)
    case None => None
    case Some(k) =>
      var r := c.lookup[k];
      assert r in c.lookup && |c.quadAge| == |c.quadResp|;
      Some(c.(lookup := c.lookup[..k] + c.lookup[k + 1..],
              quadResp := c.quadResp[r.quad := c.quadResp[r.quad] + [r]], quadAge := c.quadAge[r.quad := 1]))
  }

  /** Vault v answers the k-th of its reads and writes under way. */
  function Answer(c: Cube, v: nat, k: nat): (d: Option<Cube>)
    requires Shaped(c) && v < |c.vaults| && k < |c.vaults[v]|
  {
    Callback(c.(vaults := c.vaults[v := c.vaults[v][..k] + c.vaults[v][k + 1..]]), c.vaults[v][k].addr)
  }

  lemma {:induction false} SumAtLeast<T>(qs: seq<seq<T>>, i: nat, f: T -> bool)
    requires i < |qs|
    ensures Sum(qs, f) >= Tally(qs[i], f)
  {
    if i > 0 { SumAtLeast(qs[1..], i - 1, f); }
  }

  /** A vault's answer always has a response waiting for it. */
  lemma AnswerNeverMisses(c: Cube, v: nat, k: nat)
    requires Books(c) && v < |c.vaults| && k < |c.vaults[v]|
    ensures Answer(c, v, k).Some?
    ensures Books(Answer(c, v, k).value) && SameOutstanding(c, Answer(c, v, k).value)
  {
    hide Sum, Tally;
    var a0 := c.vaults[v][k].addr;
    var rest := c.vaults[v][..k] + c.vaults[v][k + 1..];
    assert Balanced(c, a0);
    TallyErase(c.vaults[v], k, ReqAt(a0));
    SumAtLeast(c.vaults, v, ReqAt(a0));
    var at := Find(c.lookup, a0).value;
    var d := Answer(c, v, k).value;
    forall a ensures Balanced(d, a) {
      assert Balanced(c, a);
      TallyErase(c.lookup, at, RespAt(a));
      TallyErase(c.vaults[v], k, ReqAt(a));
      SumUpdate(c.vaults, v, rest, ReqAt(a));
    }
    AnswerKeepsOutstanding(c, v, k);
    AnswerShaped(c, v, k);
    AnswerPlaced(c, v, k);
  }

  lemma AnswerKeepsOutstanding(c: Cube, v: nat, k: nat)
    requires Shaped(c) && v < |c.vaults| && k < |c.vaults[v]| && Answer(c, v, k).Some?
    ensures SameOutstanding(c, Answer(c, v, k).value)
  {
    hide Sum, Tally;
    var at := Find(c.lookup, c.vaults[v][k].addr).value;
    var r, d := c.lookup[at], Answer(c, v, k).value;
    assert r in c.lookup;
    forall x ensures Outstanding(d, x) == Outstanding(c, x) {
      TallyErase(c.lookup, at, Like(x));
      SumPush(c.quadResp, r.quad, r, Like(x));
    }
  }

  lemma AnswerPlaced(c: Cube, v: nat, k: nat)
    requires Shaped(c) && Placed(c) && v < |c.vaults| && k < |c.vaults[v]| && Answer(c, v, k).Some?
    ensures Placed(Answer(c, v, k).value)
  {
    var at := Find(c.lookup, c.vaults[v][k].addr).value;
    assert c.lookup[at] in c.lookup;
    assert forall r :: r in c.vaults[v][..k] + c.vaults[v][k + 1..] ==> r in c.vaults[v];
  }

  lemma AnswerShaped(c: Cube, v: nat, k: nat)
    requires Shaped(c) && v < |c.vaults| && k < |c.vaults[v]| && Answer(c, v, k).Some?
    ensures Shaped(Answer(c, v, k).value)
  {
    hide Sum, Tally;
    var at := Find(c.lookup, c.vaults[v][k].addr).value;
    assert c.lookup[at] in c.lookup;
    assert forall r :: r in c.lookup[..at] + c.lookup[at + 1..] ==> r in c.lookup;
  }

  /** The vaults answer in the order of `picks`, each a vault and which of its requests; picks of nothing are passed over. */
  ghost function AnswerAll(c: Cube, picks: seq<(nat, nat)>): (d: Cube)
    requires Books(c)
    ensures Books(d) && SameOutstanding(c, d) && |d.vaults| == |c.vaults|
    decreases |picks|
  {
    if picks == [] then c
    else
      var p := AnswerAll(c, picks[..|picks| - 1]);
      var (v, k) := picks[|picks| - 1];
      if v < |p.vaults| && k < |p.vaults[v]| then
        AnswerNeverMisses(p, v, k);
        Answer(p, v, k).value
      else p
  }

  /** The front response of quad q crosses to its link. */
  function CrossBack(c: Cube, q: nat, clk: nat): (d: Cube)
    requires q < |c.quadResp| == |c.quadAge| && c.quadResp[q] != [] && c.quadResp[q][0].link < |c.linkResp|
  {
    var r, rest := c.quadResp[q][0], c.quadResp[q][1..];
    c.(quadResp := c.quadResp[q := rest], quadAge := c.quadAge[q := if rest == [] then 0 else 1],
       linkResp := c.linkResp[r.link := c.linkResp[r.link] + [r.(exit := clk + r.flits)]])
  }

  lemma CrossBackKeepsBooks(c: Cube, q: nat, clk: nat)
    requires Books(c) && q < QUADS && c.quadResp[q] != []
    requires var l := c.quadResp[q][0].link; l < |c.linkResp| ==> |c.linkResp[l]| < c.depth
    ensures c.quadResp[q][0].link < |c.linkResp|
    ensures Books(CrossBack(c, q, clk)) && SameOutstanding(c, CrossBack(c, q, clk))
  {
    hide Sum, Tally;
    var r := c.quadResp[q][0];
    assert r in c.quadResp[q];
    var d := CrossBack(c, q, clk);
    forall a ensures Balanced(d, a) { assert Balanced(c, a); }
    forall x ensures Outstanding(d, x) == Outstanding(c, x) {
      SumPop(c.quadResp, q, Like(x));
      SumPush(c.linkResp, r.link, r.(exit := clk + r.flits), Like(x));
    }
  }

  /** The front response of link l is handed to the processor. */
  function Deliver(c: Cube, l: nat): (d: Cube)
    requires l < |c.linkResp| && c.linkResp[l] != []
  {
    c.(linkResp := c.linkResp[l := c.linkResp[l][1..]])
  }

  lemma DeliverKeepsBooks(c: Cube, l: nat)
    requires Books(c) && l < |c.linkResp| && c.linkResp[l] != []
    ensures Books(Deliver(c, l))
    ensures c.linkResp[l][0].link == l
    ensures forall x :: Outstanding(c, x) == Outstanding(Deliver(c, l), x) + Bit(x == c.linkResp[l][0].(exit := 0))
  {
    hide Sum, Tally;
    var d := Deliver(c, l);
    assert c.linkResp[l][0] in c.linkResp[l];
    forall a ensures Balanced(d, a) { assert Balanced(c, a); }
    forall x ensures Outstanding(c, x) == Outstanding(d, x) + Bit(x == c.linkResp[l][0].(exit := 0)) {
      SumPop(c.linkResp, l, Like(x));
    }
  }

  /** A stalled source grows older. */
  function Age(ages: seq<nat>, i: nat): (r: seq<nat>)
    requires i < |ages|
  {
    ages[i := ages[i] + 1]
  }

  lemma StallKeepsBooks(c: Cube, linkAge: seq<nat>, quadAge: seq<nat>)
    requires Books(c) && AgesOk(linkAge, c.linkReq) && AgesOk(quadAge, c.quadResp)
    ensures Books(c.(linkAge := linkAge, quadAge := quadAge)) && SameOutstanding(c, c.(linkAge := linkAge, quadAge := quadAge))
  {
    forall a ensures Balanced(c.(linkAge := linkAge, quadAge := quadAge), a) {
      assert Balanced(c, a);
    }
  }
}
