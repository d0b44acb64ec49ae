/** The bounded multi-producer multi-consumer queue as interleaved atomic steps, over every schedule. */
module Mpmc {
  import opened Commands

  /** Where a thread stands in push or pop; `pos` is its local copy of the position it works on. */
  datatype Thread<T> =
    | Idle
    | PushLoad(v: T) | PushSeq(v: T, pos: nat) | PushCas(v: T, pos: nat) | PushWrite(v: T, pos: nat) | PushStore(pos: nat)
    | PopLoad | PopSeq(pos: nat) | PopCas(pos: nat) | PopRead(pos: nat) | PopStore(pos: nat, got: Option<T>)

  datatype What = Wrote | Published | Moved | Released | PushRefused | PopRefused

  /** What pushes and pops did to the cells or answered, in the order it happened. */
  datatype Event<T> = Event(what: What, ticket: nat, v: Option<T>)

  datatype Cell<T> = Cell(sequence: nat, data: Option<T>)

  datatype Queue<T> = Queue(
    size: nat,
    cells: seq<Cell<T>>,
    enq: nat, deq: nat,
    threads: seq<Thread<T>>,
    items: seq<T>,              // items[p] is what the push holding ticket p was given
    log: seq<Event<T>>)

  /** What the scheduler decides: a call for an idle thread, or the thread's next atomic step, where a CAS may fail spuriously. */
  datatype Choice<T> = CallPush(v: T) | CallPop | Next(spurious: bool)

  function Slot(size: nat, pos: nat): (i: nat)
    requires size >= 2
    ensures i < size
  {
    pos % size
  }

  /** Construction is refused unless the size is a power of two of at least 2. */
  predicate PowerOfTwo(n: nat) { n == 1 || (n > 0 && n % 2 == 0 && PowerOfTwo(n / 2)) }

  function New<T>(size: nat, threads: nat): Option<Queue<T>> {
    if size >= 2 && PowerOfTwo(size)
    then Some(Queue(size, seq(size, i requires 0 <= i < size => Cell(i, None)), 0, 0, seq(threads, _ => Idle), [], []))
    else None
  }

  ghost predicate Shaped<T>(q: Queue<T>) { q.size >= 2 && |q.cells| == q.size && |q.items| == q.enq }

  /** One atomic step of thread t; None when the choice does not fit where the thread stands. */
  function Step<T>(q: Queue<T>, t: nat, c: Choice<T>): (r: Option<Queue<T>>)
    requires Shaped(q) && t < |q.threads|
    ensures r.Some? ==> Shaped(r.value) && |r.value.threads| == |q.threads| && r.value.size == q.size
  {
    match q.threads[t]
    case Idle =>
      (match c
       case CallPush(v) => Some(q.(threads := q.threads[t := PushLoad(v)]))
       case CallPop => Some(q.(threads := q.threads[t := PopLoad]))
       case Next(_) => None)
    case _ => if c.Next? then Some(Advance(q, t, c.spurious)) else None
  }

  function Advance<T>(q: Queue<T>, t: nat, spurious: bool): (r: Queue<T>)
    requires Shaped(q) && t < |q.threads| && !q.threads[t].Idle?
    ensures Shaped(r) && |r.threads| == |q.threads| && r.size == q.size
  {
    match q.threads[t]
    case PushLoad(v) => q.(threads := q.threads[t := PushSeq(v, q.enq)])
    case PushSeq(v, pos) =>
      var n := q.cells[Slot(q.size, pos)].sequence;
      if n == pos then q.(threads := q.threads[t := PushCas(v, pos)])
      else if n < pos then q.(threads := q.threads[t := Idle], log := q.log + [Event(PushRefused, pos, None)])
      else q.(threads := q.threads[t := PushLoad(v)])
    case PushCas(v, pos) =>
      if q.enq == pos && !spurious
      then q.(threads := q.threads[t := PushWrite(v, pos)], enq := pos + 1, items := q.items + [v])
      else q.(threads := q.threads[t := PushSeq(v, q.enq)])
    case PushWrite(v, pos) =>
      var i := Slot(q.size, pos);
      q.(threads := q.threads[t := PushStore(pos)], cells := q.cells[i := q.cells[i].(data := Some(v))], log := q.log + [Event(Wrote, pos, Some(v))])
    case PushStore(pos) =>
      var i := Slot(q.size, pos);
      q.(threads := q.threads[t := Idle], cells := q.cells[i := q.cells[i].(sequence := pos + 1)], log := q.log + [Event(Published, pos, None)])
    case PopLoad => q.(threads := q.threads[t := PopSeq(q.deq)])
    case PopSeq(pos) =>
      var n := q.cells[Slot(q.size, pos)].sequence;
      if n == pos + 1 then q.(threads := q.threads[t := PopCas(pos)])
      else if n < pos + 1 then q.(threads := q.threads[t := Idle], log := q.log + [Event(PopRefused, pos, None)])
      else q.(threads := q.threads[t := PopLoad])
    case PopCas(pos) =>
      if q.deq == pos && !spurious
      then q.(threads := q.threads[t := PopRead(pos)], deq := pos + 1)
      else q.(threads := q.threads[t := PopSeq(q.deq)])
    case PopRead(pos) =>
      var i := Slot(q.size, pos);
      q.(threads := q.threads[t := PopStore(pos, q.cells[i].data)], cells := q.cells[i := q.cells[i].(data := None)],
         log := q.log + [Event(Moved, pos, q.cells[i].data)])
    case PopStore(pos, got) =>
      var i := Slot(q.size, pos);
      q.(threads := q.threads[t := Idle], cells := q.cells[i := q.cells[i].(sequence := pos + q.size)],
         log := q.log + [Event(Released, pos, got)])
  }

  // ---- Arithmetic of laps ---------------------------------------------------------------------------------------

  lemma LapGap(n: nat, a: nat, b: nat)
    requires n >= 2 && Slot(n, a) == Slot(n, b) && a < b
    ensures b >= a + n
  {
    var d := b / n - a / n;
    assert b - a == n * d by { Split(n, a); Split(n, b); }
    Scale(n, d);
  }

  lemma Split(n: nat, a: nat)
    requires n >= 2
    ensures a == n * (a / n) + Slot(n, a)
  {}

  lemma Scale(n: nat, d: int)
    requires n * d > 0
    ensures n * d >= n
  {}

  lemma NextLap(n: nat, a: nat)
    requires n >= 2
    ensures Slot(n, a + n) == Slot(n, a)
  {
    Split(n, a);
    Split(n, a + n);
    var d := (a + n) / n - a / n - 1;
    assert n * d == Slot(n, a) - Slot(n, a + n);
    SmallMultiple(n, d);
  }

  lemma SmallMultiple(n: nat, d: int)
    requires 0 - n < n * d < n
    ensures d == 0
  {}

  /** Two positions of one slot are whole laps apart, so neighbouring positions never share a slot. */
  lemma Laps(n: nat)
    requires n >= 2
    ensures forall a: nat, b: nat {:trigger Slot(n, a), Slot(n, b)} ::
      (Slot(n, a) == Slot(n, b) && a < b ==> b >= a + n) && (b == a + n ==> Slot(n, a) == Slot(n, b))
  {
    forall a: nat, b: nat
      ensures (Slot(n, a) == Slot(n, b) && a < b ==> b >= a + n) && (b == a + n ==> Slot(n, a) == Slot(n, b))
    {
      if Slot(n, a) == Slot(n, b) && a < b { LapGap(n, a, b); }
      NextLap(n, a);
    }
  }

  // ---- The invariant ----------------------------------------------------------------------------------------------

  function SeqAt<T>(q: Queue<T>, p: nat): (n: nat)
    requires Shaped(q)
  {
    q.cells[Slot(q.size, p)].sequence
  }

  /** The slot waits for ticket c to be published: c is not popped, and the ticket a lap earlier is. */
  ghost predicate FreeFor<T>(q: Queue<T>, c: nat)
  {
    q.deq <= c && q.enq <= c + q.size && (c >= q.size ==> c - q.size < q.deq)
  }

  /** The slot holds published ticket c, whose next lap nobody has claimed. */
  ghost predicate Holds<T>(q: Queue<T>, c: nat)
  {
    c < q.enq <= c + q.size
  }

  ghost predicate CellOk<T>(q: Queue<T>, i: nat)
    requires Shaped(q) && i < q.size
  {
    var n := q.cells[i].sequence;
    (Slot(q.size, n) == i && FreeFor(q, n)) || (n >= 1 && Slot(q.size, n - 1) == i && Holds(q, n - 1))
  }

  /** Data a popper will find: published and not yet moved out. */
  ghost predicate Filled<T>(q: Queue<T>, p: nat)
    requires Shaped(q)
  {
    p < q.enq && q.cells[Slot(q.size, p)].data == Some(q.items[p])
  }

  ghost predicate ThreadOk<T>(q: Queue<T>, th: Thread<T>)
    requires Shaped(q)
  {
    match th
    case Idle => true
    case PushLoad(v) => true
    case PushSeq(v, pos) => pos <= q.enq
    case PushCas(v, pos) => pos <= q.enq && (pos == q.enq ==> SeqAt(q, pos) == pos)
    case PushWrite(v, pos) => pos < q.enq && q.items[pos] == v && SeqAt(q, pos) == pos
    case PushStore(pos) => Filled(q, pos) && SeqAt(q, pos) == pos
    case PopLoad => true
    case PopSeq(pos) => pos <= q.deq
    case PopCas(pos) => pos <= q.deq && (pos == q.deq ==> SeqAt(q, pos) == pos + 1)
    case PopRead(pos) => pos < q.deq && Filled(q, pos) && SeqAt(q, pos) == pos + 1
    case PopStore(pos, got) => pos < q.deq && pos < q.enq && got == Some(q.items[pos]) && SeqAt(q, pos) == pos + 1
  }

  predicate Pushes<T>(th: Thread<T>, p: nat) { (th.PushWrite? || th.PushStore?) && th.pos == p }

  predicate Pops<T>(th: Thread<T>, p: nat) { (th.PopRead? || th.PopStore?) && th.pos == p }

  /** The two threads do not hold the same ticket. */
  predicate Apart<T>(a: Thread<T>, b: Thread<T>) {
    && ((a.PushWrite? || a.PushStore?) && (b.PushWrite? || b.PushStore?) ==> a.pos != b.pos)
    && ((a.PopRead? || a.PopStore?) && (b.PopRead? || b.PopStore?) ==> a.pos != b.pos)
  }

  ghost predicate Pushing<T>(q: Queue<T>, p: nat) { exists t :: 0 <= t < |q.threads| && Pushes(q.threads[t], p) }

  ghost predicate Popping<T>(q: Queue<T>, p: nat) { exists t :: 0 <= t < |q.threads| && Pops(q.threads[t], p) }

  /** What ticket p's slot says about p: unpublished means its push is under way, unreleased that its pop is. */
  ghost predicate TicketOk<T>(q: Queue<T>, p: nat)
    requires Shaped(q)
  {
    && (p < q.enq && SeqAt(q, p) == p ==> Pushing(q, p))
    && (p < q.deq && SeqAt(q, p) == p + 1 ==> Popping(q, p))
    && (q.deq <= p < q.enq && SeqAt(q, p) == p + 1 ==> Filled(q, p))
  }

  ghost predicate Inv<T>(q: Queue<T>) {
    && Shaped(q)
    && q.deq <= q.enq <= q.deq + q.size
    && (forall i :: 0 <= i < q.size ==> CellOk(q, i))
    && (forall t :: 0 <= t < |q.threads| ==> ThreadOk(q, q.threads[t]))
    && (forall t, w :: 0 <= t < w < |q.threads| ==> Apart(q.threads[t], q.threads[w]))
    && forall p: nat :: TicketOk(q, p)
  }

  /** Steps that change no cell and no counter: loads, refusals and failed exchanges. */
  predicate Quiet<T>(q: Queue<T>, t: nat, spurious: bool)
    requires t < |q.threads|
  {
    match q.threads[t]
    case PushLoad(_) => true
    case PushSeq(_, _) => true
    case PopLoad => true
    case PopSeq(_) => true
    case PushCas(_, pos) => q.enq != pos || spurious
    case PopCas(pos) => q.deq != pos || spurious
    case _ => false
  }

  /** A quiet step leaves the other threads alone, and its own holds no ticket before or after. */
  lemma QuietKeepsInv<T>(q: Queue<T>, t: nat, spurious: bool)
    requires Inv(q) && t < |q.threads| && Quiet(q, t, spurious)
    ensures Inv(Advance(q, t, spurious))
  {
    hide Slot, CellOk, Filled;
    var r := Advance(q, t, spurious);
    assert ThreadOk(q, q.threads[t]);
    assert ThreadOk(r, r.threads[t]);
    forall u | 0 <= u < |q.threads| ensures ThreadOk(r, r.threads[u]) {
      assert ThreadOk(q, q.threads[u]);
      FrameThread(q, r, q.threads[u]);
    }
    forall i | 0 <= i < q.size ensures CellOk(r, i) {
      FrameCell(q, r, i);
    }
    forall p: nat ensures TicketOk(r, p) {
      FrameTicket(q, r, t, p);
    }
  }

  ghost predicate SameStore<T>(q: Queue<T>, r: Queue<T>) {
    r.cells == q.cells && r.enq == q.enq && r.deq == q.deq && r.items == q.items && r.size == q.size
  }

  lemma FrameThread<T>(q: Queue<T>, r: Queue<T>, th: Thread<T>)
    requires Shaped(q) && Shaped(r) && SameStore(q, r) && ThreadOk(q, th)
    ensures ThreadOk(r, th)
  {}

  lemma FrameCell<T>(q: Queue<T>, r: Queue<T>, i: nat)
    requires Shaped(q) && Shaped(r) && SameStore(q, r) && i < q.size && CellOk(q, i)
    ensures CellOk(r, i)
  {}

  lemma FrameTicket<T>(q: Queue<T>, r: Queue<T>, t: nat, p: nat)
    requires Shaped(q) && Shaped(r) && SameStore(q, r) && t < |q.threads| && TicketOk(q, p)
    requires |r.threads| == |q.threads| && forall u :: 0 <= u < |q.threads| && u != t ==> r.threads[u] == q.threads[u]
    requires !Pushes(q.threads[t], p) && !Pops(q.threads[t], p)
    ensures TicketOk(r, p)
  {
    StillPushing(q, r, t, p);
    StillPopping(q, r, t, p);
  }

  /** Threads that a step of t does not touch keep their tickets. */
  lemma StillPushing<T>(q: Queue<T>, r: Queue<T>, t: nat, p: nat)
    requires t < |q.threads| && |r.threads| == |q.threads|
    requires forall u :: 0 <= u < |q.threads| && u != t ==> r.threads[u] == q.threads[u]
    requires Pushes(q.threads[t], p) ==> Pushes(r.threads[t], p)
    ensures Pushing(q, p) ==> Pushing(r, p)
  {
    if Pushing(q, p) {
      var u :| 0 <= u < |q.threads| && Pushes(q.threads[u], p);
      assert Pushes(r.threads[u], p);
    }
  }

  lemma StillPopping<T>(q: Queue<T>, r: Queue<T>, t: nat, p: nat)
    requires t < |q.threads| && |r.threads| == |q.threads|
    requires forall u :: 0 <= u < |q.threads| && u != t ==> r.threads[u] == q.threads[u]
    requires Pops(q.threads[t], p) ==> Pops(r.threads[t], p)
    ensures Popping(q, p) ==> Popping(r, p)
  {
    if Popping(q, p) {
      var u :| 0 <= u < |q.threads| && Pops(q.threads[u], p);
      assert Pops(r.threads[u], p);
    }
  }

  /** A push takes its ticket. */
  lemma ClaimKeepsInv<T>(q: Queue<T>, t: nat)
    requires Inv(q) && t < |q.threads| && q.threads[t].PushCas? && q.threads[t].pos == q.enq
    ensures Inv(Advance(q, t, false))
  {
    hide Slot;
    Laps(q.size);
    var r := Advance(q, t, false);
    assert ThreadOk(q, q.threads[t]);
    assert CellOk(q, Slot(q.size, q.enq));
    forall i | 0 <= i < q.size ensures CellOk(r, i) {
      assert CellOk(q, i);
    }
    forall u | 0 <= u < |q.threads| ensures ThreadOk(r, r.threads[u]) {
      assert ThreadOk(q, q.threads[u]);
    }
    assert Pushes(r.threads[t], q.enq);
    forall p: nat ensures TicketOk(r, p) {
      assert TicketOk(q, p);
      StillPushing(q, r, t, p);
      StillPopping(q, r, t, p);
    }
  }

  /** A pop takes its ticket. */
  lemma TakeKeepsInv<T>(q: Queue<T>, t: nat)
    requires Inv(q) && t < |q.threads| && q.threads[t].PopCas? && q.threads[t].pos == q.deq
    ensures Inv(Advance(q, t, false))
  {
    hide Slot;
    Laps(q.size);
    var r := Advance(q, t, false);
    assert ThreadOk(q, q.threads[t]);
    assert CellOk(q, Slot(q.size, q.deq)) && TicketOk(q, q.deq);
    forall i | 0 <= i < q.size ensures CellOk(r, i) {
      assert CellOk(q, i);
    }
    forall u | 0 <= u < |q.threads| ensures ThreadOk(r, r.threads[u]) {
      assert ThreadOk(q, q.threads[u]);
    }
    assert Pops(r.threads[t], q.deq);
    forall p: nat ensures TicketOk(r, p) {
      assert TicketOk(q, p);
      StillPushing(q, r, t, p);
      StillPopping(q, r, t, p);
    }
  }

  /** Writing the data keeps every sequence number; only the ticket's holder is at that cell. */
  lemma WriteKeepsInv<T>(q: Queue<T>, t: nat)
    requires Inv(q) && t < |q.threads| && q.threads[t].PushWrite?
    ensures Inv(Advance(q, t, false))
  {
    hide Slot, Pushing, Popping;
    Laps(q.size);
    var r := Advance(q, t, false);
    assert ThreadOk(q, q.threads[t]);
    forall i | 0 <= i < q.size ensures CellOk(r, i) {
      assert CellOk(q, i);
    }
    forall u | 0 <= u < |q.threads| ensures ThreadOk(r, r.threads[u]) {
      assert ThreadOk(q, q.threads[u]);
      assert u < t ==> Apart(q.threads[u], q.threads[t]);
      assert t < u ==> Apart(q.threads[t], q.threads[u]);
    }
    forall p: nat ensures TicketOk(r, p) {
      assert TicketOk(q, p);
      StillPushing(q, r, t, p);
      StillPopping(q, r, t, p);
    }
  }

  /** Moving the data out, likewise. */
  lemma MoveKeepsInv<T>(q: Queue<T>, t: nat)
    requires Inv(q) && t < |q.threads| && q.threads[t].PopRead?
    ensures Inv(Advance(q, t, false))
  {
    hide Slot, Pushing, Popping;
    Laps(q.size);
    var r := Advance(q, t, false);
    assert ThreadOk(q, q.threads[t]);
    forall i | 0 <= i < q.size ensures CellOk(r, i) {
      assert CellOk(q, i);
    }
    forall u | 0 <= u < |q.threads| ensures ThreadOk(r, r.threads[u]) {
      assert ThreadOk(q, q.threads[u]);
      assert u < t ==> Apart(q.threads[u], q.threads[t]);
      assert t < u ==> Apart(q.threads[t], q.threads[u]);
    }
    forall p: nat ensures TicketOk(r, p) {
      assert TicketOk(q, p);
      StillPushing(q, r, t, p);
      StillPopping(q, r, t, p);
    }
  }

  /** Publishing moves the slot on; no other thread stands on it. */
  lemma PublishKeepsInv<T>(q: Queue<T>, t: nat)
    requires Inv(q) && t < |q.threads| && q.threads[t].PushStore?
    ensures Inv(Advance(q, t, false))
  {
    hide Slot, Pushing, Popping;
    Laps(q.size);
    var r := Advance(q, t, false);
    var pos := q.threads[t].pos;
    assert ThreadOk(q, q.threads[t]) && CellOk(q, Slot(q.size, pos));
    forall i | 0 <= i < q.size ensures CellOk(r, i) {
      assert CellOk(q, i);
    }
    forall u | 0 <= u < |q.threads| ensures ThreadOk(r, r.threads[u]) {
      assert ThreadOk(q, q.threads[u]);
      assert u < t ==> Apart(q.threads[u], q.threads[t]);
      assert t < u ==> Apart(q.threads[t], q.threads[u]);
    }
    forall p: nat ensures TicketOk(r, p) {
      assert TicketOk(q, p);
      if p != pos {
        StillPushing(q, r, t, p);
        StillPopping(q, r, t, p);
      }
    }
  }

  /** Releasing hands the slot to the next lap. */
  lemma ReleaseKeepsInv<T>(q: Queue<T>, t: nat)
    requires Inv(q) && t < |q.threads| && q.threads[t].PopStore?
    ensures Inv(Advance(q, t, false))
  {
    hide Slot, Pushing, Popping;
    Laps(q.size);
    var r := Advance(q, t, false);
    var pos := q.threads[t].pos;
    assert ThreadOk(q, q.threads[t]) && CellOk(q, Slot(q.size, pos));
    assert Slot(q.size, pos + q.size) == Slot(q.size, pos);
    forall i | 0 <= i < q.size ensures CellOk(r, i) {
      assert CellOk(q, i);
    }
    ReleaseKeepsThreads(q, t);
    forall p: nat ensures TicketOk(r, p) {
      assert TicketOk(q, p);
      if p != pos {
        StillPushing(q, r, t, p);
        StillPopping(q, r, t, p);
      }
    }
  }

  lemma ReleaseKeepsThreads<T>(q: Queue<T>, t: nat)
    requires Inv(q) && t < |q.threads| && q.threads[t].PopStore?
    ensures var r := Advance(q, t, false);
      forall u :: 0 <= u < |r.threads| ==> ThreadOk(r, r.threads[u])
  {
    hide Slot, TicketOk;
    Laps(q.size);
    var r := Advance(q, t, false);
    var pos := q.threads[t].pos;
    assert ThreadOk(q, q.threads[t]);
    assert Slot(q.size, pos + q.size) == Slot(q.size, pos);
    forall u | 0 <= u < |q.threads| ensures ThreadOk(r, r.threads[u]) {
      assert ThreadOk(q, q.threads[u]);
      assert u < t ==> Apart(q.threads[u], q.threads[t]);
      assert t < u ==> Apart(q.threads[t], q.threads[u]);
    }
  }

  lemma AdvanceKeepsInv<T>(q: Queue<T>, t: nat, spurious: bool)
    requires Inv(q) && t < |q.threads| && !q.threads[t].Idle?
    ensures Inv(Advance(q, t, spurious))
  {
    if Quiet(q, t, spurious) {
      QuietKeepsInv(q, t, spurious);
    } else {
      hide Inv, TicketOk, CellOk, ThreadOk, Filled, Slot;
      assert Advance(q, t, spurious) == Advance(q, t, false);
      match q.threads[t]
      case PushCas(_, _) => ClaimKeepsInv(q, t);
      case PopCas(_) => TakeKeepsInv(q, t);
      case PushWrite(_, _) => WriteKeepsInv(q, t);
      case PopRead(_) => MoveKeepsInv(q, t);
      case PushStore(_) => PublishKeepsInv(q, t);
      case PopStore(_, _) => ReleaseKeepsInv(q, t);
      case _ =>
    }
  }

  lemma CallKeepsInv<T>(q: Queue<T>, t: nat, c: Choice<T>)
    requires Inv(q) && t < |q.threads| && q.threads[t].Idle? && !c.Next?
    ensures Inv(Step(q, t, c).value)
  {
    hide Slot, CellOk, Filled;
    var r := Step(q, t, c).value;
    forall u | 0 <= u < |q.threads| ensures ThreadOk(r, r.threads[u]) {
      FrameThread(q, r, q.threads[u]);
    }
    forall i | 0 <= i < q.size ensures CellOk(r, i) {
      FrameCell(q, r, i);
    }
    forall p: nat ensures TicketOk(r, p) {
      FrameTicket(q, r, t, p);
    }
  }

  lemma StepKeepsInv<T>(q: Queue<T>, t: nat, c: Choice<T>)
    requires Inv(q) && t < |q.threads| && Step(q, t, c).Some?
    ensures Inv(Step(q, t, c).value)
  {
    if q.threads[t].Idle? {
      CallKeepsInv(q, t, c);
    } else {
      AdvanceKeepsInv(q, t, c.spurious);
    }
  }

  // ---- The log ----------------------------------------------------------------------------------------------------

  function Count<T>(log: seq<Event<T>>, what: What, p: nat): (n: nat) {
    if log == [] then 0
    else Count(log[..|log| - 1], what, p) + (if log[|log| - 1].what == what && log[|log| - 1].ticket == p then 1 else 0)
  }

  lemma CountAppend<T>(log: seq<Event<T>>, e: Event<T>, what: What, p: nat)
    ensures Count(log + [e], what, p) == Count(log, what, p) + (if e.what == what && e.ticket == p then 1 else 0)
  {
    assert (log + [e])[..|log|] == log;
  }

  lemma {:induction false} CountedHappened<T>(log: seq<Event<T>>, what: What, p: nat) returns (k: nat)
    requires Count(log, what, p) > 0
    ensures k < |log| && log[k].what == what && log[k].ticket == p
  {
    k := |log| - 1;
    if !(log[k].what == what && log[k].ticket == p) {
      k := CountedHappened(log[..k], what, p);
    }
  }

  /** How often ticket p has been written, published, moved out and released so far: at most once, and the state says when. */
  ghost predicate Tallied<T>(q: Queue<T>, p: nat)
    requires Shaped(q) && q.deq <= q.enq
  {
    && Count(q.log, Wrote, p) == (if p < q.enq && (SeqAt(q, p) > p || PushStore(p) in q.threads) then 1 else 0)
    && Count(q.log, Published, p) == (if p < q.enq && SeqAt(q, p) > p then 1 else 0)
    && Count(q.log, Moved, p) == (if p < q.deq && (SeqAt(q, p) > p + 1 || PopStore(p, Some(q.items[p])) in q.threads) then 1 else 0)
    && Count(q.log, Released, p) == (if p < q.deq && SeqAt(q, p) > p + 1 then 1 else 0)
  }

  predicate Earlier<T>(log: seq<Event<T>>, k: nat, what: What, p: nat)
    requires k <= |log|
  {
    exists j :: 0 <= j < k && log[j].what == what && log[j].ticket == p
  }

  /** Each event carries its ticket's own item and follows the events it depends on, a lap earlier for a write. */
  ghost predicate EventOk<T>(size: nat, items: seq<T>, log: seq<Event<T>>, k: nat)
    requires k < |log|
  {
    var p := log[k].ticket;
    match log[k].what
    case Wrote => p < |items| && log[k].v == Some(items[p]) && (p >= size ==> Earlier(log, k, Released, p - size))
    case Published => Earlier(log, k, Wrote, p)
    case Moved => p < |items| && log[k].v == Some(items[p]) && Earlier(log, k, Published, p)
    case Released => p < |items| && log[k].v == Some(items[p]) && Earlier(log, k, Moved, p)
    case PushRefused => true
    case PopRefused => true
  }

  ghost predicate Books<T>(q: Queue<T>)
    requires Shaped(q) && q.deq <= q.enq
  {
    && (forall p: nat :: Tallied(q, p))
    && forall k :: 0 <= k < |q.log| ==> EventOk(q.size, q.items, q.log, k)
  }

  lemma EventsExtend<T>(size: nat, items: seq<T>, more: seq<T>, log: seq<Event<T>>, e: Event<T>, k: nat)
    requires k < |log| && EventOk(size, items, log, k) && items <= more
    ensures EventOk(size, more, log, k) && EventOk(size, more, log + [e], k)
  {
    forall what, p: nat | Earlier(log, k, what, p) ensures Earlier(log + [e], k, what, p) {
      var j :| 0 <= j < k && log[j].what == what && log[j].ticket == p;
      assert (log + [e])[j] == log[j];
    }
  }

  lemma Happened<T>(log: seq<Event<T>>, e: Event<T>, what: What, p: nat)
    requires Count(log, what, p) > 0
    ensures Earlier(log + [e], |log|, what, p)
  {
    var j := CountedHappened(log, what, p);
    assert (log + [e])[j] == log[j];
  }

  lemma SameMembers<T>(threads: seq<Thread<T>>, t: nat, th: Thread<T>, x: Thread<T>)
    requires t < |threads| && threads[t] != x && th != x
    ensures x in threads <==> x in threads[t := th]
  {
    if x in threads {
      var u :| 0 <= u < |threads| && threads[u] == x;
      assert threads[t := th][u] == x;
    }
  }

  lemma CountsAppend<T>(log: seq<Event<T>>, e: Event<T>, p: nat)
    ensures forall what :: Count(log + [e], what, p) == Count(log, what, p) + (if e.what == what && e.ticket == p then 1 else 0)
  {
    forall what
      ensures Count(log + [e], what, p) == Count(log, what, p) + (if e.what == what && e.ticket == p then 1 else 0)
    {
      CountAppend(log, e, what, p);
    }
  }

  /** A quiet step logs at most a refusal, and no ticket changes phase. */
  lemma QuietKeepsTally<T>(q: Queue<T>, t: nat, spurious: bool, p: nat)
    requires Shaped(q) && q.deq <= q.enq && Tallied(q, p) && t < |q.threads| && Quiet(q, t, spurious)
    ensures Tallied(Advance(q, t, spurious), p)
  {
    hide Slot, Count;
    var r := Advance(q, t, spurious);
    if |r.log| > |q.log| {
      CountsAppend(q.log, r.log[|q.log|], p);
    }
    SameMembers(q.threads, t, r.threads[t], PushStore(p));
    if p < q.deq { SameMembers(q.threads, t, r.threads[t], PopStore(p, Some(q.items[p]))); }
  }

  /** Taking a ticket logs nothing, and the new ticket has nothing to its name yet. */
  lemma ClaimKeepsTally<T>(q: Queue<T>, t: nat, p: nat)
    requires Inv(q) && Tallied(q, p) && t < |q.threads| && q.threads[t].PushCas? && q.threads[t].pos == q.enq
    ensures Tallied(Advance(q, t, false), p)
  {
    hide Slot, Count, CellOk, TicketOk;
    var r := Advance(q, t, false);
    assert ThreadOk(q, q.threads[t]);
    SameMembers(q.threads, t, r.threads[t], PushStore(p));
    if p < q.deq { SameMembers(q.threads, t, r.threads[t], PopStore(p, Some(q.items[p]))); }
    if PushStore(p) in q.threads {
      assert ThreadOk(q, PushStore(p));
    }
  }

  lemma TakeKeepsTally<T>(q: Queue<T>, t: nat, p: nat)
    requires Inv(q) && Tallied(q, p) && t < |q.threads| && q.threads[t].PopCas? && q.threads[t].pos == q.deq < q.enq
    ensures Tallied(Advance(q, t, false), p)
  {
    hide Slot, Count, CellOk, TicketOk;
    var r := Advance(q, t, false);
    assert ThreadOk(q, q.threads[t]);
    SameMembers(q.threads, t, r.threads[t], PushStore(p));
    if p < r.deq {
      SameMembers(q.threads, t, r.threads[t], PopStore(p, Some(q.items[p])));
      if PopStore(p, Some(q.items[p])) in q.threads {
        assert ThreadOk(q, PopStore(p, Some(q.items[p])));
      }
    }
  }

  /** Handling the data moves exactly the holder's ticket on. */
  lemma WriteKeepsTally<T>(q: Queue<T>, t: nat, p: nat)
    requires Inv(q) && Tallied(q, p) && t < |q.threads| && q.threads[t].PushWrite?
    ensures Tallied(Advance(q, t, false), p)
  {
    hide Slot, Count, CellOk, TicketOk;
    var r := Advance(q, t, false);
    var pos := q.threads[t].pos;
    assert ThreadOk(q, q.threads[t]);
    CountsAppend(q.log, r.log[|q.log|], p);
    assert SeqAt(r, p) == SeqAt(q, p);
    if p == pos {
      HolderIsAlone(q, t, PushStore(pos));
      assert r.threads[t] == PushStore(pos);
    } else {
      SameMembers(q.threads, t, r.threads[t], PushStore(p));
    }
    if p < q.deq { SameMembers(q.threads, t, r.threads[t], PopStore(p, Some(q.items[p]))); }
  }

  lemma MoveKeepsTally<T>(q: Queue<T>, t: nat, p: nat)
    requires Inv(q) && Tallied(q, p) && t < |q.threads| && q.threads[t].PopRead?
    ensures Tallied(Advance(q, t, false), p)
  {
    hide Slot, Count, CellOk, TicketOk;
    var r := Advance(q, t, false);
    var pos := q.threads[t].pos;
    assert ThreadOk(q, q.threads[t]);
    CountsAppend(q.log, r.log[|q.log|], p);
    assert SeqAt(r, p) == SeqAt(q, p);
    SameMembers(q.threads, t, r.threads[t], PushStore(p));
    if p == pos {
      HolderIsAlone(q, t, PopStore(pos, Some(q.items[pos])));
      assert r.threads[t] == PopStore(pos, Some(q.items[pos]));
    } else if p < q.deq {
      SameMembers(q.threads, t, r.threads[t], PopStore(p, Some(q.items[p])));
    }
  }

  lemma HolderIsAlone<T>(q: Queue<T>, t: nat, th: Thread<T>)
    requires Inv(q) && t < |q.threads| && th != q.threads[t] && !Apart(q.threads[t], th) && !Apart(th, q.threads[t])
    ensures th !in q.threads
  {
  }

  /** Storing the sequence number moves the holder's ticket on and leaves the phase of the slot's other tickets. */
  lemma PublishKeepsTally<T>(q: Queue<T>, t: nat, p: nat)
    requires Inv(q) && Tallied(q, p) && t < |q.threads| && q.threads[t].PushStore?
    ensures Tallied(Advance(q, t, false), p)
  {
    hide Slot, Count, TicketOk;
    Laps(q.size);
    var r := Advance(q, t, false);
    var pos := q.threads[t].pos;
    assert ThreadOk(q, q.threads[t]) && CellOk(q, Slot(q.size, pos));
    CountsAppend(q.log, r.log[|q.log|], p);
    if p != pos { SameMembers(q.threads, t, r.threads[t], PushStore(p)); }
    if p < q.deq { SameMembers(q.threads, t, r.threads[t], PopStore(p, Some(q.items[p]))); }
  }

  lemma ReleaseKeepsTally<T>(q: Queue<T>, t: nat, p: nat)
    requires Inv(q) && Tallied(q, p) && t < |q.threads| && q.threads[t].PopStore?
    ensures Tallied(Advance(q, t, false), p)
  {
    hide Slot, Count, TicketOk;
    Laps(q.size);
    var r := Advance(q, t, false);
    var pos := q.threads[t].pos;
    assert ThreadOk(q, q.threads[t]) && CellOk(q, Slot(q.size, pos));
    CountsAppend(q.log, r.log[|q.log|], p);
    SameMembers(q.threads, t, r.threads[t], PushStore(p));
    if p != pos && p < q.deq { SameMembers(q.threads, t, r.threads[t], PopStore(p, Some(q.items[p]))); }
  }

  lemma AdvanceKeepsTally<T>(q: Queue<T>, t: nat, spurious: bool, p: nat)
    requires Inv(q) && Tallied(q, p) && t < |q.threads| && !q.threads[t].Idle?
    ensures Inv(Advance(q, t, spurious)) && Tallied(Advance(q, t, spurious), p)
  {
    AdvanceKeepsInv(q, t, spurious);
    if Quiet(q, t, spurious) {
      QuietKeepsTally(q, t, spurious, p);
    } else {
      hide Tallied, TicketOk, CellOk, ThreadOk, Filled, Slot;
      assert Advance(q, t, spurious) == Advance(q, t, false);
      match q.threads[t]
      case PushCas(_, _) => ClaimKeepsTally(q, t, p);
      case PopCas(_) => TakeKeepsTally(q, t, p);
      case PushWrite(_, _) => WriteKeepsTally(q, t, p);
      case PopRead(_) => MoveKeepsTally(q, t, p);
      case PushStore(_) => PublishKeepsTally(q, t, p);
      case PopStore(_, _) => ReleaseKeepsTally(q, t, p);
      case _ =>
    }
  }

  /** The event a step appends follows what it depends on: the state forces those counts to be one. */
  lemma NewEventOk<T>(q: Queue<T>, t: nat, spurious: bool)
    requires Inv(q) && Books(q) && t < |q.threads| && !q.threads[t].Idle?
    requires |Advance(q, t, spurious).log| > |q.log|
    ensures EventOk(q.size, q.items, Advance(q, t, spurious).log, |q.log|)
  {
    hide Slot, Count, TicketOk, CellOk;
    var log := Advance(q, t, spurious).log;
    var e := log[|q.log|];
    assert ThreadOk(q, q.threads[t]);
    match q.threads[t]
    case PushWrite(_, p) =>
      if p >= q.size {
        RecycledSlot(q, p);
        assert Tallied(q, p - q.size);
        Happened(q.log, e, Released, p - q.size);
      }
    case PushStore(p) =>
      assert Tallied(q, p);
      Happened(q.log, e, Wrote, p);
    case PopRead(p) =>
      assert Tallied(q, p);
      Happened(q.log, e, Published, p);
    case PopStore(p, _) =>
      assert Tallied(q, p);
      Happened(q.log, e, Moved, p);
    case _ =>
  }

  /** A slot whose sequence is p is done with the ticket a lap before p. */
  lemma RecycledSlot<T>(q: Queue<T>, p: nat)
    requires Inv(q) && q.size <= p < q.enq && SeqAt(q, p) == p
    ensures p - q.size < q.deq && SeqAt(q, p - q.size) > p - q.size + 1
  {
    hide Slot, TicketOk;
    Laps(q.size);
    assert CellOk(q, Slot(q.size, p));
    assert Slot(q.size, p - q.size) == Slot(q.size, p);
  }

  lemma StepKeepsBooks<T>(q: Queue<T>, t: nat, c: Choice<T>)
    requires Inv(q) && Books(q) && t < |q.threads| && Step(q, t, c).Some?
    ensures Inv(Step(q, t, c).value) && Books(Step(q, t, c).value)
  {
    StepKeepsInv(q, t, c);
    hide Inv, CellOk, TicketOk, ThreadOk, Count, EventOk, Slot;
    var r := Step(q, t, c).value;
    if q.threads[t].Idle? {
      forall p: nat ensures Tallied(r, p) {
        CallKeepsTally(q, t, c, p);
      }
    } else {
      hide Tallied;
      forall p: nat ensures Tallied(r, p) {
        AdvanceKeepsTally(q, t, c.spurious, p);
      }
      forall k | 0 <= k < |r.log| ensures EventOk(r.size, r.items, r.log, k) {
        if k < |q.log| {
          EventsExtend(q.size, q.items, r.items, q.log, if |r.log| > |q.log| then r.log[|q.log|] else q.log[k], k);
        } else {
          NewEventOk(q, t, c.spurious);
        }
      }
    }
  }

  lemma CallKeepsTally<T>(q: Queue<T>, t: nat, c: Choice<T>, p: nat)
    requires Shaped(q) && q.deq <= q.enq && Tallied(q, p) && t < |q.threads| && q.threads[t].Idle? && Step(q, t, c).Some?
    ensures Tallied(Step(q, t, c).value, p)
  {
    hide Slot, Count;
    var r := Step(q, t, c).value;
    SameMembers(q.threads, t, r.threads[t], PushStore(p));
    if p < q.deq { SameMembers(q.threads, t, r.threads[t], PopStore(p, Some(q.items[p]))); }
  }

  // ---- Whole runs -------------------------------------------------------------------------------------------------

  /** The state after a schedule of (thread, choice) pairs; a choice that does not fit is skipped. */
  function Run<T>(q: Queue<T>, schedule: seq<(nat, Choice<T>)>): (r: Queue<T>)
    requires Shaped(q)
    ensures Shaped(r) && r.size == q.size && |r.threads| == |q.threads|
    decreases |schedule|
  {
    if schedule == [] then q
    else
      var (t, c) := schedule[0];
      if t < |q.threads| && Step(q, t, c).Some? then Run(Step(q, t, c).value, schedule[1..]) else Run(q, schedule[1..])
  }

  lemma {:induction false} RunKeepsBooks<T>(q: Queue<T>, schedule: seq<(nat, Choice<T>)>)
    requires Inv(q) && Books(q)
    ensures Inv(Run(q, schedule)) && Books(Run(q, schedule))
    decreases |schedule|
  {
    assert Shaped(q);
    hide Inv, Books, Step;
    if schedule != [] {
      var (t, c) := schedule[0];
      if t < |q.threads| && Step(q, t, c).Some? {
        StepKeepsBooks(q, t, c);
        RunKeepsBooks(Step(q, t, c).value, schedule[1..]);
      } else {
        RunKeepsBooks(q, schedule[1..]);
      }
    }
  }

  lemma NewIsOk<T>(size: nat, threads: nat)
    requires size >= 2 && PowerOfTwo(size)
    ensures Inv(New<T>(size, threads).value) && Books(New<T>(size, threads).value)
  {
    var q := New<T>(size, threads).value;
    forall i | 0 <= i < size ensures CellOk(q, i) {
      SmallSlot(size, i);
    }
  }

  lemma SmallSlot(n: nat, i: nat)
    requires n >= 2 && i < n
    ensures Slot(n, i) == i
  {}

  /**
   * After any schedule of any number of threads: every ticket is written, published, moved out and released at most once,
   * in that order and after the same slot's previous lap; what is moved out is what that ticket's push was given.
   */
  lemma EveryRunIsExactlyOnce<T>(size: nat, threads: nat, schedule: seq<(nat, Choice<T>)>)
    requires size >= 2 && PowerOfTwo(size)
    ensures var q := Run(New<T>(size, threads).value, schedule);
      && Inv(q) && Books(q)
      && q.deq <= q.enq <= q.deq + size
      && (forall p: nat, what | what !in {PushRefused, PopRefused} :: Count(q.log, what, p) <= 1)
  {
    NewIsOk<T>(size, threads);
    RunKeepsBooks(New<T>(size, threads).value, schedule);
    var q := Run(New<T>(size, threads).value, schedule);
    forall p: nat, what | what !in {PushRefused, PopRefused} ensures Count(q.log, what, p) <= 1 {
      assert Tallied(q, p);
    }
  }

  /** With no call under way, exactly the first enq tickets were pushed and exactly the first deq popped. */
  lemma QuietRunIsExact<T>(size: nat, threads: nat, schedule: seq<(nat, Choice<T>)>, p: nat)
    requires size >= 2 && PowerOfTwo(size)
    requires var q := Run(New<T>(size, threads).value, schedule);
      forall t :: 0 <= t < |q.threads| ==> q.threads[t].Idle?
    ensures var q := Run(New<T>(size, threads).value, schedule);
      && Count(q.log, Wrote, p) == Count(q.log, Published, p) == (if p < q.enq then 1 else 0)
      && Count(q.log, Moved, p) == Count(q.log, Released, p) == (if p < q.deq then 1 else 0)
  {
    var q := Run(New<T>(size, threads).value, schedule);
    EveryRunIsExactlyOnce<T>(size, threads, schedule);
    assert Tallied(q, p) && TicketOk(q, p);
    SlotReached(q, p);
  }

  /** A claimed ticket's slot has come as far as the ticket, a popped one's further. */
  lemma SlotReached<T>(q: Queue<T>, p: nat)
    requires Inv(q)
    ensures p < q.enq ==> SeqAt(q, p) >= p
    ensures p < q.deq ==> SeqAt(q, p) >= p + 1
  {
    hide Slot, TicketOk;
    Laps(q.size);
    assert CellOk(q, Slot(q.size, p));
  }

  /** The queue's contents as a caller sees them: pushes that took a ticket and no pop has. */
  function Contents<T>(q: Queue<T>): (s: seq<T>)
    requires Shaped(q) && q.deq <= q.enq
    ensures |s| == q.enq - q.deq
  {
    q.items[q.deq..q.enq]
  }

  /**
   * The queue refines a bounded first-in first-out queue: a step appends the pusher's value when its exchange succeeds, removes
   * the head when a popper's does, and is invisible otherwise; the popper then returns that head.
   */
  lemma StepRefinesFifo<T>(q: Queue<T>, t: nat, c: Choice<T>)
    requires Inv(q) && t < |q.threads| && Step(q, t, c).Some?
    ensures var r := Step(q, t, c).value;
      && Inv(r) && |Contents(r)| <= r.size
      && (if q.threads[t].PushCas? && r.threads[t].PushWrite? then
            |Contents(q)| < q.size && Contents(r) == Contents(q) + [q.threads[t].v] && r.deq == q.deq
          else if q.threads[t].PopCas? && r.threads[t].PopRead? then
            Contents(q) == [q.items[r.threads[t].pos]] + Contents(r) && r.items == q.items
          else Contents(r) == Contents(q) && r.items == q.items)
      && (q.threads[t].PopStore? ==> r.log == q.log + [Event(Released, q.threads[t].pos, Some(q.items[q.threads[t].pos]))])
  {
    StepKeepsInv(q, t, c);
    hide Slot, CellOk, TicketOk;
    assert ThreadOk(q, q.threads[t]);
    HeadAndTail(q.items, q.deq, q.enq);
    hide Inv, ThreadOk;
  }

  lemma HeadAndTail<T>(items: seq<T>, d: nat, e: nat)
    requires d <= e <= |items|
    ensures d < e ==> items[d..e] == [items[d]] + items[d + 1..e]
  {}

  /** A push is refused exactly when the queue is full or the pop of its slot's previous lap has not finished. */
  lemma PushRefusedIff<T>(q: Queue<T>, t: nat)
    requires Inv(q) && t < |q.threads| && q.threads[t].PushSeq?
    ensures Advance(q, t, false).threads[t].Idle? <==>
      q.threads[t].pos == q.enq && (q.enq == q.deq + q.size || (q.enq >= q.size && Popping(q, q.enq - q.size)))
  {
    hide Slot;
    Laps(q.size);
    var pos := q.threads[t].pos;
    assert ThreadOk(q, q.threads[t]) && CellOk(q, Slot(q.size, pos));
    if pos >= q.size {
      assert Slot(q.size, pos - q.size) == Slot(q.size, pos);
      assert TicketOk(q, pos - q.size);
      if Popping(q, pos - q.size) { PoppingMeans(q, pos - q.size); }
    }
  }

  lemma PoppingMeans<T>(q: Queue<T>, p: nat)
    requires Inv(q) && Popping(q, p)
    ensures p < q.deq && SeqAt(q, p) == p + 1
  {
    var u :| 0 <= u < |q.threads| && Pops(q.threads[u], p);
    assert ThreadOk(q, q.threads[u]);
  }

  lemma PushingMeans<T>(q: Queue<T>, p: nat)
    requires Inv(q) && Pushing(q, p)
    ensures p < q.enq && SeqAt(q, p) == p
  {
    var u :| 0 <= u < |q.threads| && Pushes(q.threads[u], p);
    assert ThreadOk(q, q.threads[u]);
  }

  /** A pop is refused exactly when the queue is empty or the push of the next ticket has not finished. */
  lemma PopRefusedIff<T>(q: Queue<T>, t: nat)
    requires Inv(q) && t < |q.threads| && q.threads[t].PopSeq?
    ensures Advance(q, t, false).threads[t].Idle? <==>
      q.threads[t].pos == q.deq && (q.enq == q.deq || Pushing(q, q.deq))
  {
    hide Slot;
    Laps(q.size);
    var pos := q.threads[t].pos;
    assert ThreadOk(q, q.threads[t]) && CellOk(q, Slot(q.size, pos)) && TicketOk(q, pos);
    if Pushing(q, pos) { PushingMeans(q, pos); }
  }
}
