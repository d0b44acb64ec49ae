/** Address mapping: bit fields in any order, and the stack-level interleave. */
module Address {
  import opened Commands

  // ---- Bits of unbounded naturals -----------------------------------------------------------------------

  function Pow2(n: nat): (p: nat)
    ensures p >= 1
  {
    if n == 0 then 1 else 2 * Pow2(n - 1)
  }

  /** x >> n */
  function Shr(x: nat, n: nat): nat { if n == 0 then x else Shr(x / 2, n - 1) }

  /** x & ((1 << n) - 1) */
  function Low(x: nat, n: nat): (r: nat)
    ensures r < Pow2(n)
  {
    if n == 0 then 0 else 2 * Low(x / 2, n - 1) + x % 2
  }

  /** (hi << n) | lo, for lo below 1 << n */
  function Join(hi: nat, n: nat, lo: nat): nat {
    if n == 0 then hi else 2 * Join(hi, n - 1, lo / 2) + lo % 2
  }

  lemma {:induction false} ShrShr(x: nat, a: nat, b: nat)
    ensures Shr(Shr(x, a), b) == Shr(x, a + b)
  {
    if a > 0 { ShrShr(x / 2, a - 1, b); }
  }

  lemma {:induction false} SplitJoin(hi: nat, n: nat, lo: nat)
    requires lo < Pow2(n)
    ensures Shr(Join(hi, n, lo), n) == hi && Low(Join(hi, n, lo), n) == lo
  {
    if n > 0 { SplitJoin(hi, n - 1, lo / 2); }
  }

  lemma {:induction false} JoinSplit(x: nat, n: nat)
    ensures Join(Shr(x, n), n, Low(x, n)) == x
  {
    if n > 0 { JoinSplit(x / 2, n - 1); }
  }

  lemma {:induction false} ShrBound(x: nat, a: nat, b: nat)
    requires x < Pow2(a + b)
    ensures Shr(x, b) < Pow2(a)
  {
    if b > 0 { ShrBound(x / 2, a, b - 1); }
  }

  lemma HalveFirst(x: nat, p: nat)
    requires p >= 1
    ensures x / (2 * p) == (x / 2) / p && x % (2 * p) == 2 * ((x / 2) % p) + x % 2
  {
    var q, r := (x / 2) / p, (x / 2) % p;
    assert x == 2 * (q * p + r) + x % 2;
    Quotient(x, 2 * p, q, 2 * r + x % 2);
  }

  lemma Quotient(x: int, d: int, q: int, r: int)
    requires d >= 1 && x == q * d + r && 0 <= r < d
    ensures x / d == q && x % d == r
  {
    var e := x / d - q;
    assert e * d == r - x % d;
    assert (e >= 1 ==> e * d >= d) && (e <= -1 ==> e * d <= -d);
  }

  lemma {:induction false} ShiftsDivide(x: nat, n: nat)
    ensures Shr(x, n) == x / Pow2(n) && Low(x, n) == x % Pow2(n)
  {
    if n > 0 {
      ShiftsDivide(x / 2, n - 1);
      HalveFirst(x, Pow2(n - 1));
    }
  }

  lemma {:induction false} JoinsMultiply(x: nat, n: nat, lo: nat)
    requires lo < Pow2(n)
    ensures Join(x, n, lo) == x * Pow2(n) + lo
  {
    if n > 0 {
      JoinsMultiply(x, n - 1, lo / 2);
      Twice(x, Pow2(n - 1));
    }
  }

  lemma Twice(x: nat, p: nat)
    ensures x * (2 * p) == 2 * (x * p)
  {}

  /** Shifting, masking and joining are division, remainder and multiplication by a power of two. */
  lemma BitsAreArithmetic(x: nat, n: nat, lo: nat)
    ensures Shr(x, n) == x / Pow2(n) && Low(x, n) == x % Pow2(n)
    ensures lo < Pow2(n) ==> Join(x, n, lo) == x * Pow2(n) + lo
  {
    hide Shr, Low, Join, Pow2;
    ShiftsDivide(x, n);
    if lo < Pow2(n) { JoinsMultiply(x, n, lo); }
  }

  lemma {:induction false} PowersMultiply(a: nat, b: nat)
    ensures Pow2(a + b) == Pow2(a) * Pow2(b)
  {
    if a > 0 {
      PowersMultiply(a - 1, b);
      assert 2 * Pow2(a - 1) * Pow2(b) == 2 * (Pow2(a - 1) * Pow2(b));
    }
  }

  lemma {:induction false} LogOfPower(n: nat)
    ensures Log2(Pow2(n)) == n
  {
    if n > 0 { LogOfPower(n - 1); }
  }

  /** Floor of the base-2 logarithm, as the loop counts it; 0 for arguments below 2. */
  method LogBase2(n: int) returns (i: nat)
    ensures i == Log2(n)
  {
    i := 0;
    var m := n;
    while m > 1
      invariant Log2(n) == i + Log2(m)
      decreases m
    {
      m := m / 2;
      i := i + 1;
    }
  }

  function Log2(n: int): (i: nat)
    ensures n >= 1 ==> Pow2(i) <= n < 2 * Pow2(i)
  {
    if n > 1 then 1 + Log2(n / 2) else 0
  }

  // ---- Field positions --------------------------------------------------------------------------------------

  datatype Field = Ch | Ra | Bg | Ba | Ro | Co

  const FIELDS: set<Field> := {Ch, Ra, Bg, Ba, Ro, Co}

  /** One number for each field: widths, positions, or decoded coordinates. */
  datatype PerField = PerField(ch: nat, ra: nat, bg: nat, ba: nat, ro: nat, co: nat) {
    function Of(f: Field): nat {
      match f case Ch => ch case Ra => ra case Bg => bg case Ba => ba case Ro => ro case Co => co
    }
  }

  function Token(s: string): Option<Field> {
    if s == "ch" then Some(Ch) else if s == "ra" then Some(Ra) else if s == "bg" then Some(Bg)
    else if s == "ba" then Some(Ba) else if s == "ro" then Some(Ro) else if s == "co" then Some(Co) else None
  }

  /** Fields named by a mapping string, most significant first; None when a token is unknown. */
  function Fields(s: string): (r: Option<seq<Field>>)
    requires |s| % 2 == 0
    ensures r.Some? ==> |r.value| == |s| / 2
  {
    if s == [] then Some([])
    else
      var f, rest := Token(s[..2]), Fields(s[2..]);
      if f.Some? && rest.Some? then Some([f.value] + rest.value) else None
  }

  /** Lowest bit of a field: the widths of all fields written after it. */
  function PosOf(order: seq<Field>, width: PerField, f: Field): nat
    requires f in order
  {
    var last := order[|order| - 1];
    if last == f then 0 else width.Of(last) + PosOf(order[..|order| - 1], width, f)
  }

  function Total(order: seq<Field>, width: PerField): nat {
    if order == [] then 0 else Total(order[..|order| - 1], width) + width.Of(order[|order| - 1])
  }

  function Extract(x: nat, pos: nat, w: nat): (r: nat)
    ensures r < Pow2(w)
  {
    Low(Shr(x, pos), w)
  }

  /** The address that holds value v.Of(f) in field f. */
  function Pack(order: seq<Field>, width: PerField, v: PerField): nat {
    if order == [] then 0
    else
      var last := order[|order| - 1];
      Join(Pack(order[..|order| - 1], width, v), width.Of(last), v.Of(last))
  }

  /** Decoding a packed address gives every field back. */
  lemma {:induction false} DecodePack(order: seq<Field>, width: PerField, v: PerField, f: Field)
    requires f in order && Distinct(order)
    requires forall g :: g in order ==> v.Of(g) < Pow2(width.Of(g))
    ensures Extract(Pack(order, width, v), PosOf(order, width, f), width.Of(f)) == v.Of(f)
  {
    var rest, last := order[..|order| - 1], order[|order| - 1];
    SplitJoin(Pack(rest, width, v), width.Of(last), v.Of(last));
    if last != f {
      DecodePack(rest, width, v, f);
      ShrShr(Pack(order, width, v), width.Of(last), PosOf(rest, width, f));
    }
  }

  /** Packing decoded fields gives the address back: decoding loses no bit below the total width. */
  lemma {:induction false} PackDecode(order: seq<Field>, width: PerField, v: PerField, x: nat)
    requires Distinct(order) && x < Pow2(Total(order, width))
    requires forall g :: g in order ==> v.Of(g) == Extract(x, PosOf(order, width, g), width.Of(g))
    ensures Pack(order, width, v) == x
  {
    if order != [] {
      var rest, last := order[..|order| - 1], order[|order| - 1];
      var w := width.Of(last);
      ShrBound(x, Total(rest, width), w);
      forall g | g in rest ensures v.Of(g) == Extract(Shr(x, w), PosOf(rest, width, g), width.Of(g)) {
        ShrShr(x, w, PosOf(rest, width, g));
        assert g in order;
      }
      PackDecode(rest, width, v, Shr(x, w));
      assert last in order;
      JoinSplit(x, w);
    }
  }

  /** Fields never overlap: of two fields, one ends at or below where the other begins. */
  lemma {:induction false} FieldsDisjoint(order: seq<Field>, width: PerField, f: Field, g: Field)
    requires Distinct(order) && f in order && g in order && f != g
    ensures var p, q := PosOf(order, width, f), PosOf(order, width, g);
      (p + width.Of(f) <= q || q + width.Of(g) <= p) && p + width.Of(f) <= Total(order, width)
  {
    var rest, last := order[..|order| - 1], order[|order| - 1];
    if last == f || last == g {
      PosFits(order, width, f);
    } else {
      FieldsDisjoint(rest, width, f, g);
    }
  }

  lemma {:induction false} PosFits(order: seq<Field>, width: PerField, f: Field)
    requires f in order
    ensures PosOf(order, width, f) + width.Of(f) <= Total(order, width)
  {
    if order[|order| - 1] != f { PosFits(order[..|order| - 1], width, f); }
  }

  // ---- The configuration's mapping ------------------------------------------------------------------------

  /** Structure sizes the widths come from. */
  datatype Geometry = Geometry(
    channels: int, ranks: int, bankgroups: int, banksPerGroup: int, rows: int, columns: int, busWidth: int, BL: int)

  function Widths(g: Geometry): PerField
    requires Log2(g.columns) >= Log2(g.BL)
  {
    PerField(Log2(g.channels), Log2(g.ranks), Log2(g.bankgroups), Log2(g.banksPerGroup), Log2(g.rows),
             Log2(g.columns) - Log2(g.BL))
  }

  datatype Layout = Layout(shift: nat, pos: PerField, width: PerField)

  function AddressMapping(lay: Layout, addr: nat): (r: PerField)
    ensures forall f: Field :: r.Of(f) < Pow2(lay.width.Of(f))
  {
    var x := Shr(addr, lay.shift);
    PerField(Extract(x, lay.pos.ch, lay.width.ch), Extract(x, lay.pos.ra, lay.width.ra),
             Extract(x, lay.pos.bg, lay.width.bg), Extract(x, lay.pos.ba, lay.width.ba),
             Extract(x, lay.pos.ro, lay.width.ro), Extract(x, lay.pos.co, lay.width.co))
  }

  function GetChannel(lay: Layout, addr: nat): nat {
    Extract(Shr(addr, lay.shift), lay.pos.ch, lay.width.ch)
  }

  /** The layout of a mapping: request-size shift, widths from the geometry, positions from the order. */
  ghost predicate LaidOut(lay: Layout, g: Geometry, order: seq<Field>)
    requires Log2(g.columns) >= Log2(g.BL)
  {
    && Distinct(order) && (forall f: Field :: f in order)
    && lay.shift == Log2(g.busWidth / 8 * g.BL)
    && lay.width == Widths(g)
    && forall f: Field :: f in order && lay.pos.Of(f) == PosOf(order, lay.width, f)
  }

  function Named(order: seq<Field>): set<Field> { set f | f in order }

  /** A list names as many fields as it is long exactly when it names none twice. */
  lemma {:induction false} NamedSize(order: seq<Field>)
    ensures |Named(order)| <= |order| && (|Named(order)| == |order| <==> Distinct(order))
  {
    if order != [] {
      var rest, last := order[..|order| - 1], order[|order| - 1];
      NamedSize(rest);
      assert order == rest + [last];
      assert Named(order) == Named(rest) + {last};
      if last in rest {
        var i :| 0 <= i < |rest| && rest[i] == last;
        assert order[i] == order[|order| - 1];
      }
    }
  }

  lemma SixFields(order: seq<Field>)
    requires |order| == 6
    ensures Distinct(order) <==> Named(order) == FIELDS
    ensures forall f: Field :: f in FIELDS
  {
    NamedSize(order);
    forall f: Field ensures f in FIELDS { match f case Ch => case Ra => case Bg => case Ba => case Ro => case Co => }
    assert Named(order) <= FIELDS;
    assert |FIELDS - Named(order)| == |FIELDS| - |Named(order)|;
  }

  /** Width of everything from the n-th field on. */
  function After(order: seq<Field>, width: PerField, n: nat): nat
    requires n <= |order|
    decreases |order| - n
  {
    if n == |order| then 0 else width.Of(order[n]) + After(order, width, n + 1)
  }

  lemma {:induction false} AfterFront(order: seq<Field>, width: PerField, n: nat)
    requires n < |order|
    ensures After(order, width, n) == After(order[..|order| - 1], width, n) + width.Of(order[|order| - 1])
    decreases |order| - n
  {
    if n < |order| - 1 { AfterFront(order, width, n + 1); }
  }

  lemma {:induction false} PosIsAfter(order: seq<Field>, width: PerField, n: nat)
    requires Distinct(order) && n < |order|
    ensures PosOf(order, width, order[n]) == After(order, width, n + 1)
  {
    if n < |order| - 1 {
      PosIsAfter(order[..|order| - 1], width, n);
      AfterFront(order, width, n + 1);
    }
  }

  lemma AfterStep(order: seq<Field>, width: PerField, n: nat)
    requires n <= |order|
    ensures After(order, width, n) == if n == |order| then 0 else width.Of(order[n]) + After(order, width, n + 1)
  {}

  lemma ElsewhereNamed(order: seq<Field>, n: nat)
    requires n < |order|
    ensures Distinct(order) ==> forall m :: n < m < |order| ==> order[m] != order[n]
  {}

  /** The loop over the field list, last field first. */
  method FieldPositions(order: seq<Field>, width: PerField) returns (pos: map<Field, nat>)
    ensures pos.Keys == Named(order)
    ensures Distinct(order) ==> forall n :: 0 <= n < |order| ==> pos[order[n]] == After(order, width, n + 1)
  {
    hide After, Distinct;
    var fields, next := order, 0;
    pos := map[];
    AfterStep(order, width, |order|);
    while |fields| > 0
      invariant |fields| <= |order| && fields == order[..|fields|]
      invariant next == After(order, width, |fields|)
      invariant pos.Keys <= Named(order)
      invariant forall n :: |fields| <= n < |order| ==> order[n] in pos
      invariant Distinct(order) ==> forall n :: |fields| <= n < |order| ==> pos[order[n]] == After(order, width, n + 1)
    {
      var token := fields[|fields| - 1];
      assert token == order[|fields| - 1];
      AfterStep(order, width, |fields| - 1);
      ElsewhereNamed(order, |fields| - 1);
      fields := fields[..|fields| - 1];
      pos := pos[token := next];
      next := next + width.Of(token);
    }
  }

  /** Positions of the six fields, or None where the program stops: wrong length, unknown field, or a field missing. */
  method SetAddressMapping(g: Geometry, mapping: string) returns (r: Option<Layout>)
    requires Log2(g.columns) >= Log2(g.BL)
    ensures r.Some? <==> |mapping| == 12 && Fields(mapping).Some? && Distinct(Fields(mapping).value)
    ensures r.Some? ==> LaidOut(r.value, g, Fields(mapping).value)
  {
    if |mapping| != 12 { return None; }
    var shift := LogBase2(g.busWidth / 8 * g.BL);
    var order := Fields(mapping);
    if order.None? { return None; }
    var pos := FieldPositions(order.value, Widths(g));
    SixFields(order.value);
    if pos.Keys != FIELDS { return None; }
    r := Some(Layout(shift, PerField(pos[Ch], pos[Ra], pos[Bg], pos[Ba], pos[Ro], pos[Co]), Widths(g)));
    assert forall f: Field :: f in Named(order.value);
    forall f: Field ensures f in order.value && r.value.pos.Of(f) == PosOf(order.value, Widths(g), f) {
      var n :| 0 <= n < 6 && order.value[n] == f;
      PosIsAfter(order.value, Widths(g), n);
      match f case Ch => case Ra => case Bg => case Ba => case Ro => case Co =>
    }
  }

  // ---- Round trips of the whole mapping ---------------------------------------------------------------------

  /** The request-aligned address with the given coordinates. */
  function AddressOf(lay: Layout, order: seq<Field>, at: PerField): nat {
    Join(Pack(order, lay.width, at), lay.shift, 0)
  }

  /** Decoding gives back any coordinates that fit their fields. */
  lemma MappingOfAddress(lay: Layout, g: Geometry, order: seq<Field>, at: PerField)
    requires Log2(g.columns) >= Log2(g.BL) && LaidOut(lay, g, order)
    requires forall f: Field :: at.Of(f) < Pow2(lay.width.Of(f))
    ensures AddressMapping(lay, AddressOf(lay, order, at)) == at
  {
    SplitJoin(Pack(order, lay.width, at), lay.shift, 0);
    var r := AddressMapping(lay, AddressOf(lay, order, at));
    forall f: Field ensures r.Of(f) == at.Of(f) {
      DecodePack(order, lay.width, at, f);
    }
    assert r.ch == r.Of(Ch) && r.ra == r.Of(Ra) && r.bg == r.Of(Bg) && r.ba == r.Of(Ba) && r.ro == r.Of(Ro) && r.co == r.Of(Co);
    assert at.ch == at.Of(Ch) && at.ra == at.Of(Ra) && at.bg == at.Of(Bg) && at.ba == at.Of(Ba) && at.ro == at.Of(Ro) && at.co == at.Of(Co);
  }

  /** Every request-aligned address below the capacity is the address of its coordinates, so decoding is a bijection. */
  lemma AddressOfMapping(lay: Layout, g: Geometry, order: seq<Field>, addr: nat)
    requires Log2(g.columns) >= Log2(g.BL) && LaidOut(lay, g, order)
    requires Low(addr, lay.shift) == 0 && Shr(addr, lay.shift) < Pow2(Total(order, lay.width))
    ensures AddressOf(lay, order, AddressMapping(lay, addr)) == addr
  {
    var r, x := AddressMapping(lay, addr), Shr(addr, lay.shift);
    forall f | f in order ensures r.Of(f) == Extract(x, PosOf(order, lay.width, f), lay.width.Of(f)) {
      assert lay.pos.Of(f) == PosOf(order, lay.width, f);
    }
    PackDecode(order, lay.width, r, x);
    JoinSplit(addr, lay.shift);
  }

  /** Each coordinate, by arithmetic on the byte address. */
  lemma CoordinateIs(lay: Layout, addr: nat, f: Field)
    ensures AddressMapping(lay, addr).Of(f) == addr / Pow2(lay.shift + lay.pos.Of(f)) % Pow2(lay.width.Of(f))
  {
    var x := Shr(addr, lay.shift);
    ShrShr(addr, lay.shift, lay.pos.Of(f));
    BitsAreArithmetic(addr, lay.shift + lay.pos.Of(f), 0);
    BitsAreArithmetic(Shr(x, lay.pos.Of(f)), lay.width.Of(f), 0);
    assert AddressMapping(lay, addr).Of(f) == Extract(x, lay.pos.Of(f), lay.width.Of(f)) by {
      match f case Ch => case Ra => case Bg => case Ba => case Ro => case Co =>
    }
  }

  /** What a field adds to the total. */
  function Share(order: seq<Field>, width: PerField, f: Field): nat { if f in order then width.Of(f) else 0 }

  lemma ShareStep(order: seq<Field>, width: PerField, f: Field)
    requires order != [] && Distinct(order)
    ensures var rest, last := order[..|order| - 1], order[|order| - 1];
      Share(order, width, f) == Share(rest, width, f) + if f == last then width.Of(f) else 0
  {
    var rest, last := order[..|order| - 1], order[|order| - 1];
    assert order == rest + [last];
  }

  lemma {:induction false} TotalIsShares(order: seq<Field>, width: PerField)
    requires Distinct(order)
    ensures Total(order, width) == Share(order, width, Ch) + Share(order, width, Ra) + Share(order, width, Bg)
                                 + Share(order, width, Ba) + Share(order, width, Ro) + Share(order, width, Co)
  {
    hide Share;
    if order == [] {
      assert forall f: Field :: Share(order, width, f) == 0 by { NoShare(width); }
    } else {
      TotalIsShares(order[..|order| - 1], width);
      forall f: Field { ShareStep(order, width, f); }
    }
  }

  lemma NoShare(width: PerField)
    ensures forall f: Field :: Share([], width, f) == 0
  {}

  /** A geometry whose sizes are powers of two. */
  predicate PowersOfTwo(g: Geometry, e: PerField, bl: nat, bus: nat) {
    && g.channels == Pow2(e.ch) && g.ranks == Pow2(e.ra) && g.bankgroups == Pow2(e.bg) && g.banksPerGroup == Pow2(e.ba)
    && g.rows == Pow2(e.ro) && g.columns == Pow2(e.co) && g.BL == Pow2(bl) && g.busWidth / 8 == Pow2(bus) && bl <= e.co
  }

  /** Then the mapping wastes no bit: an address has exactly as many as it takes to number the bytes of the memory. */
  lemma AddressesAreCapacity(lay: Layout, g: Geometry, order: seq<Field>, e: PerField, bl: nat, bus: nat)
    requires PowersOfTwo(g, e, bl, bus) && Log2(g.columns) >= Log2(g.BL) && LaidOut(lay, g, order)
    ensures lay.shift + Total(order, lay.width) == e.ch + e.ra + e.bg + e.ba + e.ro + e.co + bus
    ensures lay.shift == bus + bl && lay.width == e.(co := e.co - bl)
  {
    hide Pow2, Log2, Distinct, PosOf, Total;
    PowersMultiply(bus, bl);
    LogOfPower(bus + bl);
    LogOfPower(e.ch); LogOfPower(e.ra); LogOfPower(e.bg); LogOfPower(e.ba); LogOfPower(e.ro); LogOfPower(e.co); LogOfPower(bl);
    TotalIsShares(order, lay.width);
    assert forall f: Field :: f in order;
  }

  lemma NextField(token: string, rest: string, f: Field, fs: seq<Field>)
    requires |token| == 2 && Token(token) == Some(f) && |rest| % 2 == 0 && Fields(rest) == Some(fs)
    ensures Fields(token + rest) == Some([f] + fs)
  {
    assert (token + rest)[..2] == token && (token + rest)[2..] == rest;
  }

  /** The default mapping string names channels first and columns last. */
  lemma DefaultFields()
    ensures Fields("chrobabgraco") == Some([Ch, Ro, Ba, Bg, Ra, Co])
  {
    Tokens();
    hide Token;
    NextField("co", "", Co, []);
    hide Fields;
    NextField("ra", "co" + "", Ra, [Co] + []);
    NextField("bg", "ra" + ("co" + ""), Bg, [Ra] + ([Co] + []));
    NextField("ba", "bg" + ("ra" + ("co" + "")), Ba, [Bg] + ([Ra] + ([Co] + [])));
    NextField("ro", "ba" + ("bg" + ("ra" + ("co" + ""))), Ro, [Ba] + ([Bg] + ([Ra] + ([Co] + []))));
    NextField("ch", "ro" + ("ba" + ("bg" + ("ra" + ("co" + "")))), Ch, [Ro] + ([Ba] + ([Bg] + ([Ra] + ([Co] + [])))));
    assert "ch" + ("ro" + ("ba" + ("bg" + ("ra" + ("co" + ""))))) == "chrobabgraco";
    assert [Ch] + ([Ro] + ([Ba] + ([Bg] + ([Ra] + ([Co] + []))))) == [Ch, Ro, Ba, Bg, Ra, Co];
  }

  lemma Tokens()
    ensures Token("ch") == Some(Ch) && Token("ra") == Some(Ra) && Token("bg") == Some(Bg)
    ensures Token("ba") == Some(Ba) && Token("ro") == Some(Ro) && Token("co") == Some(Co)
  {
    assert "ra"[0] == 'r' && "bg"[1] == 'g' && "ba"[0] == 'b' && "ba"[1] == 'a' && "ro"[1] == 'o' && "ra"[1] == 'a' && "bg"[0] == 'b';
    assert "co"[1] == 'o' && "ch"[1] == 'h' && "ch"[0] == 'c' && "co"[0] == 'c' && "ro"[0] == 'r';
  }

  /** So its columns are lowest, then ranks, bankgroups, banks and rows, and channels highest. */
  lemma DefaultLayout(lay: Layout, g: Geometry)
    requires Log2(g.columns) >= Log2(g.BL) && LaidOut(lay, g, [Ch, Ro, Ba, Bg, Ra, Co])
    ensures var (p, w) := (lay.pos, lay.width);
      p.co == 0 && p.ra == w.co && p.bg == p.ra + w.ra && p.ba == p.bg + w.bg && p.ro == p.ba + w.ba && p.ch == p.ro + w.ro
  {
    var o, w := [Ch, Ro, Ba, Bg, Ra, Co], lay.width;
    forall n | 0 <= n < 6 ensures lay.pos.Of(o[n]) == After(o, w, n + 1) {
      PosIsAfter(o, w, n);
      assert o[n] in o;
    }
    hide After, LaidOut, Distinct;
    forall n | 0 <= n <= 6 ensures After(o, w, n) == if n == 6 then 0 else w.Of(o[n]) + After(o, w, n + 1) { AfterStep(o, w, n); }
    assert o[0] == Ch && o[1] == Ro && o[2] == Ba && o[3] == Bg && o[4] == Ra && o[5] == Co;
  }

  /** Decoded coordinates always name a bank that exists, whether or not the sizes are powers of two. */
  lemma MappingInRange(lay: Layout, g: Geometry, order: seq<Field>, addr: nat)
    requires Log2(g.columns) >= Log2(g.BL) && LaidOut(lay, g, order)
    requires g.channels >= 1 && g.ranks >= 1 && g.bankgroups >= 1 && g.banksPerGroup >= 1 && g.rows >= 1
    ensures var r := AddressMapping(lay, addr);
      && r.ch < g.channels && r.ra < g.ranks && r.bg < g.bankgroups && r.ba < g.banksPerGroup && r.ro < g.rows
      && GetChannel(lay, addr) == r.ch
  {
    var r := AddressMapping(lay, addr);
    assert r.Of(Ch) < Pow2(lay.width.Of(Ch)) && r.Of(Ra) < Pow2(lay.width.Of(Ra)) && r.Of(Bg) < Pow2(lay.width.Of(Bg));
    assert r.Of(Ba) < Pow2(lay.width.Of(Ba)) && r.Of(Ro) < Pow2(lay.width.Of(Ro));
  }

  // ---- Stack interleave -----------------------------------------------------------------------------------------

  /** (stack, address within the stack): bits [l, r) name the stack and are taken out of the address. */
  function StackMap(l: nat, r: nat, x: nat): (nat, nat)
    requires l <= r
  {
    (Low(Shr(x, l), r - l), Join(Shr(Shr(x, r - l), l), l, Low(x, l)))
  }

  function StackUnmap(l: nat, r: nat, st: nat, a: nat): nat
    requires l <= r
  {
    Join(Join(Shr(a, l), r - l, st), l, Low(a, l))
  }

  /** The interleave is injective: stack and inner address give the original address back. */
  lemma StackRoundTrip(l: nat, r: nat, x: nat)
    requires l <= r
    ensures var m := StackMap(l, r, x); StackUnmap(l, r, m.0, m.1) == x
  {
    var m := StackMap(l, r, x);
    SplitJoin(Shr(Shr(x, r - l), l), l, Low(x, l));
    ShrShr(x, r - l, l);
    ShrShr(x, l, r - l);
    JoinSplit(Shr(x, l), r - l);
    JoinSplit(x, l);
  }

  /** Every stack number that fits and every inner address is the image of exactly the address rebuilt from them. */
  lemma StackOnto(l: nat, r: nat, st: nat, a: nat)
    requires l <= r && st < Pow2(r - l)
    ensures StackMap(l, r, StackUnmap(l, r, st, a)) == (st, a)
  {
    var x := StackUnmap(l, r, st, a);
    SplitJoin(Join(Shr(a, l), r - l, st), l, Low(a, l));
    SplitJoin(Shr(a, l), r - l, st);
    ShrShr(x, r - l, l);
    ShrShr(x, l, r - l);
    JoinSplit(a, l);
  }

  /** The interleave by arithmetic: stacks take turns every 2^l bytes, and within a stack the blocks close up. */
  lemma StackMapIs(l: nat, r: nat, x: nat)
    requires l <= r
    ensures StackMap(l, r, x) == (x / Pow2(l) % Pow2(r - l), x / Pow2(r) * Pow2(l) + x % Pow2(l))
  {
    BitsAreArithmetic(x, l, 0);
    BitsAreArithmetic(Shr(x, l), r - l, 0);
    ShrShr(x, r - l, l);
    BitsAreArithmetic(x, r, 0);
    BitsAreArithmetic(Shr(x, r), l, Low(x, l));
  }
}
