/** The expected state after a method is submitted to an object: the
    methods an object class rejects, the methods that validate their
    argument (ROP, pattern shape, SUBDIVIDE) or simply store it (BETA, the
    solid colour), the context switch and NOTIFY. */
module PgraphMethods {
  import opened Bits
  import opened PgraphState
  import opened PgraphMmio

  /** The object classes the method tests address. */
  const Classes: seq<bv32> := [0x01, 0x02, 0x03, 0x04, 0x05, 0x06, 0x08, 0x09, 0x0a, 0x0b, 0x0c,
                               0x0d, 0x0e, 0x1d, 0x1e, 0x10, 0x11, 0x12, 0x13, 0x14]

  /** No NOTIFY request pending (bits 16 and 20 clear). The method tests
      clear them before submitting, so that nothing but the method itself
      changes the state. */
  predicate Quiet(s: State) {
    s.ctx.notify & 0x0011_0000 == 0
  }

  /* ---------- rejecting a method ---------- */

  /** The engine's answer to a method it rejects: INTR bit 0, the given
      INVALID reason bits, and ACCESS bits 0 and 8 cleared. */
  function Reject(s: State, reason: bv32): State {
    s.(ctl := s.ctl.(intr := SetBits(s.ctl.intr, 1), invalid := SetBits(s.ctl.invalid, reason)),
       ctx := s.ctx.(access := ClearBits(s.ctx.access, 0x101)))
  }

  /** A rejection raises INTR bit 0 and keeps the other INTR bits. */
  lemma RejectIntr(s: State, reason: bv32)
    ensures Reject(s, reason).ctl.intr & 1 == 1
    ensures Reject(s, reason).ctl.intr & !1 == s.ctl.intr & !1
  {
    SetBitsFacts(s.ctl.intr, 1);
  }

  /** A rejection raises the reason bits in INVALID and keeps the others. */
  lemma RejectInvalid(s: State, reason: bv32)
    ensures Reject(s, reason).ctl.invalid & reason == reason
    ensures Reject(s, reason).ctl.invalid & !reason == s.ctl.invalid & !reason
  {
    SetBitsFacts(s.ctl.invalid, reason);
  }

  /** A rejection clears ACCESS bits 0 and 8 and keeps the others. */
  lemma RejectAccess(s: State, reason: bv32)
    ensures Reject(s, reason).ctx.access & 0x101 == 0
    ensures Reject(s, reason).ctx.access & !0x101 == s.ctx.access & !0x101
  {
    ClearBitsFacts(s.ctx.access, 0x101);
  }

  /** Nothing but INTR, INVALID and ACCESS changes. */
  lemma RejectFrame(s: State, reason: bv32)
    ensures Reject(s, reason).(ctl := s.ctl, ctx := s.ctx) == s
    ensures Reject(s, reason).ctl.(intr := s.ctl.intr, invalid := s.ctl.invalid) == s.ctl
    ensures Reject(s, reason).ctx.(access := s.ctx.access) == s.ctx
  {
  }

  /** Rejecting twice for the same reason is rejecting once. */
  lemma RejectIdempotent(s: State, reason: bv32)
    ensures Reject(Reject(s, reason), reason) == Reject(s, reason)
  {
    SetBitsTwice(s.ctl.intr, 1);
    SetBitsTwice(s.ctl.invalid, reason);
    ClearBitsTwice(s.ctx.access, 0x101);
  }

  /* ---------- the per-class method table ---------- */

  /** The texture classes: TEXLIN, TEXQUAD and their BETA variants. */
  predicate TexClass(cls: bv32) {
    cls == 0x0d || cls == 0x0e || cls == 0x1d || cls == 0x1e
  }

  /** The methods of a texture class: SUBDIVIDE, the vertex positions
      (4 vertices for a TEXLIN, 9 for a TEXQUAD), their BETA words for the
      BETA variants, and the colour data. */
  predicate TexMethod(cls: bv32, mthd: int) {
    var vcnt := if cls & 0xf == 0xe then 9 else 4;
    var vcntd2 := (vcnt + 1) / 2;
    || mthd == 0x304
    || 0x310 <= mthd < 0x310 + vcnt * 4
    || 0x350 <= mthd < 0x350 + vcnt * 4
    || (cls & 0x10 != 0 && 0x380 <= mthd < 0x380 + vcntd2 * 4)
    || 0x400 <= mthd < 0x480
  }

  /** The methods the class accepts. CTX_SWITCH (0) and NOTIFY (0x104)
      are accepted by every class. */
  predicate MethodLegal(cls: bv32, mthd: int) {
    || mthd == 0 || mthd == 0x104
    || ((cls == 1 || cls == 2) && mthd == 0x300)
    || ((cls == 3 || cls == 4) && mthd == 0x304)
    || (cls == 5 && (mthd == 0x300 || mthd == 0x304))
    || (cls == 6 && (mthd == 0x308 || 0x310 <= mthd <= 0x31c))
    || (8 <= cls <= 0xc && mthd == 0x304)
    || (cls == 8 && 0x400 <= mthd < 0x580)
    || (9 <= cls <= 0xa && 0x400 <= mthd < 0x680)
    || (cls == 0xb && 0x310 <= mthd < 0x31c)
    || (cls == 0xb && 0x320 <= mthd < 0x338)
    || (cls == 0xb && 0x400 <= mthd < 0x600)
    || (cls == 0xc && 0x400 <= mthd < 0x480)
    || (TexClass(cls) && TexMethod(cls, mthd))
    || (cls == 0x10 && 0x300 <= mthd < 0x30c)
    || (cls == 0x11 && 0x304 <= mthd < 0x310)
    || (cls == 0x12 && 0x308 <= mthd < 0x31c)
    || (0x11 <= cls <= 0x12 && 0x400 <= mthd < 0x480)
    || (0x13 <= cls <= 0x14 && 0x308 <= mthd < 0x318)
    || (cls == 0x13 && 0x40 <= mthd < 0x80)
  }

  /** The methods of the 0x2000-byte method space (one per 4 bytes) that
      the class does not accept, in increasing order. */
  method IllegalMethods(cls: bv32) returns (ms: seq<int>)
    ensures forall m :: m in ms <==> 0 <= m < 0x2000 && m % 4 == 0 && !MethodLegal(cls, m)
    ensures forall i, j :: 0 <= i < j < |ms| ==> ms[i] < ms[j]
  {
    ms := [];
    var mthd := 0;
    while mthd < 0x2000
      invariant 0 <= mthd <= 0x2000 && mthd % 4 == 0
      invariant forall m :: m in ms <==> 0 <= m < mthd && m % 4 == 0 && !MethodLegal(cls, m)
      invariant forall i, j :: 0 <= i < j < |ms| ==> ms[i] < ms[j]
      invariant forall i :: 0 <= i < |ms| ==> ms[i] < mthd
    {
      if !MethodLegal(cls, mthd) {
        ms := ms + [mthd];
      }
      mthd := mthd + 4;
    }
  }

  /** An illegal method is rejected with INVALID reason bit 0. */
  function InvalidMethod(s: State, cls: bv32, mthd: int): State
    requires Quiet(s) && !MethodLegal(cls, mthd)
  {
    Reject(s, 1)
  }

  /** An illegal method raises INTR bit 0 and INVALID bit 0, clears ACCESS
      bits 0 and 8, and changes nothing else. */
  lemma InvalidMethodOutcome(s: State, cls: bv32, mthd: int)
    requires Quiet(s) && !MethodLegal(cls, mthd)
    ensures InvalidMethod(s, cls, mthd).ctl.intr & 1 == 1
    ensures InvalidMethod(s, cls, mthd).ctl.invalid & 1 == 1
    ensures InvalidMethod(s, cls, mthd).ctx.access & 0x101 == 0
    ensures InvalidMethod(s, cls, mthd).(ctl := s.ctl, ctx := s.ctx) == s
  {
    RejectIntr(s, 1);
    RejectInvalid(s, 1);
    RejectAccess(s, 1);
    RejectFrame(s, 1);
  }

  /** An illegal method keeps every other bit of INTR, INVALID and ACCESS
      and every other control and context register. */
  lemma InvalidMethodKeeps(s: State, cls: bv32, mthd: int)
    requires Quiet(s) && !MethodLegal(cls, mthd)
    ensures Agree(InvalidMethod(s, cls, mthd).ctl.intr, s.ctl.intr, 0xffff_fffe)
    ensures Agree(InvalidMethod(s, cls, mthd).ctl.invalid, s.ctl.invalid, 0xffff_fffe)
    ensures Agree(InvalidMethod(s, cls, mthd).ctx.access, s.ctx.access, 0xffff_fefe)
    ensures InvalidMethod(s, cls, mthd).ctl.(intr := s.ctl.intr, invalid := s.ctl.invalid) == s.ctl
    ensures InvalidMethod(s, cls, mthd).ctx.(access := s.ctx.access) == s.ctx
  {
    BitZeroWord(s.ctl.intr);
    BitZeroWord(s.ctl.invalid);
    AccessWord(s.ctx.access);
    RejectFrame(s, 1);
  }

  lemma BitZeroWord(x: bv32)
    ensures Agree(SetBits(x, 1), x, 0xffff_fffe)
  {
  }

  /** CTX_SWITCH and NOTIFY are never rejected; the BETA words belong to
      the BETA variants of the texture classes only; the same method is
      legal or not depending on the class. */
  lemma MethodTableExamples(cls: bv32)
    ensures MethodLegal(cls, 0) && MethodLegal(cls, 0x104)
    ensures MethodLegal(0x1d, 0x380) && !MethodLegal(0x0d, 0x380)
    ensures MethodLegal(0x1e, 0x390) && !MethodLegal(0x1d, 0x388)
    ensures MethodLegal(0x0e, 0x330) && !MethodLegal(0x0d, 0x330)
    ensures MethodLegal(0x08, 0x57c) && !MethodLegal(0x08, 0x580)
    ensures !MethodLegal(0x01, 0x304) && MethodLegal(0x03, 0x304)
  {
  }

  /* ---------- methods that validate their argument ---------- */

  /** ROP: the low byte is stored; a value with any bit above bit 7 is
      rejected. */
  function Rop(s: State, val: bv32): State
    requires Quiet(s)
  {
    var t := s.(pattern := s.pattern.(rop := val & 0xff));
    if val & 0xffff_ff00 != 0 then Reject(t, 0x10) else t
  }

  /** Bits 8-31 are set exactly when the value exceeds 0xff. */
  lemma HighBitsAbove(val: bv32)
    ensures val & 0xffff_ff00 != 0 <==> val > 0xff
  {
  }

  /** The ROP method stores what an MMIO write of the ROP register would
      store, and is rejected exactly when the value exceeds 0xff. */
  lemma RopMatchesMmio(s: State, val: bv32)
    requires Quiet(s)
    ensures val <= 0xff ==> Rop(s, val) == s.(pattern := PatternWrite(s.pattern, 18, 0, val))
    ensures val > 0xff ==> Rop(s, val) == Reject(s.(pattern := PatternWrite(s.pattern, 18, 0, val)), 0x10)
  {
    HighBitsAbove(val);
  }

  /** Pattern shape: the low two bits are stored; a value above 2 is
      rejected. */
  function PatternShape(s: State, val: bv32): State
    requires Quiet(s)
  {
    var t := s.(pattern := s.pattern.(config := val & 3));
    if val > 2 then Reject(t, 0x10) else t
  }

  /** The shape method stores what an MMIO write of PATTERN_CONFIG would
      store; the legal shapes are 0, 1 and 2, and shape 3 is stored but
      rejected. */
  lemma PatternShapeMatchesMmio(s: State, val: bv32)
    requires Quiet(s)
    ensures val <= 2 ==> PatternShape(s, val) == s.(pattern := PatternWrite(s.pattern, 16, 0, val))
    ensures val > 2 ==> PatternShape(s, val) == Reject(s.(pattern := PatternWrite(s.pattern, 16, 0, val)), 0x10)
    ensures PatternShape(s, 3).pattern.config == 3
  {
  }

  /** A rejected shape or ROP raises INVALID bit 4; a state with no
      INVALID bits, as the generator leaves it, shows the reason exactly
      when the argument is illegal. */
  lemma ValidatedReason(s: State, val: bv32)
    requires Quiet(s) && s.ctl.invalid == 0
    ensures PatternShape(s, val).ctl.invalid == (if val > 2 then 0x10 else 0)
    ensures Rop(s, val).ctl.invalid == (if val > 0xff then 0x10 else 0)
  {
    HighBitsAbove(val);
  }

  /** Nibble j (bits 4j to 4j+3) of v. */
  function Nibble(v: bv32, j: nat): bv32
    requires j < 8
  {
    Extr(v, 4 * j as bv32, 4)
  }

  /** Some nibble below nibble n exceeds 8. */
  predicate NibbleAbove8(val: bv32, n: nat)
    requires n <= 8
  {
    n > 0 && (NibbleAbove8(val, n - 1) || Nibble(val, n - 1) > 8)
  }

  /** A SUBDIVIDE argument is illegal when bits 8-15 are set, when any
      nibble exceeds 8, or when either of the two lowest nibbles is below
      2. */
  predicate SubdivideIllegal(val: bv32) {
    val & 0xff00 != 0 || NibbleAbove8(val, 8) || Nibble(val, 0) < 2 || Nibble(val, 1) < 2
  }

  /** The recursive reading of "some nibble exceeds 8" is the
      existential one. */
  lemma {:induction false} NibbleAbove8Exists(val: bv32, n: nat)
    requires n <= 8
    ensures NibbleAbove8(val, n) <==> exists j: nat :: j < n && Nibble(val, j) > 8
  {
    if n > 0 {
      NibbleAbove8Exists(val, n - 1);
      if NibbleAbove8(val, n - 1) {
        var j: nat :| j < n - 1 && Nibble(val, j) > 8;
        assert j < n && Nibble(val, j) > 8;
      } else if Nibble(val, n - 1) > 8 {
        assert n - 1 < n;
      } else {
        forall j: nat | j < n
          ensures Nibble(val, j) <= 8
        {
          if j < n - 1 {
            assert !(j < n - 1 && Nibble(val, j) > 8);
          }
        }
      }
    }
  }

  /** The errors found among the first j nibbles. */
  predicate SubdivideErrorSoFar(val: bv32, j: nat)
    requires j <= 8
  {
    || val & 0xff00 != 0
    || NibbleAbove8(val, j)
    || (0 < j && Nibble(val, 0) < 2)
    || (1 < j && Nibble(val, 1) < 2)
  }

  /** The nibble-by-nibble check of a SUBDIVIDE argument. */
  method CheckSubdivide(val: bv32) returns (err: bool)
    ensures err <==> SubdivideIllegal(val)
  {
    err := val & 0xff00 != 0;
    var j := 0;
    while j < 8
      invariant 0 <= j <= 8
      invariant err <==> SubdivideErrorSoFar(val, j)
    {
      if Nibble(val, j) > 8 {
        err := true;
      }
      if j < 2 && Nibble(val, j) < 2 {
        err := true;
      }
      j := j + 1;
    }
  }

  /** SUBDIVIDE: the argument without bits 8-15 is stored; an illegal one
      is rejected. */
  function Subdivide(s: State, val: bv32): State
    requires Quiet(s)
  {
    var t := s.(draw := s.draw.(subdivide := val & 0xffff_00ff));
    if SubdivideIllegal(val) then Reject(t, 0x10) else t
  }

  lemma LegalSubdivideKept(val: bv32)
    requires val & 0xff00 == 0
    ensures val & 0xffff_00ff == val
  {
  }

  /** The SUBDIVIDE method stores what an MMIO write of SUBDIVIDE would
      store; a legal argument has no bits 8-15 to lose, so it is stored
      unchanged. */
  lemma SubdivideMatchesMmio(s: State, val: bv32)
    requires Quiet(s)
    ensures !SubdivideIllegal(val) ==> Subdivide(s, val) == s.(draw := DrawWrite(s.draw, 34, 0, val))
    ensures SubdivideIllegal(val) ==> Subdivide(s, val) == Reject(s.(draw := DrawWrite(s.draw, 34, 0, val)), 0x10)
    ensures !SubdivideIllegal(val) ==> Subdivide(s, val).draw.subdivide == val
  {
    if !SubdivideIllegal(val) {
      LegalSubdivideKept(val);
    }
  }

  lemma NibbleBound8(v: bv32, j: nat)
    requires j < 8
    requires v & 0x7777_7777 == 0 || v == 0x22
    ensures Nibble(v, j) <= 8
  {
  }

  /** The lowest legal step counts and some rejected ones. */
  lemma SubdivideExamples()
    ensures !SubdivideIllegal(0x0000_0022)
    ensures !SubdivideIllegal(0x8888_0088)
    ensures SubdivideIllegal(0x0000_0012)
    ensures SubdivideIllegal(0x0000_0122)
    ensures SubdivideIllegal(0x0900_0022)
  {
    assert Nibble(0x0000_0012, 0) == 2 && Nibble(0x0000_0012, 1) == 1;
    assert Nibble(0x0900_0022, 6) == 9;
    NibbleAbove8Exists(0x0000_0022, 8);
    NibbleAbove8Exists(0x8888_0088, 8);
    NibbleAbove8Exists(0x0900_0022, 8);
    forall j: nat | j < 8
      ensures Nibble(0x0000_0022, j) <= 8 && Nibble(0x8888_0088, j) <= 8
    {
      NibbleBound8(0x0000_0022, j);
      NibbleBound8(0x8888_0088, j);
    }
  }

  /* ---------- methods that store their argument ---------- */

  /** The BETA method stores the truncated factor. */
  function Beta(s: State, val: bv32): State
    requires Quiet(s)
  {
    s.(pattern := s.pattern.(beta := BetaTruncate(val)))
  }

  /** It is the MMIO write of BETA, and the factor it stores is the value
      with a negative one cleared first, then masked to bits 23-30. */
  lemma BetaMatchesMmio(s: State, val: bv32)
    requires Quiet(s)
    ensures Beta(s, val) == s.(pattern := PatternWrite(s.pattern, 21, 0, val))
    ensures Beta(s, val).pattern.beta == (if val & 0x8000_0000 != 0 then 0 else val) & 0x7f80_0000
  {
    BetaTruncateOrders(val);
  }

  /** The solid colour methods store the word as the 32-bit source colour. */
  function SolidColor(s: State, val: bv32): State
    requires Quiet(s)
  {
    s.(draw := s.draw.(misc32 := val))
  }

  /** It is the MMIO write of the source-colour register, which keeps all
      32 bits. */
  lemma SolidColorMatchesMmio(s: State, val: bv32)
    requires Quiet(s)
    ensures SolidColor(s, val) == s.(draw := DrawWrite(s.draw, 33, 0, val))
    ensures DrawLoad(SolidColor(s, val).draw, 33, 0) == val
  {
  }

  /* ---------- the context switch ---------- */

  /** A switch happens when the new object word names another object
      (bits 15-22) or the current context is not valid (CTX_CONTROL bit
      16 clear). */
  predicate Switches(x: Context, val: bv32) {
    val & 0x007f_8000 != x.ctxSwitch[0] & 0x007f_8000 || Extr(x.ctxControl, 16, 1) == 0
  }

  /** The volatile state is reset when the new word asks for it (bit 31),
      DEBUG[2] bit 28 allows it, and the context is invalid or the channel
      (bits 16-22) is unchanged. */
  predicate VolatileReset(s: State, val: bv32) {
    && val >> 31 != 0
    && Extr(s.ctl.debug[2], 28, 1) != 0
    && (Extr(s.ctx.ctxControl, 16, 1) == 0 || Extr(s.ctx.ctxSwitch[0], 16, 7) == Extr(val, 16, 7))
  }

  /** CTX_CONTROL after a switch: bits 16 and 24 set on a switch, bit 24
      cleared otherwise. */
  function SwitchedCtxControl(c: bv32, sw: bool): bv32 {
    if sw then SetBits(c, 0x0101_0000) else ClearBits(c, 0x0100_0000)
  }

  /** ACCESS after a switch: bits 0 and 8 cleared on a switch, and the
      class field (bits 12-16) takes the new class. */
  function SwitchedAccess(a: bv32, cls: bv32, sw: bool): bv32 {
    if sw then Insrt(ClearBits(a, 0x101), 12, 5, cls) else Insrt(a, 12, 5, cls)
  }

  /** The context side of a switch; CTX_SWITCH[0] takes the new object
      word under its mask. */
  function SwitchContext(x: Context, cls: bv32, val: bv32): Context {
    var sw := Switches(x, val);
    x.(ctxControl := SwitchedCtxControl(x.ctxControl, sw),
       access := SwitchedAccess(x.access, cls, sw),
       ctxSwitch := x.ctxSwitch[0 := val & 0x807f_ffff])
  }

  /** INTR gains bit 4 on a switch. */
  function SwitchedIntr(i: bv32, sw: bool): bv32 {
    if sw then SetBits(i, 0x10) else i
  }

  /** DEBUG[1] bit 0 records whether the volatile state was reset. */
  function VolatileFlag(d: bv32, vr: bool): bv32 {
    if vr then Insrt(d, 0, 1, 1) else Insrt(d, 0, 1, 0)
  }

  /** The control side of a switch. */
  function SwitchControl(c: Control, sw: bool, vr: bool): Control {
    c.(intr := SwitchedIntr(c.intr, sw), debug := c.debug[1 := VolatileFlag(c.debug[1], vr)])
  }

  /** The volatile part of the pattern: the bitmap colours lose bits
      30-31. */
  function VolatilePattern(p: Pattern): Pattern {
    p.(bitmapColor := [p.bitmapColor[0] & 0x3fff_ffff, p.bitmapColor[1] & 0x3fff_ffff])
  }

  /** The volatile part of the rasteriser state. */
  function VolatileDraw(d: DrawState): DrawState {
    d.(valid := d.valid & 0x1100_0000,
       xyMisc0 := 0,
       xyMisc1 := d.xyMisc1 & 0x0003_3300,
       xyMisc4 := [0x0055_5500, 0x0055_5500],
       misc32 := d.misc32 & 0x00ff_00ff,
       subdivide := d.subdivide & 0xffff_0000)
  }

  /** A pending NOTIFY (bit 20) is delivered at a context switch: INTR
      bits 0 and 28, INVALID bit 16, ACCESS bits 0 and 8 cleared, and the
      request dropped. */
  function DeliverNotify(s: State): State {
    if s.ctx.notify & 0x0010_0000 != 0 then
      s.(ctl := s.ctl.(intr := SetBits(s.ctl.intr, 0x1000_0001), invalid := SetBits(s.ctl.invalid, 0x0001_0000)),
         ctx := s.ctx.(access := ClearBits(s.ctx.access, 0x101), notify := ClearBits(s.ctx.notify, 0x0010_0000)))
    else s
  }

  /** The state just before a pending NOTIFY is delivered. */
  function Switched(s: State, cls: bv32, val: bv32): State {
    var vr := VolatileReset(s, val);
    s.(ctl := SwitchControl(s.ctl, Switches(s.ctx, val), vr),
       ctx := SwitchContext(s.ctx, cls, val),
       pattern := if vr then VolatilePattern(s.pattern) else s.pattern,
       draw := if vr then VolatileDraw(s.draw) else s.draw)
  }

  /** The whole context switch to object word val of class cls. The test
      clears NOTIFY bit 16 first. */
  function CtxSwitch(s: State, cls: bv32, val: bv32): State
    requires s.ctx.notify & 0x0001_0000 == 0
  {
    DeliverNotify(Switched(s, cls, val))
  }

  lemma SwitchedCtxControlMark(c: bv32, sw: bool)
    ensures sw ==> Extr(SwitchedCtxControl(c, sw), 24, 1) == 1
    ensures !sw ==> Extr(SwitchedCtxControl(c, sw), 24, 1) == 0
  {
  }

  lemma SwitchedCtxControlValid(c: bv32, sw: bool)
    ensures sw || Extr(c, 16, 1) != 0 ==> Extr(SwitchedCtxControl(c, sw), 16, 1) == 1
    ensures SwitchedCtxControl(c, sw) & 0xfefe_ffff == c & 0xfefe_ffff
  {
  }

  /** CTX_CONTROL after a switch: bit 24 is set exactly when a switch
      happened, and bit 16 (context valid) is always set. */
  lemma SwitchContextControl(x: Context, cls: bv32, val: bv32)
    ensures Extr(SwitchContext(x, cls, val).ctxControl, 24, 1) == 1 <==> Switches(x, val)
    ensures Extr(SwitchContext(x, cls, val).ctxControl, 16, 1) == 1
  {
    SwitchedCtxControlMark(x.ctxControl, Switches(x, val));
    SwitchedCtxControlValid(x.ctxControl, Switches(x, val));
  }

  /** The other CTX_CONTROL bits are kept. */
  lemma SwitchContextControlKeeps(x: Context, cls: bv32, val: bv32)
    ensures SwitchContext(x, cls, val).ctxControl & 0xfefe_ffff == x.ctxControl & 0xfefe_ffff
  {
    SwitchedCtxControlValid(x.ctxControl, Switches(x, val));
  }

  lemma SwitchedAccessClass(a: bv32, cls: bv32, sw: bool)
    requires cls < 0x20
    ensures Extr(SwitchedAccess(a, cls, sw), 12, 5) == cls
  {
  }

  lemma SwitchedAccessLow(a: bv32, cls: bv32, sw: bool)
    ensures sw ==> SwitchedAccess(a, cls, sw) & 0x101 == 0
    ensures !sw ==> SwitchedAccess(a, cls, sw) & 0x101 == a & 0x101
    ensures SwitchedAccess(a, cls, sw) & 0xfffe_0efe == a & 0xfffe_0efe
  {
  }

  /** ACCESS after a switch: the class field holds the new class. */
  lemma SwitchContextClass(x: Context, cls: bv32, val: bv32)
    requires cls < 0x20
    ensures Extr(SwitchContext(x, cls, val).access, 12, 5) == cls
  {
    SwitchedAccessClass(x.access, cls, Switches(x, val));
  }

  /** ACCESS bits 0 and 8 are cleared on a switch and kept otherwise. */
  lemma SwitchContextAccess(x: Context, cls: bv32, val: bv32)
    ensures Switches(x, val) ==> SwitchContext(x, cls, val).access & 0x101 == 0
    ensures !Switches(x, val) ==> SwitchContext(x, cls, val).access & 0x101 == x.access & 0x101
  {
    SwitchedAccessLow(x.access, cls, Switches(x, val));
  }

  /** The ACCESS bits outside the class field and bits 0 and 8 are kept. */
  lemma SwitchContextAccessKeeps(x: Context, cls: bv32, val: bv32)
    ensures SwitchContext(x, cls, val).access & 0xfffe_0efe == x.access & 0xfffe_0efe
  {
    SwitchedAccessLow(x.access, cls, Switches(x, val));
  }

  lemma ObjectBitsKept(val: bv32)
    ensures (val & 0x807f_ffff) & 0x007f_8000 == val & 0x007f_8000
  {
  }

  /** The new object word is stored under the CTX_SWITCH mask and the
      context is left valid, so a second switch to the same word is not a
      switch. */
  lemma SwitchContextSettles(x: Context, cls: bv32, val: bv32)
    ensures SwitchContext(x, cls, val).ctxSwitch == x.ctxSwitch[0 := val & 0x807f_ffff]
    ensures !Switches(SwitchContext(x, cls, val), val)
  {
    SwitchContextControl(x, cls, val);
    ObjectBitsKept(val);
  }

  lemma VolatileFlagBit(d: bv32, vr: bool)
    ensures vr ==> Extr(VolatileFlag(d, vr), 0, 1) == 1
    ensures !vr ==> Extr(VolatileFlag(d, vr), 0, 1) == 0
    ensures VolatileFlag(d, vr) & 0xffff_fffe == d & 0xffff_fffe
  {
  }

  lemma SwitchedIntrBit(i: bv32, sw: bool)
    ensures sw ==> SwitchedIntr(i, sw) & 0x10 == 0x10
    ensures SwitchedIntr(i, sw) & 0xffff_ffef == i & 0xffff_ffef
  {
  }

  /** INTR after the control side of a switch: bit 4 is raised on a
      switch and the other bits are kept. */
  lemma SwitchControlIntr(c: Control, sw: bool, vr: bool)
    ensures sw ==> SwitchControl(c, sw, vr).intr & 0x10 == 0x10
    ensures SwitchControl(c, sw, vr).intr & 0xffff_ffef == c.intr & 0xffff_ffef
  {
    SwitchedIntrBit(c.intr, sw);
  }

  /** DEBUG[1] bit 0 is the volatile-reset flag; its other bits are kept. */
  lemma SwitchControlDebug(c: Control, sw: bool, vr: bool)
    ensures Extr(SwitchControl(c, sw, vr).debug[1], 0, 1) == 1 <==> vr
    ensures SwitchControl(c, sw, vr).debug[1] & 0xffff_fffe == c.debug[1] & 0xffff_fffe
  {
    VolatileFlagBit(c.debug[1], vr);
  }

  /** No control register but INTR and DEBUG[1] changes. */
  lemma SwitchControlFrame(c: Control, sw: bool, vr: bool)
    ensures SwitchControl(c, sw, vr).(intr := c.intr, debug := c.debug) == c
  {
    assert SwitchControl(c, sw, vr).debug[1 := c.debug[1]] == c.debug;
  }

  lemma ClearNotifyBit(n: bv32)
    ensures ClearBits(n, 0x0010_0000) & 0x0010_0000 == 0
  {
    ClearBitsFacts(n, 0x0010_0000);
  }

  lemma DeliveryKeepsClass(a: bv32)
    ensures Extr(ClearBits(a, 0x101), 12, 5) == Extr(a, 12, 5)
  {
  }

  /** Delivering a pending NOTIFY drops the request and keeps the object
      and its class; with none pending nothing changes. */
  lemma DeliverNotifyContext(s: State)
    ensures DeliverNotify(s).ctx.notify & 0x0010_0000 == 0
    ensures s.ctx.notify & 0x0010_0000 == 0 ==> DeliverNotify(s) == s
    ensures DeliverNotify(s).ctx.ctxSwitch == s.ctx.ctxSwitch
    ensures DeliverNotify(s).ctx.ctxControl == s.ctx.ctxControl
    ensures Extr(DeliverNotify(s).ctx.access, 12, 5) == Extr(s.ctx.access, 12, 5)
  {
    if s.ctx.notify & 0x0010_0000 != 0 {
      ClearNotifyBit(s.ctx.notify);
      DeliveryKeepsClass(s.ctx.access);
    }
  }

  /** A delivered NOTIFY raises INTR bits 0 and 28 and INVALID bit 16, and
      clears ACCESS bits 0 and 8. */
  lemma DeliverNotifyRaises(s: State)
    requires s.ctx.notify & 0x0010_0000 != 0
    ensures DeliverNotify(s).ctl.intr & 0x1000_0001 == 0x1000_0001
    ensures DeliverNotify(s).ctl.invalid & 0x0001_0000 == 0x0001_0000
    ensures DeliverNotify(s).ctx.access & 0x101 == 0
  {
    SetBitsFacts(s.ctl.intr, 0x1000_0001);
    SetBitsFacts(s.ctl.invalid, 0x0001_0000);
    ClearBitsFacts(s.ctx.access, 0x101);
  }

  lemma DeliveryWords(i: bv32, v: bv32)
    ensures Agree(SetBits(i, 0x1000_0001), i, 0xefff_fffe)
    ensures Agree(SetBits(v, 0x0001_0000), v, 0xfffe_ffff)
  {
  }

  /** A delivered NOTIFY keeps the other bits of INTR, INVALID and
      ACCESS. */
  lemma DeliverNotifyKeeps(s: State)
    requires s.ctx.notify & 0x0010_0000 != 0
    ensures Agree(DeliverNotify(s).ctl.intr, s.ctl.intr, 0xefff_fffe)
    ensures Agree(DeliverNotify(s).ctl.invalid, s.ctl.invalid, 0xfffe_ffff)
    ensures Agree(DeliverNotify(s).ctx.access, s.ctx.access, 0xffff_fefe)
  {
    DeliveryWords(s.ctl.intr, s.ctl.invalid);
    AccessWord(s.ctx.access);
  }

  /** The context switch touches only the control and context registers,
      and the pattern and rasteriser state only on a volatile reset. */
  lemma CtxSwitchFrame(s: State, cls: bv32, val: bv32)
    requires s.ctx.notify & 0x0001_0000 == 0
    ensures CtxSwitch(s, cls, val).(ctl := s.ctl, ctx := s.ctx, pattern := s.pattern, draw := s.draw) == s
    ensures !VolatileReset(s, val) ==> CtxSwitch(s, cls, val).pattern == s.pattern
    ensures !VolatileReset(s, val) ==> CtxSwitch(s, cls, val).draw == s.draw
    ensures VolatileReset(s, val) ==> CtxSwitch(s, cls, val).draw.xyMisc4 == [0x0055_5500, 0x0055_5500]
    ensures VolatileReset(s, val) ==> CtxSwitch(s, cls, val).draw.xyMisc0 == 0
  {
  }

  /** After the whole switch the object word is stored and the class is
      recorded in ACCESS. */
  lemma CtxSwitchContext(s: State, cls: bv32, val: bv32)
    requires s.ctx.notify & 0x0001_0000 == 0
    requires cls in Classes
    ensures CtxSwitch(s, cls, val).ctx.ctxSwitch[0] == val & 0x807f_ffff
    ensures Extr(CtxSwitch(s, cls, val).ctx.access, 12, 5) == cls
  {
    SwitchContextClass(s.ctx, cls, val);
    DeliverNotifyContext(Switched(s, cls, val));
  }

  /** After the whole switch CTX_CONTROL bit 24 says whether it was a
      switch, and no NOTIFY is pending any more. */
  lemma CtxSwitchControl(s: State, cls: bv32, val: bv32)
    requires s.ctx.notify & 0x0001_0000 == 0
    ensures Extr(CtxSwitch(s, cls, val).ctx.ctxControl, 24, 1) == 1 <==> Switches(s.ctx, val)
    ensures CtxSwitch(s, cls, val).ctx.notify & 0x0010_0000 == 0
  {
    SwitchContextControl(s.ctx, cls, val);
    DeliverNotifyContext(Switched(s, cls, val));
  }

  /** Switching again to the same object word is not a switch. */
  lemma CtxSwitchSettles(s: State, cls: bv32, val: bv32)
    requires s.ctx.notify & 0x0001_0000 == 0
    ensures !Switches(CtxSwitch(s, cls, val).ctx, val)
  {
    SwitchContextSettles(s.ctx, cls, val);
    DeliverNotifyContext(Switched(s, cls, val));
  }

  /* ---------- NOTIFY ---------- */

  /** i with the bits of m set when cond holds. */
  function Raise(i: bv32, cond: bool, m: bv32): bv32 {
    if cond then SetBits(i, m) else i
  }

  /** A non-zero NOTIFY argument is illegal except on a texture class. */
  predicate NotifyArgIllegal(cls: bv32, val: bv32) {
    val != 0 && cls & 0xf != 0xd && cls & 0xf != 0xe
  }

  /** INVALID after a NOTIFY: bit 4 for an illegal argument, bit 8 when
      the object has notification disabled (CTX_SWITCH bit 8 clear), bit
      12 when a request is already pending (NOTIFY bit 16 or 20). */
  function NotifyInvalid(s: State, cls: bv32, val: bv32): bv32 {
    var i1 := Raise(s.ctl.invalid, NotifyArgIllegal(cls, val), 0x10);
    var i2 := Raise(i1, s.ctx.ctxSwitch[0] & 0x100 == 0, 0x100);
    Raise(i2, s.ctx.notify & 0x0011_0000 != 0, 0x1000)
  }

  /** INTR before the verdict: bit 28 when a request is pending at bit 20
      and no INVALID bit has been found after the argument check. */
  function NotifyIntr(s: State, cls: bv32, val: bv32): bv32 {
    Raise(s.ctl.intr, NotifyDueNow(s, cls, val), 0x1000_0000)
  }

  /** The condition for INTR bit 28: a request pending at NOTIFY bit 20
      and no INVALID bit after the argument check. */
  predicate NotifyDueNow(s: State, cls: bv32, val: bv32) {
    var early := Raise(s.ctl.invalid, NotifyArgIllegal(cls, val), 0x10);
    s.ctx.notify & 0x0010_0000 != 0 && early == 0
  }

  /** NOTIFY: with no INVALID bit the request is queued (NOTIFY bit 16);
      otherwise the method is rejected. */
  function Notify(s: State, cls: bv32, val: bv32): State {
    var inv := NotifyInvalid(s, cls, val);
    var intr := NotifyIntr(s, cls, val);
    if inv != 0 then
      s.(ctl := s.ctl.(intr := SetBits(intr, 1), invalid := inv),
         ctx := s.ctx.(access := ClearBits(s.ctx.access, 0x101)))
    else
      s.(ctl := s.ctl.(intr := intr),
         ctx := s.ctx.(notify := SetBits(s.ctx.notify, 0x0001_0000)))
  }

  lemma ReasonBits(a: bool, b: bool, c: bool)
    ensures Raise(Raise(Raise(0, a, 0x10), b, 0x100), c, 0x1000) & 0x10 != 0 <==> a
    ensures Raise(Raise(Raise(0, a, 0x10), b, 0x100), c, 0x1000) & 0x100 != 0 <==> b
    ensures Raise(Raise(Raise(0, a, 0x10), b, 0x100), c, 0x1000) & 0x1000 != 0 <==> c
    ensures Raise(Raise(Raise(0, a, 0x10), b, 0x100), c, 0x1000) & 0xffff_eeef == 0
  {
    if a { if b { if c { } else { } } else { if c { } else { } } }
    else { if b { if c { } else { } } else { if c { } else { } } }
  }

  /** Starting from no INVALID bits, as the generator leaves them, each
      reason of a NOTIFY is raised exactly when its condition holds, and
      no other bit. */
  lemma NotifyReasons(s: State, cls: bv32, val: bv32)
    requires s.ctl.invalid == 0
    ensures NotifyInvalid(s, cls, val) & 0x10 != 0 <==> NotifyArgIllegal(cls, val)
    ensures NotifyInvalid(s, cls, val) & 0x100 != 0 <==> s.ctx.ctxSwitch[0] & 0x100 == 0
    ensures NotifyInvalid(s, cls, val) & 0x1000 != 0 <==> s.ctx.notify & 0x0011_0000 != 0
    ensures NotifyInvalid(s, cls, val) & 0xffff_eeef == 0
  {
    ReasonBits(NotifyArgIllegal(cls, val), s.ctx.ctxSwitch[0] & 0x100 == 0, s.ctx.notify & 0x0011_0000 != 0);
  }

  /** A rejected NOTIFY raises INTR bit 0, records the reasons in INVALID,
      clears ACCESS bits 0 and 8 and queues nothing. */
  lemma NotifyRejected(s: State, cls: bv32, val: bv32)
    requires NotifyInvalid(s, cls, val) != 0
    ensures Notify(s, cls, val).ctl.intr & 1 == 1
    ensures Notify(s, cls, val).ctl.invalid == NotifyInvalid(s, cls, val)
    ensures Notify(s, cls, val).ctx.access & 0x101 == 0
    ensures Notify(s, cls, val).ctx.notify == s.ctx.notify
  {
    SetBitsFacts(NotifyIntr(s, cls, val), 1);
    ClearBitsFacts(s.ctx.access, 0x101);
  }

  /** A rejected NOTIFY keeps every ACCESS bit but 0 and 8. */
  lemma NotifyRejectedAccess(s: State, cls: bv32, val: bv32)
    requires NotifyInvalid(s, cls, val) != 0
    ensures Agree(Notify(s, cls, val).ctx.access, s.ctx.access, 0xffff_fefe)
  {
    AccessWord(s.ctx.access);
  }

  lemma AccessWord(a: bv32)
    ensures Agree(ClearBits(a, 0x101), a, 0xffff_fefe)
  {
  }

  /** An accepted NOTIFY queues the request at NOTIFY bit 16 and leaves
      INVALID and ACCESS alone. */
  lemma NotifyQueued(s: State, cls: bv32, val: bv32)
    requires NotifyInvalid(s, cls, val) == 0
    ensures Notify(s, cls, val).ctx.notify & 0x0001_0000 == 0x0001_0000
    ensures Notify(s, cls, val).ctl.invalid == s.ctl.invalid
    ensures Notify(s, cls, val).ctx.access == s.ctx.access
  {
    SetBitsFacts(s.ctx.notify, 0x0001_0000);
  }

  /** An accepted NOTIFY leaves INTR alone (a request pending at bit 20
      would have been a reason to reject) and every NOTIFY bit but 16. */
  lemma NotifyQueuedKeeps(s: State, cls: bv32, val: bv32)
    requires NotifyInvalid(s, cls, val) == 0
    ensures Agree(Notify(s, cls, val).ctx.notify, s.ctx.notify, 0xfffe_ffff)
    ensures Notify(s, cls, val).ctl.intr == s.ctl.intr
  {
    QueueWord(s.ctx.notify);
    RaiseZero(Raise(Raise(s.ctl.invalid, NotifyArgIllegal(cls, val), 0x10), s.ctx.ctxSwitch[0] & 0x100 == 0, 0x100),
              s.ctx.notify & 0x0011_0000 != 0, 0x1000);
    QuietBits(s.ctx.notify);
  }

  lemma QueueWord(n: bv32)
    ensures Agree(SetBits(n, 0x0001_0000), n, 0xfffe_ffff)
  {
  }

  lemma RaiseZero(i: bv32, c: bool, m: bv32)
    requires m != 0 && Raise(i, c, m) == 0
    ensures !c && i == 0
  {
  }

  lemma EarlyZero(i: bv32, a: bool)
    ensures Raise(i, a, 0x10) == 0 <==> i == 0 && !a
  {
  }

  /** INTR after a NOTIFY, with bit 28 raised on c and bit 0 on a
      rejection. */
  function NotifyIntrFinal(i: bv32, c: bool, rejected: bool): bv32 {
    if rejected then SetBits(Raise(i, c, 0x1000_0000), 1) else Raise(i, c, 0x1000_0000)
  }

  lemma NotifyIntrWord(i: bv32, c: bool, rejected: bool)
    ensures Agree(NotifyIntrFinal(i, c, rejected), i, 0xefff_fffe)
    ensures NotifyIntrFinal(i, c, rejected) & 0x1000_0000 != 0 <==> i & 0x1000_0000 != 0 || c
  {
    if c && rejected {
      IntrRaisedRejected(i);
    } else if c {
      IntrRaised(i);
    } else if rejected {
      IntrRejected(i);
    } else {
      IntrKept(i);
    }
  }

  lemma IntrRaisedRejected(i: bv32)
    ensures Agree(NotifyIntrFinal(i, true, true), i, 0xefff_fffe)
    ensures NotifyIntrFinal(i, true, true) & 0x1000_0000 != 0
  {
  }

  lemma IntrRaised(i: bv32)
    ensures Agree(NotifyIntrFinal(i, true, false), i, 0xefff_fffe)
    ensures NotifyIntrFinal(i, true, false) & 0x1000_0000 != 0
  {
  }

  lemma IntrRejected(i: bv32)
    ensures Agree(NotifyIntrFinal(i, false, true), i, 0xefff_fffe)
    ensures NotifyIntrFinal(i, false, true) & 0x1000_0000 == i & 0x1000_0000
  {
  }

  lemma IntrKept(i: bv32)
    ensures NotifyIntrFinal(i, false, false) == i
  {
  }

  /** Whether or not it is rejected, a NOTIFY keeps every INTR bit but
      0 and 28. */
  lemma NotifyIntrKeeps(s: State, cls: bv32, val: bv32)
    ensures Agree(Notify(s, cls, val).ctl.intr, s.ctl.intr, 0xefff_fffe)
  {
    if NotifyInvalid(s, cls, val) != 0 {
      NotifyIntrWord(s.ctl.intr, NotifyDueNow(s, cls, val), true);
    } else {
      NotifyIntrWord(s.ctl.intr, NotifyDueNow(s, cls, val), false);
    }
  }

  lemma NotifyDueNowIff(s: State, cls: bv32, val: bv32)
    ensures NotifyDueNow(s, cls, val) <==>
              s.ctx.notify & 0x0010_0000 != 0 && !NotifyArgIllegal(cls, val) && s.ctl.invalid == 0
  {
    EarlyZero(s.ctl.invalid, NotifyArgIllegal(cls, val));
  }

  /** Whether or not it is rejected, a NOTIFY leaves INTR bit 28 set
      exactly when it was set already or a request is pending at NOTIFY
      bit 20, the argument is legal and INVALID was clear. */
  lemma NotifyDue(s: State, cls: bv32, val: bv32)
    ensures Notify(s, cls, val).ctl.intr & 0x1000_0000 != 0 <==>
              s.ctl.intr & 0x1000_0000 != 0 ||
              (s.ctx.notify & 0x0010_0000 != 0 && !NotifyArgIllegal(cls, val) && s.ctl.invalid == 0)
  {
    NotifyDueNowIff(s, cls, val);
    if NotifyInvalid(s, cls, val) != 0 {
      NotifyIntrWord(s.ctl.intr, NotifyDueNow(s, cls, val), true);
    } else {
      NotifyIntrWord(s.ctl.intr, NotifyDueNow(s, cls, val), false);
    }
  }

  /** NOTIFY changes only the control and context registers. */
  lemma NotifyFrame(s: State, cls: bv32, val: bv32)
    ensures Notify(s, cls, val).(ctl := s.ctl, ctx := s.ctx) == s
    ensures Notify(s, cls, val).ctx.(access := s.ctx.access, notify := s.ctx.notify) == s.ctx
  {
  }

  lemma QuietBits(n: bv32)
    requires n & 0x0011_0000 == 0
    ensures n & 0x0010_0000 == 0
  {
  }

  /** A NOTIFY with a zero argument, on an object with notification
      enabled and nothing pending, is accepted by a state with no INVALID
      bits and only queues the request. */
  lemma NotifyAccepted(s: State, cls: bv32)
    requires s.ctl.invalid == 0 && s.ctx.ctxSwitch[0] & 0x100 != 0 && Quiet(s)
    ensures NotifyInvalid(s, cls, 0) == 0
    ensures Notify(s, cls, 0) == s.(ctx := s.ctx.(notify := SetBits(s.ctx.notify, 0x0001_0000)))
  {
    QuietBits(s.ctx.notify);
  }

  /** A second NOTIFY before the first is delivered is a double notify. */
  lemma NotifyTwice(s: State, cls: bv32, val: bv32)
    requires NotifyInvalid(s, cls, val) == 0
    ensures NotifyInvalid(Notify(s, cls, val), cls, val) & 0x1000 == 0x1000
  {
    var t := Notify(s, cls, val);
    NotifyQueued(s, cls, val);
    NotifyRaisesDouble(t.ctl.invalid, t.ctx.notify, NotifyArgIllegal(cls, val), t.ctx.ctxSwitch[0] & 0x100 == 0);
  }

  lemma NotifyRaisesDouble(i: bv32, n: bv32, a: bool, b: bool)
    requires n & 0x0001_0000 == 0x0001_0000
    ensures Raise(Raise(Raise(i, a, 0x10), b, 0x100), n & 0x0011_0000 != 0, 0x1000) & 0x1000 == 0x1000
  {
    SetBitsFacts(Raise(Raise(i, a, 0x10), b, 0x100), 0x1000);
  }
}
