/** The vertex methods whose effect does not depend on the rasteriser's
    helpers: the BETA words of the BETA texture classes, the IFC output
    and input sizes, and the pitch. The class the oracles consult is the
    one recorded in ACCESS bits 12-16. */
module PgraphIfc {
  import opened Bits
  import opened PgraphState
  import opened PgraphMmio
  import opened PgraphMethods

  /** The class of the current object. */
  function CurrentClass(s: State): bv32 {
    Extr(s.ctx.access, 12, 5)
  }

  /* ---------- VTX_BETA ---------- */

  /** One 16-bit BETA half encoded as a vertex BETA word: bits 7-15 of
      the half move to bits 15-23, bit 14 is set, and bit 24 copies bit
      23. */
  function BetaEncode(h: bv32): bv32 {
    var b := SetBits((h & 0xff80) << 8, 0x4000);
    if b & 0x0080_0000 != 0 then SetBits(b, 0x0100_0000) else b
  }

  /** The BETA half a vertex word stands for. */
  function BetaDecode(b: bv32): bv32 {
    Extr(b, 15, 9) << 7
  }

  /** Encoding keeps bits 7-15 of the half and nothing else of it. */
  lemma BetaRoundTrip(h: bv32)
    ensures BetaDecode(BetaEncode(h)) == h & 0xff80
  {
  }

  /** The encoded word has bit 14 set, bit 24 equal to bit 23, and no bit
      outside 14-24, so the VTX_BETA register keeps all of it. */
  lemma BetaEncodeShape(h: bv32)
    ensures BetaEncode(h) & 0x4000 == 0x4000
    ensures Extr(BetaEncode(h), 24, 1) == Extr(BetaEncode(h), 23, 1)
    ensures Within(BetaEncode(h), 0x01ff_c000)
    ensures BetaEncode(h) & 0x01ff_ffff == BetaEncode(h)
  {
  }

  lemma BetaEncodeExamples()
    ensures BetaEncode(0) == 0x4000
    ensures BetaEncode(0x007f) == 0x4000
    ensures BetaEncode(0x8000) == 0x0180_4000
    ensures BetaEncode(0xffff) == 0x01ff_c000
  {
  }

  /** Half j (0 = low, 1 = high) of the method's word. */
  function Half(val: bv32, j: int): bv32
    requires 0 <= j < 2
  {
    if j == 0 then Extr(val, 0, 16) else Extr(val, 16, 16)
  }

  /** VALID bit 12 + idx, which marks BETA word pair idx as written. */
  function BetaValidBit(idx: int): bv32
    requires 0 <= idx < 5
  {
    [0x1000, 0x2000, 0x4000, 0x8000, 0x1_0000][idx]
  }

  /** The second word of pair 4 is vertex 9, which a TEXQUAD does not
      have. */
  predicate SkipsSecond(s: State, idx: int) {
    idx * 2 + 1 == 9 && CurrentClass(s) & 0xf == 0xe
  }

  /** The VTX_BETA method for pair idx (0-4): the two halves of val go to
      BETA words 2 idx and 2 idx + 1, unless the second is vertex 9 of a
      TEXQUAD; a BETA texture class then marks the pair valid. */
  method VtxBeta(s: State, idx: int, val: bv32) returns (r: State)
    requires Quiet(s)
    requires 0 <= idx < 5
    ensures r.vtx.beta[2 * idx] == BetaEncode(Extr(val, 0, 16))
    ensures !SkipsSecond(s, idx) ==> r.vtx.beta[2 * idx + 1] == BetaEncode(Extr(val, 16, 16))
    ensures SkipsSecond(s, idx) ==> r.vtx.beta[2 * idx + 1] == s.vtx.beta[2 * idx + 1]
    ensures forall k :: 0 <= k < 14 && k != 2 * idx && k != 2 * idx + 1 ==> r.vtx.beta[k] == s.vtx.beta[k]
    ensures CurrentClass(s) == 0x1d || CurrentClass(s) == 0x1e ==> r.draw.valid == SetBits(s.draw.valid, BetaValidBit(idx))
    ensures !(CurrentClass(s) == 0x1d || CurrentClass(s) == 0x1e) ==> r.draw.valid == s.draw.valid
    ensures r == s.(vtx := s.vtx.(beta := r.vtx.beta), draw := s.draw.(valid := r.draw.valid))
  {
    var rclass := CurrentClass(s);
    var beta := s.vtx.beta;
    var j := 0;
    while j < 2
      invariant 0 <= j <= 2
      invariant |beta| == 14
      invariant j > 0 ==> beta[2 * idx] == BetaEncode(Extr(val, 0, 16))
      invariant j > 1 ==> beta[2 * idx + 1] == BetaEncode(Extr(val, 16, 16))
      invariant j <= 1 ==> beta[2 * idx + 1] == s.vtx.beta[2 * idx + 1]
      invariant j == 0 ==> beta[2 * idx] == s.vtx.beta[2 * idx]
      invariant j == 2 ==> !SkipsSecond(s, idx)
      invariant forall k :: 0 <= k < 14 && k != 2 * idx && k != 2 * idx + 1 ==> beta[k] == s.vtx.beta[k]
    {
      var vid := idx * 2 + j;
      if vid == 9 && rclass & 0xf == 0xe {
        break;
      }
      beta := beta[vid := BetaEncode(Half(val, j))];
      j := j + 1;
    }
    r := s.(vtx := s.vtx.(beta := beta));
    if rclass == 0x1d || rclass == 0x1e {
      r := r.(draw := r.draw.(valid := SetBits(r.draw.valid, BetaValidBit(idx))));
    }
  }

  /* ---------- IFC output size ---------- */

  /** The LINE, LIN and TRI classes (9-0xb) drop the low 24 VALID bits
      when a size arrives. */
  predicate LineTriClass(cls: bv32) {
    9 <= cls <= 0xb
  }

  /** The classes whose size method marks VALID bit 8: BLIT (0x10), the
      LINE, LIN and TRI classes (9-0xb) and RECT (0xc). */
  predicate SizeMarksClass(cls: bv32) {
    cls == 0x10 || 9 <= cls <= 0xc
  }

  /** The IFC, BITMAP and ITM classes (0x11-0x13) clear XY_MISC_1 bit 0. */
  predicate ImageClass(cls: bv32) {
    0x11 <= cls <= 0x13
  }

  /** v with its low 24 bits cleared when c holds. */
  function ClearLowIf(v: bv32, c: bool): bv32 {
    if c then ClearBits(v, 0x00ff_ffff) else v
  }

  /** VALID after an output size. */
  function SizeOutValid(v: bv32, cls: bv32): bv32 {
    Raise(SetBits(ClearLowIf(v, LineTriClass(cls)), 0x0002_0020), SizeMarksClass(cls), 0x100)
  }

  /** XY_MISC_1 with bit 0 cleared for the image classes. */
  function ImageMisc1(m: bv32, cls: bv32): bv32 {
    if ImageClass(cls) then Insrt(m, 0, 1, 0) else m
  }

  /** The size words: width to VTX_X[5], height to VTX_Y[5]. */
  function SizeOutVertex(v: Vertex, val: bv32): Vertex {
    v.(x := v.x[5 := Extr(val, 0, 16)], y := v.y[5 := Extr(val, 16, 16)])
  }

  /** VALID, XY_MISC_0 (bits 28-31 cleared) and XY_MISC_1 after an output
      size for an object of class cls. */
  function SizeOutDraw(d: DrawState, cls: bv32): DrawState {
    d.(valid := SizeOutValid(d.valid, cls),
       xyMisc0 := Insrt(d.xyMisc0, 28, 4, 0),
       xyMisc1 := ImageMisc1(d.xyMisc1, cls))
  }

  /** The IFC / BITMAP output size. */
  function IfcSizeOut(s: State, val: bv32): State
    requires Quiet(s)
  {
    s.(vtx := SizeOutVertex(s.vtx, val), draw := SizeOutDraw(s.draw, CurrentClass(s)))
  }

  lemma HalvesJoin(val: bv32)
    ensures (Extr(val, 16, 16) << 16) | Extr(val, 0, 16) == val
  {
  }

  /** The width lands in VTX_X[5] and the height in VTX_Y[5], no other
      vertex word changes, and the two put together give back the
      method's word. */
  lemma SizeOutStored(v: Vertex, val: bv32)
    ensures SizeOutVertex(v, val).x == v.x[5 := Extr(val, 0, 16)]
    ensures SizeOutVertex(v, val).y == v.y[5 := Extr(val, 16, 16)]
    ensures (SizeOutVertex(v, val).y[5] << 16) | SizeOutVertex(v, val).x[5] == val
    ensures SizeOutVertex(v, val).(x := v.x, y := v.y) == v
  {
    HalvesJoin(val);
  }

  lemma SizeOutValidBits(v: bv32, cls: bv32)
    ensures SizeOutValid(v, cls) & 0x0002_0020 == 0x0002_0020
    ensures SizeMarksClass(cls) ==> SizeOutValid(v, cls) & 0x100 == 0x100
  {
  }

  lemma SizeOutValidKeeps(v: bv32, cls: bv32)
    requires !LineTriClass(cls)
    ensures Agree(SizeOutValid(v, cls), v, 0xfffd_fedf)
  {
  }

  lemma SizeOutValidLineTri(v: bv32, cls: bv32)
    requires LineTriClass(cls)
    ensures Agree(SizeOutValid(v, cls), v, 0xff00_0000)
    ensures SizeOutValid(v, cls) == (v & 0xff00_0000) | 0x0002_0120
  {
  }

  /** VALID after an output size: bits 5 and 17 are set, bit 8 too for
      the classes that mark it. */
  lemma SizeOutDrawValid(d: DrawState, cls: bv32)
    ensures SizeOutDraw(d, cls).valid & 0x0002_0020 == 0x0002_0020
    ensures SizeMarksClass(cls) ==> SizeOutDraw(d, cls).valid & 0x100 == 0x100
  {
    SizeOutValidBits(d.valid, cls);
  }

  /** Outside the LINE, LIN and TRI classes every VALID bit but 5, 8 and
      17 is kept. */
  lemma SizeOutDrawKeeps(d: DrawState, cls: bv32)
    requires !LineTriClass(cls)
    ensures Agree(SizeOutDraw(d, cls).valid, d.valid, 0xfffd_fedf)
  {
    SizeOutValidKeeps(d.valid, cls);
  }

  /** The LINE, LIN and TRI classes keep the top eight VALID bits, and
      of the low 24 only 5, 8 and 17 are left, all set. */
  lemma SizeOutDrawLineTri(d: DrawState, cls: bv32)
    requires LineTriClass(cls)
    ensures Agree(SizeOutDraw(d, cls).valid, d.valid, 0xff00_0000)
    ensures SizeOutDraw(d, cls).valid == (d.valid & 0xff00_0000) | 0x0002_0120
  {
    SizeOutValidLineTri(d.valid, cls);
  }

  lemma SizeOutMiscBits(m0: bv32, m1: bv32, cls: bv32)
    ensures Extr(Insrt(m0, 28, 4, 0), 28, 4) == 0
    ensures ImageClass(cls) ==> ImageMisc1(m1, cls) & 1 == 0
    ensures !ImageClass(cls) ==> ImageMisc1(m1, cls) == m1
  {
  }

  /** XY_MISC_0 bits 28-31 are cleared; XY_MISC_1 bit 0 is cleared for
      the image classes and kept otherwise. */
  lemma SizeOutDrawMisc(d: DrawState, cls: bv32)
    ensures Extr(SizeOutDraw(d, cls).xyMisc0, 28, 4) == 0
    ensures ImageClass(cls) ==> SizeOutDraw(d, cls).xyMisc1 & 1 == 0
    ensures !ImageClass(cls) ==> SizeOutDraw(d, cls).xyMisc1 == d.xyMisc1
  {
    SizeOutMiscBits(d.xyMisc0, d.xyMisc1, cls);
  }

  /** Only the vertex buffer and the rasteriser state change, and of the
      latter only VALID and XY_MISC_0/1. */
  lemma IfcSizeOutFrame(s: State, val: bv32)
    requires Quiet(s)
    ensures IfcSizeOut(s, val).(vtx := s.vtx, draw := s.draw) == s
    ensures IfcSizeOut(s, val).draw.(valid := s.draw.valid, xyMisc0 := s.draw.xyMisc0, xyMisc1 := s.draw.xyMisc1) == s.draw
  {
  }

  /* ---------- IFC input size ---------- */

  /** VALID after an input size. The ITM method (itm) does not touch the
      low 24 bits or bit 8. */
  function SizeInValid(v: bv32, cls: bv32, itm: bool): bv32 {
    var v1 := Raise(ClearLowIf(v, !itm && LineTriClass(cls)), !itm && SizeMarksClass(cls), 0x100);
    Raise(SetBits(v1, 0x0000_8008), LineTriClass(cls), 0x0008_0080)
  }

  /** EDGEFILL bits 4 and 8 are cleared; bit 8 is set again for a BITMAP
      narrower than 32 pixels. */
  function SizeInEdgefill(e: bv32, narrow: bool): bv32 {
    Raise(ClearBits(e, 0x110), narrow, 0x100)
  }

  /** XY_MISC_4[i] bits 28-29: cleared unless the class is a TEXLIN
      (0xd, 0x1d), then bit 29 set when the dimension is non-zero. */
  function SizeInMisc4(m: bv32, cls: bv32, nonzero: bool): bv32 {
    Raise(if cls != 0x0d && cls != 0x1d then Insrt(m, 28, 2, 0) else m, nonzero, 0x2000_0000)
  }

  /** Whether the input size is empty: for class 0x14 the width equals the
      pixels per word or the height is zero, otherwise one of the two
      XY_MISC_4 size fields is zero. */
  function SizeInZero(cls: bv32, width: bv32, height: bv32, m0: bv32, m1: bv32, pixels: bv32): bool {
    if cls == 0x14 then width == pixels || height == 0
    else Extr(m0, 28, 2) == 0 || Extr(m1, 28, 2) == 0
  }

  /** XY_MISC_0: bit 12 is the empty flag, bits 28-31 cleared. */
  function SizeInMisc0(m: bv32, zero: bool): bv32 {
    Insrt(Insrt(m, 12, 1, if zero then 1 else 0), 28, 4, 0)
  }

  /** The width goes to VTX_X[3], the height, negated, to VTX_Y[3], and
      VTX_Y[1] is cleared. */
  function SizeInVertex(v: Vertex, val: bv32): Vertex {
    v.(x := v.x[3 := Extr(val, 0, 16)], y := v.y[1 := 0][3 := 0 - Extr(val, 16, 16)])
  }

  /** The rasteriser state after an input size for an object of class
      cls. `pixels` is the number of pixels per 32-bit word for the
      current colour format, and `itm` says the method was the ITM one. */
  function SizeInDraw(d: DrawState, cls: bv32, val: bv32, itm: bool, pixels: bv32): DrawState {
    var width := Extr(val, 0, 16);
    var height := 0 - Extr(val, 16, 16);
    var m0 := SizeInMisc4(d.xyMisc4[0], cls, width != 0);
    var m1 := SizeInMisc4(d.xyMisc4[1], cls, height != 0);
    d.(xyMisc1 := ImageMisc1(d.xyMisc1, cls),
       valid := SizeInValid(d.valid, cls, itm),
       edgefill := SizeInEdgefill(d.edgefill, width < 0x20 && cls == 0x12),
       xyMisc4 := [m0, m1],
       xyMisc0 := SizeInMisc0(d.xyMisc0, SizeInZero(cls, width, height, m0, m1, pixels)))
  }

  /** The IFC / BITMAP / ITM input size. */
  function IfcSizeIn(s: State, val: bv32, itm: bool, pixels: bv32): State
    requires Quiet(s)
  {
    s.(vtx := SizeInVertex(s.vtx, val), draw := SizeInDraw(s.draw, CurrentClass(s), val, itm, pixels))
  }

  /** The fields of the rasteriser state after an input size, one by one. */
  lemma SizeInDrawFields(d: DrawState, cls: bv32, val: bv32, itm: bool, pixels: bv32)
    ensures var width := Extr(val, 0, 16);
            var height := 0 - Extr(val, 16, 16);
            var m0 := SizeInMisc4(d.xyMisc4[0], cls, width != 0);
            var m1 := SizeInMisc4(d.xyMisc4[1], cls, height != 0);
            var r := SizeInDraw(d, cls, val, itm, pixels);
            r.edgefill == SizeInEdgefill(d.edgefill, width < 0x20 && cls == 0x12) &&
            r.xyMisc0 == SizeInMisc0(d.xyMisc0, SizeInZero(cls, width, height, m0, m1, pixels))
  {
  }

  lemma NegNonzero(h: bv32)
    ensures 0 - h != 0 <==> h != 0
  {
  }

  lemma NegNeg(h: bv32)
    ensures 0 - (0 - h) == h
  {
  }

  /** The width lands in VTX_X[3], the negated height in VTX_Y[3] and 0
      in VTX_Y[1]; no other vertex word changes, and the stored width and
      the negated height give back the method's word. */
  lemma SizeInStored(v: Vertex, val: bv32)
    ensures SizeInVertex(v, val).x == v.x[3 := Extr(val, 0, 16)]
    ensures SizeInVertex(v, val).y == v.y[1 := 0][3 := 0 - Extr(val, 16, 16)]
    ensures ((0 - SizeInVertex(v, val).y[3]) << 16) | SizeInVertex(v, val).x[3] == val
    ensures SizeInVertex(v, val).y[1] == 0
    ensures SizeInVertex(v, val).(x := v.x, y := v.y) == v
  {
    var w := SizeInVertex(v, val);
    assert w.x[3] == Extr(val, 0, 16);
    assert w.y[3] == 0 - Extr(val, 16, 16);
    SizeInJoin(val);
  }

  lemma SizeInJoin(val: bv32)
    ensures ((0 - (0 - Extr(val, 16, 16))) << 16) | Extr(val, 0, 16) == val
  {
    HalvesJoin(val);
    NegNeg(Extr(val, 16, 16));
  }

  lemma Misc0Flag(m: bv32, zero: bool)
    ensures Extr(SizeInMisc0(m, zero), 12, 1) == 1 <==> zero
    ensures Extr(SizeInMisc0(m, zero), 28, 4) == 0
  {
  }

  /** The empty test for every class but the TEXLIN classes and 0x14:
      width or height zero. */
  lemma ZeroPlain(cls: bv32, val: bv32, m0: bv32, m1: bv32, pixels: bv32)
    requires cls != 0x0d && cls != 0x1d && cls != 0x14
    ensures var width := Extr(val, 0, 16);
            var height := 0 - Extr(val, 16, 16);
            SizeInZero(cls, width, height, SizeInMisc4(m0, cls, width != 0), SizeInMisc4(m1, cls, height != 0), pixels)
            <==> width == 0 || Extr(val, 16, 16) == 0
  {
  }

  /** For the TEXLIN classes the size fields are kept and only gain bit
      29. */
  lemma ZeroTexlin(cls: bv32, val: bv32, m0: bv32, m1: bv32, pixels: bv32)
    requires cls == 0x0d || cls == 0x1d
    ensures var width := Extr(val, 0, 16);
            var height := 0 - Extr(val, 16, 16);
            SizeInZero(cls, width, height, SizeInMisc4(m0, cls, width != 0), SizeInMisc4(m1, cls, height != 0), pixels)
            <==> (width == 0 && Extr(m0, 28, 2) == 0) || (Extr(val, 16, 16) == 0 && Extr(m1, 28, 2) == 0)
  {
  }

  /** For class 0x14 the width is compared with the pixels per word. */
  lemma Zero14(val: bv32, m0: bv32, m1: bv32, pixels: bv32)
    ensures var width := Extr(val, 0, 16);
            var height := 0 - Extr(val, 16, 16);
            SizeInZero(0x14, width, height, m0, m1, pixels) <==> width == pixels || Extr(val, 16, 16) == 0
  {
  }

  /** For every class but the TEXLIN classes and 0x14, XY_MISC_0 bit 12
      says the input size is empty: width or height zero. */
  lemma SizeInEmpty(d: DrawState, cls: bv32, val: bv32, itm: bool, pixels: bv32)
    requires cls != 0x0d && cls != 0x1d && cls != 0x14
    ensures Extr(SizeInDraw(d, cls, val, itm, pixels).xyMisc0, 12, 1) == 1 <==> Extr(val, 0, 16) == 0 || Extr(val, 16, 16) == 0
  {
    var width := Extr(val, 0, 16);
    var height := 0 - Extr(val, 16, 16);
    var m0 := SizeInMisc4(d.xyMisc4[0], cls, width != 0);
    var m1 := SizeInMisc4(d.xyMisc4[1], cls, height != 0);
    ZeroPlain(cls, val, d.xyMisc4[0], d.xyMisc4[1], pixels);
    Misc0Flag(d.xyMisc0, SizeInZero(cls, width, height, m0, m1, pixels));
  }

  /** For the TEXLIN classes bit 12 also reflects the old size fields. */
  lemma SizeInEmptyTexlin(d: DrawState, cls: bv32, val: bv32, itm: bool, pixels: bv32)
    requires cls == 0x0d || cls == 0x1d
    ensures Extr(SizeInDraw(d, cls, val, itm, pixels).xyMisc0, 12, 1) == 1 <==>
              (Extr(val, 0, 16) == 0 && Extr(d.xyMisc4[0], 28, 2) == 0) ||
              (Extr(val, 16, 16) == 0 && Extr(d.xyMisc4[1], 28, 2) == 0)
  {
    var width := Extr(val, 0, 16);
    var height := 0 - Extr(val, 16, 16);
    var m0 := SizeInMisc4(d.xyMisc4[0], cls, width != 0);
    var m1 := SizeInMisc4(d.xyMisc4[1], cls, height != 0);
    SizeInDrawFields(d, cls, val, itm, pixels);
    ZeroTexlin(cls, val, d.xyMisc4[0], d.xyMisc4[1], pixels);
    Misc0Flag(d.xyMisc0, SizeInZero(cls, width, height, m0, m1, pixels));
  }

  /** For class 0x14 bit 12 says the width is one word of pixels or the
      height is zero. */
  lemma SizeInEmpty14(d: DrawState, val: bv32, itm: bool, pixels: bv32)
    ensures Extr(SizeInDraw(d, 0x14, val, itm, pixels).xyMisc0, 12, 1) == 1 <==> Extr(val, 0, 16) == pixels || Extr(val, 16, 16) == 0
  {
    var width := Extr(val, 0, 16);
    var height := 0 - Extr(val, 16, 16);
    var m0 := SizeInMisc4(d.xyMisc4[0], 0x14, width != 0);
    var m1 := SizeInMisc4(d.xyMisc4[1], 0x14, height != 0);
    Zero14(val, m0, m1, pixels);
    Misc0Flag(d.xyMisc0, SizeInZero(0x14, width, height, m0, m1, pixels));
  }

  lemma SizeInValidBits(v: bv32, cls: bv32, itm: bool)
    ensures SizeInValid(v, cls, itm) & 0x8008 == 0x8008
    ensures LineTriClass(cls) ==> SizeInValid(v, cls, itm) & 0x0008_0080 == 0x0008_0080
    ensures !itm && SizeMarksClass(cls) ==> SizeInValid(v, cls, itm) & 0x100 == 0x100
  {
  }

  /** VALID after an input size: bits 3 and 15 always, bits 7 and 19 for
      the LINE, LIN and TRI classes, bit 8 for the classes that mark it unless the
      method was the ITM one. */
  lemma SizeInDrawValid(d: DrawState, cls: bv32, val: bv32, itm: bool, pixels: bv32)
    ensures SizeInDraw(d, cls, val, itm, pixels).valid & 0x8008 == 0x8008
    ensures LineTriClass(cls) ==> SizeInDraw(d, cls, val, itm, pixels).valid & 0x0008_0080 == 0x0008_0080
    ensures !itm && SizeMarksClass(cls) ==> SizeInDraw(d, cls, val, itm, pixels).valid & 0x100 == 0x100
  {
    SizeInValidBits(d.valid, cls, itm);
  }

  /** For the LINE, LIN and TRI classes an ordinary input size leaves of
      the low 24 VALID bits only 3, 7, 8, 15 and 19; the ITM method keeps
      them and adds 3, 7, 15 and 19. */
  lemma SizeInValidLineTri(v: bv32, cls: bv32, itm: bool)
    requires LineTriClass(cls)
    ensures !itm ==> SizeInValid(v, cls, itm) == (v & 0xff00_0000) | 0x0008_8188
    ensures itm ==> SizeInValid(v, cls, itm) == v | 0x0008_8088
  {
  }

  /** Outside the LINE, LIN and TRI classes VALID only gains bits 3 and
      15, and bit 8 for the classes that mark it unless the method was
      the ITM one. */
  lemma SizeInValidOther(v: bv32, cls: bv32, itm: bool)
    requires !LineTriClass(cls)
    ensures !itm && SizeMarksClass(cls) ==> SizeInValid(v, cls, itm) == v | 0x8108
    ensures itm || !SizeMarksClass(cls) ==> SizeInValid(v, cls, itm) == v | 0x8008
    ensures Agree(SizeInValid(v, cls, itm), v, 0xffff_7ef7)
  {
    if !itm && SizeMarksClass(cls) {
      ValidMarked(v);
    } else {
      ValidUnmarked(v);
    }
  }

  lemma ValidMarked(v: bv32)
    ensures SetBits(SetBits(v, 0x100), 0x8008) == v | 0x8108
    ensures Agree(v | 0x8108, v, 0xffff_7ef7)
  {
  }

  lemma ValidUnmarked(v: bv32)
    ensures Agree(SetBits(v, 0x8008), v, 0xffff_7ef7)
  {
  }

  /** VALID after an input size for the LINE, LIN and TRI classes, as a
      whole word. */
  lemma SizeInDrawValidLineTri(d: DrawState, cls: bv32, val: bv32, itm: bool, pixels: bv32)
    requires LineTriClass(cls)
    ensures !itm ==> SizeInDraw(d, cls, val, itm, pixels).valid == (d.valid & 0xff00_0000) | 0x0008_8188
    ensures itm ==> SizeInDraw(d, cls, val, itm, pixels).valid == d.valid | 0x0008_8088
  {
    SizeInValidLineTri(d.valid, cls, itm);
  }

  /** Outside the LINE, LIN and TRI classes an input size keeps every
      VALID bit but 3, 8 and 15. */
  lemma SizeInDrawValidOther(d: DrawState, cls: bv32, val: bv32, itm: bool, pixels: bv32)
    requires !LineTriClass(cls)
    ensures Agree(SizeInDraw(d, cls, val, itm, pixels).valid, d.valid, 0xffff_7ef7)
  {
    SizeInValidOther(d.valid, cls, itm);
  }

  lemma Misc4Word(m: bv32, cls: bv32, nonzero: bool)
    ensures Agree(SizeInMisc4(m, cls, nonzero), m, 0xcfff_ffff)
    ensures cls != 0x0d && cls != 0x1d ==> Extr(SizeInMisc4(m, cls, nonzero), 28, 2) == if nonzero then 2 else 0
    ensures (cls == 0x0d || cls == 0x1d) && !nonzero ==> SizeInMisc4(m, cls, nonzero) == m
    ensures (cls == 0x0d || cls == 0x1d) ==> SizeInMisc4(m, cls, nonzero) == if nonzero then m | 0x2000_0000 else m
    ensures nonzero ==> Extr(SizeInMisc4(m, cls, nonzero), 29, 1) == 1
  {
    if cls != 0x0d && cls != 0x1d {
      Misc4Cleared(m, nonzero);
    } else {
      Misc4Kept(m, nonzero);
    }
  }

  lemma Misc4Cleared(m: bv32, nonzero: bool)
    ensures Agree(Raise(Insrt(m, 28, 2, 0), nonzero, 0x2000_0000), m, 0xcfff_ffff)
    ensures Extr(Raise(Insrt(m, 28, 2, 0), nonzero, 0x2000_0000), 28, 2) == if nonzero then 2 else 0
  {
    FieldCleared(m);
    if nonzero {
      FieldMarked(m);
    } else {
      FieldEmpty(m);
    }
  }

  lemma FieldCleared(m: bv32)
    ensures Insrt(m, 28, 2, 0) == m & 0xcfff_ffff
  {
  }

  lemma FieldMarked(m: bv32)
    ensures Extr((m & 0xcfff_ffff) | 0x2000_0000, 28, 2) == 2
    ensures Agree((m & 0xcfff_ffff) | 0x2000_0000, m, 0xcfff_ffff)
  {
  }

  lemma FieldEmpty(m: bv32)
    ensures Extr(m & 0xcfff_ffff, 28, 2) == 0
    ensures Agree(m & 0xcfff_ffff, m, 0xcfff_ffff)
  {
  }

  lemma Misc4Kept(m: bv32, nonzero: bool)
    ensures Agree(Raise(m, nonzero, 0x2000_0000), m, 0xcfff_ffff)
    ensures nonzero ==> Extr(Raise(m, nonzero, 0x2000_0000), 29, 1) == 1
  {
  }

  /** XY_MISC_4 after an input size: in each of the two words bits 28-29
      become 2 for a non-zero width (word 0) or height (word 1) and 0
      otherwise; the TEXLIN classes (0xd, 0x1d) keep the old field and
      only gain bit 29. No other bit changes. */
  lemma SizeInDrawMisc4(d: DrawState, cls: bv32, val: bv32, itm: bool, pixels: bv32)
    ensures var r := SizeInDraw(d, cls, val, itm, pixels).xyMisc4;
            Agree(r[0], d.xyMisc4[0], 0xcfff_ffff) && Agree(r[1], d.xyMisc4[1], 0xcfff_ffff)
    ensures var r := SizeInDraw(d, cls, val, itm, pixels).xyMisc4;
            cls != 0x0d && cls != 0x1d ==>
              Extr(r[0], 28, 2) == (if Extr(val, 0, 16) != 0 then 2 else 0) &&
              Extr(r[1], 28, 2) == (if Extr(val, 16, 16) != 0 then 2 else 0)
    ensures var r := SizeInDraw(d, cls, val, itm, pixels).xyMisc4;
            cls == 0x0d || cls == 0x1d ==>
              (Extr(val, 0, 16) != 0 ==> Extr(r[0], 29, 1) == 1) &&
              (Extr(val, 0, 16) == 0 ==> r[0] == d.xyMisc4[0]) &&
              (Extr(val, 16, 16) != 0 ==> Extr(r[1], 29, 1) == 1) &&
              (Extr(val, 16, 16) == 0 ==> r[1] == d.xyMisc4[1])
    ensures var r := SizeInDraw(d, cls, val, itm, pixels).xyMisc4;
            cls == 0x0d || cls == 0x1d ==>
              r[0] == (if Extr(val, 0, 16) != 0 then d.xyMisc4[0] | 0x2000_0000 else d.xyMisc4[0]) &&
              r[1] == (if Extr(val, 16, 16) != 0 then d.xyMisc4[1] | 0x2000_0000 else d.xyMisc4[1])
  {
    var r := SizeInDraw(d, cls, val, itm, pixels).xyMisc4;
    NegNonzero(Extr(val, 16, 16));
    assert r == [SizeInMisc4(d.xyMisc4[0], cls, Extr(val, 0, 16) != 0), SizeInMisc4(d.xyMisc4[1], cls, Extr(val, 16, 16) != 0)];
    Misc4Word(d.xyMisc4[0], cls, Extr(val, 0, 16) != 0);
    Misc4Word(d.xyMisc4[1], cls, Extr(val, 16, 16) != 0);
  }

  lemma EdgefillBits(e: bv32, narrow: bool)
    ensures SizeInEdgefill(e, narrow) & 0x100 == 0x100 <==> narrow
    ensures SizeInEdgefill(e, narrow) & 0x10 == 0
  {
  }

  lemma EdgefillKeeps(e: bv32, narrow: bool)
    ensures Agree(SizeInEdgefill(e, narrow), e, 0xffff_feef)
  {
  }

  /** EDGEFILL bit 8 is set exactly for a BITMAP narrower than 32
      pixels. */
  lemma SizeInDrawNarrow(d: DrawState, cls: bv32, val: bv32, itm: bool, pixels: bv32)
    ensures SizeInDraw(d, cls, val, itm, pixels).edgefill & 0x100 == 0x100 <==> Extr(val, 0, 16) < 0x20 && cls == 0x12
  {
    SizeInDrawFields(d, cls, val, itm, pixels);
    EdgefillBits(d.edgefill, Extr(val, 0, 16) < 0x20 && cls == 0x12);
  }

  /** EDGEFILL bit 4 is cleared by every input size. */
  lemma SizeInDrawEdgefillClear(d: DrawState, cls: bv32, val: bv32, itm: bool, pixels: bv32)
    ensures SizeInDraw(d, cls, val, itm, pixels).edgefill & 0x10 == 0
  {
    SizeInDrawFields(d, cls, val, itm, pixels);
    EdgefillBits(d.edgefill, Extr(val, 0, 16) < 0x20 && cls == 0x12);
  }

  /** The EDGEFILL bits other than 4 and 8 are kept. */
  lemma SizeInDrawEdgefillKeeps(d: DrawState, cls: bv32, val: bv32, itm: bool, pixels: bv32)
    ensures Agree(SizeInDraw(d, cls, val, itm, pixels).edgefill, d.edgefill, 0xffff_feef)
  {
    SizeInDrawFields(d, cls, val, itm, pixels);
    EdgefillKeeps(d.edgefill, Extr(val, 0, 16) < 0x20 && cls == 0x12);
  }

  /** Only the vertex buffer and the rasteriser state change, and the
      source colour and SUBDIVIDE are kept. */
  lemma IfcSizeInFrame(s: State, val: bv32, itm: bool, pixels: bv32)
    requires Quiet(s)
    ensures IfcSizeIn(s, val, itm, pixels).(vtx := s.vtx, draw := s.draw) == s
    ensures IfcSizeIn(s, val, itm, pixels).draw.subdivide == s.draw.subdivide
    ensures IfcSizeIn(s, val, itm, pixels).draw.misc32 == s.draw.misc32
  {
  }

  /* ---------- pitch ---------- */

  /** The pitch goes to VTX_X[6] whole, and VALID bits 6 and 18 are set. */
  function Pitch(s: State, val: bv32): State
    requires Quiet(s)
  {
    s.(vtx := s.vtx.(x := s.vtx.x[6 := val]), draw := s.draw.(valid := SetBits(s.draw.valid, 0x0004_0040)))
  }

  lemma PitchValidBits(v: bv32)
    ensures SetBits(v, 0x0004_0040) & 0x0004_0040 == 0x0004_0040
    ensures Agree(SetBits(v, 0x0004_0040), v, 0xfffb_ffbf)
  {
  }

  /** VALID gains bits 6 and 18 and keeps the others. */
  lemma PitchValid(s: State, val: bv32)
    requires Quiet(s)
    ensures Pitch(s, val).draw.valid & 0x0004_0040 == 0x0004_0040
    ensures Agree(Pitch(s, val).draw.valid, s.draw.valid, 0xfffb_ffbf)
  {
    PitchValidBits(s.draw.valid);
  }

  /** The pitch is stored unchanged and nothing else changes. */
  lemma PitchFrame(s: State, val: bv32)
    requires Quiet(s)
    ensures Pitch(s, val).vtx.x == s.vtx.x[6 := val]
    ensures Pitch(s, val).(vtx := s.vtx, draw := s.draw) == s
    ensures Pitch(s, val).vtx.(x := s.vtx.x) == s.vtx && Pitch(s, val).draw.(valid := s.draw.valid) == s.draw
  {
  }
}
