/** The masked MMIO-write oracle: what the state should look like after the
    CPU writes one PGRAPH register. The write test picks a case number (the
    arm of its switch) and, for register arrays, an index; each case names
    one register address and how the written value lands in the state.
    Also here: the ACCESS partial-write rule, the BETA truncation and the
    masks the bit-scan tests assert. */
module PgraphMmio {
  import opened Bits
  import opened PgraphState
  import opened PgraphReset

  /* ---------- ACCESS ---------- */

  /** One gated field of an ACCESS write: when bit `enable` of the written
      value is set, bits [off, off+w) are copied from it. */
  function AccessField(a: bv32, val: bv32, enable: bv32, off: bv32, w: bv32): (r: bv32)
    requires enable < 32 && off <= 32 && w <= 32 - off
  {
    if Extr(val, enable, 1) != 0 then Insrt(a, off, w, Extr(val, off, w)) else a
  }

  /** A write of val to ACCESS: bit 24 of the value gates bit 0, bit 25
      bit 4, bit 26 bit 8 and bit 27 the class in bits 12-16. */
  function AccessWrite(access: bv32, val: bv32): (r: bv32)
  {
    AccessField(AccessField(AccessField(AccessField(access, val, 24, 0, 1), val, 25, 4, 1), val, 26, 8, 1), val, 27, 12, 5)
  }

  lemma AccessFieldKeeps0(a: bv32, v: bv32)
    ensures AccessField(a, v, 24, 0, 1) & 0xfffe_0eee == a & 0xfffe_0eee
  {
  }

  lemma AccessFieldKeeps4(a: bv32, v: bv32)
    ensures AccessField(a, v, 25, 4, 1) & 0xfffe_0eee == a & 0xfffe_0eee
  {
  }

  lemma AccessFieldKeeps8(a: bv32, v: bv32)
    ensures AccessField(a, v, 26, 8, 1) & 0xfffe_0eee == a & 0xfffe_0eee
  {
  }

  lemma AccessFieldKeeps12(a: bv32, v: bv32)
    ensures AccessField(a, v, 27, 12, 5) & 0xfffe_0eee == a & 0xfffe_0eee
  {
  }

  /** No write changes an ACCESS bit outside 0, 4, 8 and 12-16. */
  lemma AccessWriteOutside(a: bv32, v: bv32)
    ensures AccessWrite(a, v) & 0xfffe_0eee == a & 0xfffe_0eee
  {
    var a0 := AccessField(a, v, 24, 0, 1);
    var a1 := AccessField(a0, v, 25, 4, 1);
    var a2 := AccessField(a1, v, 26, 8, 1);
    AccessFieldKeeps0(a, v);
    AccessFieldKeeps4(a0, v);
    AccessFieldKeeps8(a1, v);
    AccessFieldKeeps12(a2, v);
  }

  /** Bit 0 comes from the value when bit 24 is set, else stays. */
  lemma AccessWriteBit0(a: bv32, v: bv32)
    ensures v & 0x0100_0000 != 0 ==> AccessWrite(a, v) & 0x1 == v & 0x1
    ensures v & 0x0100_0000 == 0 ==> AccessWrite(a, v) & 0x1 == a & 0x1
  {
  }

  /** Bit 4 comes from the value when bit 25 is set, else stays. */
  lemma AccessWriteBit4(a: bv32, v: bv32)
    ensures v & 0x0200_0000 != 0 ==> AccessWrite(a, v) & 0x10 == v & 0x10
    ensures v & 0x0200_0000 == 0 ==> AccessWrite(a, v) & 0x10 == a & 0x10
  {
  }

  /** Bit 8 comes from the value when bit 26 is set, else stays. */
  lemma AccessWriteBit8(a: bv32, v: bv32)
    ensures v & 0x0400_0000 != 0 ==> AccessWrite(a, v) & 0x100 == v & 0x100
    ensures v & 0x0400_0000 == 0 ==> AccessWrite(a, v) & 0x100 == a & 0x100
  {
  }

  /** The class in bits 12-16 comes from the value when bit 27 is set,
      else stays. */
  lemma AccessWriteClass(a: bv32, v: bv32)
    ensures v & 0x0800_0000 != 0 ==> AccessWrite(a, v) & 0x1_f000 == v & 0x1_f000
    ensures v & 0x0800_0000 == 0 ==> AccessWrite(a, v) & 0x1_f000 == a & 0x1_f000
  {
  }

  /** An ACCESS word is determined by its gated fields and the rest. */
  lemma AccessFieldsDetermine(x: bv32, y: bv32)
    requires x & 0xfffe_0eee == y & 0xfffe_0eee
    requires x & 0x1 == y & 0x1 && x & 0x10 == y & 0x10 && x & 0x100 == y & 0x100
    requires x & 0x1_f000 == y & 0x1_f000
    ensures x == y
  {
  }

  /** Writing the same value twice leaves ACCESS as writing it once. */
  lemma AccessWriteIdempotent(a: bv32, v: bv32)
    ensures AccessWrite(AccessWrite(a, v), v) == AccessWrite(a, v)
  {
    var b := AccessWrite(a, v);
    AccessWriteOutside(a, v); AccessWriteOutside(b, v);
    AccessWriteBit0(a, v); AccessWriteBit0(b, v);
    AccessWriteBit4(a, v); AccessWriteBit4(b, v);
    AccessWriteBit8(a, v); AccessWriteBit8(b, v);
    AccessWriteClass(a, v); AccessWriteClass(b, v);
    AccessFieldsDetermine(AccessWrite(b, v), b);
  }

  /** With all four enables set in the old word, writing it back restores
      it whatever was written in between. */
  lemma AccessWriteRestore(a: bv32, v: bv32)
    requires a & 0x0f00_0000 == 0x0f00_0000
    ensures AccessWrite(AccessWrite(a, v), a) == a
  {
    var b := AccessWrite(a, v);
    AccessWriteOutside(a, v); AccessWriteOutside(b, a);
    AccessWriteBit0(b, a); AccessWriteBit4(b, a); AccessWriteBit8(b, a); AccessWriteClass(b, a);
    AccessFieldsDetermine(AccessWrite(b, a), a);
  }

  /** With no enable bit set a write leaves ACCESS alone. */
  lemma AccessWriteNoEnable(a: bv32, v: bv32)
    requires v & 0x0f00_0000 == 0
    ensures AccessWrite(a, v) == a
  {
  }

  /* ---------- BETA ---------- */

  /** BETA keeps only bits 23-30 of the written value, and reads 0 when
      the value is negative. */
  function BetaTruncate(val: bv32): (r: bv32)
    ensures Within(r, 0x7f80_0000)
    ensures val & 0x8000_0000 == 0 ==> r == val & 0x7f80_0000
    ensures val & 0x8000_0000 != 0 ==> r == 0
  {
    var b := val & 0x7f80_0000;
    if val & 0x8000_0000 != 0 then 0 else b
  }

  /** The BETA method test states the rule in the other order (clear a
      negative value first, then mask); both give the same word. */
  lemma BetaTruncateOrders(val: bv32)
    ensures BetaTruncate(val) == (if val & 0x8000_0000 != 0 then 0 else val) & 0x7f80_0000
  {
  }

  /** A word within BETA's mask, in particular a generated one, is kept. */
  lemma BetaTruncateKeeps(val: bv32)
    requires Within(val, 0x7f80_0000)
    ensures BetaTruncate(val) == val
  {
  }

  lemma BetaTruncateExamples()
    ensures BetaTruncate(0x8012_3456) == 0
    ensures BetaTruncate(0x7f92_3456) == 0x7f80_0000
  {
  }

  /* ---------- bit-scan masks ---------- */

  /** The mask the bit-scan tests assert for a register address: writing a
      value and reading it back yields exactly the bits of the mask. None
      for the addresses no bit-scan covers (BETA and ACCESS have their own
      read-back tests). */
  function ScanMask(addr: int): Option<bv32>
  {
    if addr == 0x40_0080 then Some(0x1111_1110)
    else if addr == 0x40_0084 then Some(0x3111_1101)
    else if addr == 0x40_0088 then Some(0x1111_1111)
    else if addr == 0x40_0140 then Some(0x1111_1111)
    else if addr == 0x40_0144 then Some(0x0001_1111)
    else if addr == 0x40_0180 then Some(0x807f_ffff)
    else if addr == 0x40_0190 then Some(0x1101_0103)
    else if addr == 0x40_0634 then Some(0x0111_1011)
    else if addr == 0x40_0688 then Some(0xffff_ffff)
    else if addr in {0x40_068c, 0x40_0690, 0x40_0694, 0x40_0698, 0x40_069c} then Some(0x0fff_0fff)
    else if addr == 0x40_06a0 then Some(0x113)
    else if 0x40_0400 <= addr < 0x40_0448 && addr % 4 == 0 then Some(0xffff_ffff)
    else if 0x40_0480 <= addr < 0x40_04c8 && addr % 4 == 0 then Some(0xffff_ffff)
    else if 0x40_0700 <= addr < 0x40_0738 && addr % 4 == 0 then Some(0x01ff_ffff)
    else if addr == 0x40_0450 || addr == 0x40_0454 then Some(0x3_ffff)
    else if addr == 0x40_0600 || addr == 0x40_0608 then Some(0x3fff_ffff)
    else if addr == 0x40_0604 || addr == 0x40_060c then Some(0xff)
    else if addr == 0x40_0610 || addr == 0x40_0614 then Some(0xffff_ffff)
    else if addr == 0x40_0618 then Some(3)
    else if addr == 0x40_061c || addr == 0x40_0620 then Some(0x7fff_ffff)
    else if addr == 0x40_0624 then Some(0xff)
    else if addr == 0x40_0628 || addr == 0x40_062c then Some(0x7fff_ffff)
    else if addr == 0x40_0680 then Some(0xffff)
    else if addr == 0x40_0684 then Some(0x0011_ffff)
    else if addr == 0x40_0640 then Some(0xf1ff_11ff)
    else if addr == 0x40_0644 then Some(0x0317_7331)
    else if addr == 0x40_0648 || addr == 0x40_064c then Some(0x30ff_ffff)
    else if addr == 0x40_0650 then Some(0x111f_f1ff)
    else if addr == 0x40_0654 then Some(0xffff_ffff)
    else if addr == 0x40_0658 then Some(0xffff_00ff)
    else if addr == 0x40_065c then Some(0xffff_0113)
    else None
  }

  /** What a bit-scan expects to read back at addr after writing v. */
  function ScanRead(addr: int, v: bv32): Option<bv32>
  {
    match ScanMask(addr)
    case None => None
    case Some(m) => Some(v & m)
  }

  /* ---------- the write cases ---------- */

  /** The unseen helpers the vertex and clip cases call after their own
      update (vertex, internal-clip and user-clip fix-ups), given the state
      so far, the case, the index and the written value. */
  type Fixup = (State, int, int, bv32) -> State

  /** Cases whose outcome goes through an unseen fix-up helper. */
  predicate HasFixup(c: int) {
    4 <= c <= 7 || 9 <= c <= 12
  }

  /** How many indices case c draws (1 when it draws none). */
  function IdxCount(c: int): (n: nat)
    ensures n >= 1
  {
    if 4 <= c <= 7 then 18
    else if c == 8 then 14
    else if c == 11 || c == 12 then 4
    else if c in {9, 10, 13, 14, 15, 17, 25, 26, 29, 31} then 2
    else 1
  }

  /** A case the write test can draw, with an index it can draw with it. */
  predicate ValidCase(c: int, idx: int) {
    0 <= c < 69 && 0 <= idx < IdxCount(c)
  }

  predicate PatternCase(c: int) { 13 <= c <= 21 }
  predicate CanvasCase(c: int) { 22 <= c <= 27 }
  predicate DrawCase(c: int) { 28 <= c <= 35 && c != 30 }
  /** The context registers: CTX_SWITCH, CTX_CONTROL, NOTIFY and ACCESS. */
  predicate ContextCase(c: int) { c == 2 || c == 3 || 44 <= c <= 46 }
  /** The control registers: INVALID_EN, DEBUG and the default arm. */
  predicate ControlCase(c: int) { (c < 4 || c == 30 || c > 35) && !ContextCase(c) }

  /** The register address case c writes. */
  function Register(c: int, idx: int): int
    requires ValidCase(c, idx)
  {
    match c
    case 1 => 0x40_0144
    case 2 => 0x40_0180
    case 3 => 0x40_0190
    case 4 => 0x40_0400 + idx * 4
    case 5 => 0x40_0480 + idx * 4
    case 6 => 0x40_0500 + idx * 4
    case 7 => 0x40_0580 + idx * 4
    case 8 => 0x40_0700 + idx * 4
    case 9 => 0x40_0450 + idx * 4
    case 10 => 0x40_0550 + idx * 4
    case 11 => 0x40_0460 + idx * 4
    case 12 => 0x40_0560 + idx * 4
    case 13 => 0x40_0600 + idx * 8
    case 14 => 0x40_0604 + idx * 8
    case 15 => 0x40_0610 + idx * 4
    case 16 => 0x40_0618
    case 17 => 0x40_061c + idx * 4
    case 18 => 0x40_0624
    case 19 => 0x40_0628
    case 20 => 0x40_062c
    case 21 => 0x40_0630
    case 22 => 0x40_0634
    case 23 => 0x40_0688
    case 24 => 0x40_068c
    case 25 => 0x40_0690 + idx * 8
    case 26 => 0x40_0694 + idx * 8
    case 27 => 0x40_06a0
    case 28 => 0x40_0640
    case 29 => 0x40_0644
    case 31 => 0x40_0648 + idx * 4
    case 32 => 0x40_0650
    case 33 => 0x40_0654
    case 34 => 0x40_0658
    case 35 => 0x40_065c
    case 44 => 0x40_0680
    case 45 => 0x40_0684
    case 46 => 0x40_06a4
    case 47 => 0x40_0080
    case 48 => 0x40_0084
    case 49 => 0x40_0088
    case _ => 0x40_0140
  }

  /** The pattern registers, cases 13-21. */
  function PatternWrite(p: Pattern, c: int, i: Idx2, val: bv32): Pattern
    requires PatternCase(c)
  {
    match c
    case 13 => p.(monoRgb := p.monoRgb[i := val & 0x3fff_ffff])
    case 14 => p.(monoA := p.monoA[i := val & 0xff])
    case 15 => p.(monoBitmap := p.monoBitmap[i := val])
    case 16 => p.(config := val & 3)
    case 17 => p.(bitmapColor := p.bitmapColor[i := val & 0x7fff_ffff])
    case 18 => p.(rop := val & 0xff)
    case 19 => p.(plane := val & 0x7fff_ffff)
    case 20 => p.(chroma := val & 0x7fff_ffff)
    case 21 => p.(beta := BetaTruncate(val))
  }

  function PatternLoad(p: Pattern, c: int, i: Idx2): bv32
    requires PatternCase(c)
  {
    match c
    case 13 => p.monoRgb[i]
    case 14 => p.monoA[i]
    case 15 => p.monoBitmap[i]
    case 16 => p.config
    case 17 => p.bitmapColor[i]
    case 18 => p.rop
    case 19 => p.plane
    case 20 => p.chroma
    case 21 => p.beta
  }

  /** The canvas and clip-rectangle registers, cases 22-27. */
  function CanvasWrite(k: Canvas, c: int, i: Idx2, val: bv32): Canvas
    requires CanvasCase(c)
  {
    match c
    case 22 => k.(config := val & 0x0111_1011)
    case 23 => k.(dstMin := val & 0xffff_ffff)
    case 24 => k.(dstMax := val & 0x0fff_0fff)
    case 25 => k.(cliprectMin := k.cliprectMin[i := val & 0x0fff_0fff])
    case 26 => k.(cliprectMax := k.cliprectMax[i := val & 0x0fff_0fff])
    case 27 => k.(cliprectCtrl := val & 0x113)
  }

  function CanvasLoad(k: Canvas, c: int, i: Idx2): bv32
    requires CanvasCase(c)
  {
    match c
    case 22 => k.config
    case 23 => k.dstMin
    case 24 => k.dstMax
    case 25 => k.cliprectMin[i]
    case 26 => k.cliprectMax[i]
    case 27 => k.cliprectCtrl
  }

  /** The rasteriser-state registers, cases 28-35 (30 falls to the
      default arm). Case 29 draws an index but writes XY_MISC_1 alone. */
  function DrawWrite(d: DrawState, c: int, i: Idx2, val: bv32): DrawState
    requires DrawCase(c)
  {
    match c
    case 28 => d.(xyMisc0 := val & 0xf1ff_11ff)
    case 29 => d.(xyMisc1 := val & 0x0317_7331)
    case 31 => d.(xyMisc4 := d.xyMisc4[i := val & 0x30ff_ffff])
    case 32 => d.(valid := val & 0x111f_f1ff)
    case 33 => d.(misc32 := val)
    case 34 => d.(subdivide := val & 0xffff_00ff)
    case 35 => d.(edgefill := val & 0xffff_0113)
  }

  function DrawLoad(d: DrawState, c: int, i: Idx2): bv32
    requires DrawCase(c)
  {
    match c
    case 28 => d.xyMisc0
    case 29 => d.xyMisc1
    case 31 => d.xyMisc4[i]
    case 32 => d.valid
    case 33 => d.misc32
    case 34 => d.subdivide
    case 35 => d.edgefill
  }

  /** A CTX_SWITCH[0] write updates the context registers and also clears
      bit 0 of DEBUG[1]. */
  function CtxSwitchWrite(s: State, val: bv32): State
  {
    s.(ctx := ContextWrite(s.ctx, 2, val), ctl := s.ctl.(debug := ClearDebug1(s.ctl.debug)))
  }

  function ClearDebug1(d: Words3): Words3
  {
    d[1 := Insrt(d[1], 0, 1, 0)]
  }

  /** The context registers. A write to CTX_SWITCH[0] also clears
      CTX_CONTROL bit 24 (and DEBUG[1] bit 0, in the control group). */
  function ContextWrite(x: Context, c: int, val: bv32): Context
    requires ContextCase(c)
  {
    match c
    case 2 => x.(ctxSwitch := x.ctxSwitch[0 := val & 0x807f_ffff], ctxControl := Insrt(x.ctxControl, 24, 1, 0))
    case 3 => x.(ctxControl := val & 0x1101_0103)
    case 44 => x.(ctxSwitch := x.ctxSwitch[1 := val & 0xffff])
    case 45 => x.(notify := val & 0x11_ffff)
    case 46 => x.(access := AccessWrite(x.access, val))
  }

  function ContextLoad(x: Context, c: int): bv32
    requires ContextCase(c)
  {
    match c
    case 2 => x.ctxSwitch[0]
    case 3 => x.ctxControl
    case 44 => x.ctxSwitch[1]
    case 45 => x.notify
    case 46 => x.access
  }

  /** The control registers: INVALID_EN, DEBUG and, in the default arm,
      INTR_EN. */
  function ControlWrite(t: Control, c: int, val: bv32): Control
    requires ControlCase(c)
  {
    match c
    case 1 => t.(invalidEn := val & 0x1_1111)
    case 47 => t.(debug := t.debug[0 := val & 0x1111_1110])
    case 48 => t.(debug := t.debug[1 := val & 0x3111_1101])
    case 49 => t.(debug := t.debug[2 := val & 0x1111_1111])
    case _ => t.(intrEn := val & 0x1111_1111)
  }

  function ControlLoad(t: Control, c: int): bv32
    requires ControlCase(c)
  {
    match c
    case 1 => t.invalidEn
    case 47 => t.debug[0]
    case 48 => t.debug[1]
    case 49 => t.debug[2]
    case _ => t.intrEn
  }

  /** An internal-clip write first clears XY_MISC_1 bits 14, 18 and 20. */
  function IclipClearFlags(s: State): (r: State)
    ensures r == s.(draw := s.draw.(xyMisc1 := r.draw.xyMisc1))
    ensures r.draw.xyMisc1 == s.draw.xyMisc1 & 0xffeb_bfff
  {
    s.(draw := s.draw.(xyMisc1 := Insrt(Insrt(Insrt(s.draw.xyMisc1, 14, 1, 0), 18, 1, 0), 20, 1, 0)))
  }

  /** The expected state after the write test's case c writes val (at
      index idx). The vertex and clip cases do their own visible update and
      then hand over to `fixup`. */
  function MmioWrite(s: State, c: int, idx: int, val: bv32, fixup: Fixup): State
    requires ValidCase(c, idx)
  {
    if HasFixup(c) then FixupWrite(s, c, idx, val, fixup)
    else if c == 8 then s.(vtx := BetaWrite(s.vtx, idx, val))
    else if PatternCase(c) then s.(pattern := PatternWrite(s.pattern, c, idx, val))
    else if CanvasCase(c) then s.(canvas := CanvasWrite(s.canvas, c, idx, val))
    else if DrawCase(c) then s.(draw := DrawWrite(s.draw, c, idx, val))
    else if c == 2 then CtxSwitchWrite(s, val)
    else if ContextCase(c) then s.(ctx := ContextWrite(s.ctx, c, val))
    else ControlRegWrite(s, c, val)
  }

  /** Case 8, a VTX_BETA write: 25 bits are kept. */
  function BetaWrite(v: Vertex, i: Idx14, val: bv32): Vertex
  {
    v.(beta := v.beta[i := val & 0x01ff_ffff])
  }

  /** The vertex and clip cases: VTX_X or VTX_Y is stored as written, an
      internal-clip write first clears three XY_MISC_1 flags, and the rest
      is up to the fix-up helpers. */
  function FixupWrite(s: State, c: int, idx: int, val: bv32, fixup: Fixup): State
    requires HasFixup(c) && 0 <= idx < IdxCount(c)
  {
    if c == 4 || c == 6 then fixup(s.(vtx := s.vtx.(x := s.vtx.x[idx := val])), c, idx, val)
    else if c == 5 || c == 7 then fixup(s.(vtx := s.vtx.(y := s.vtx.y[idx := val])), c, idx, val)
    else if c == 9 || c == 10 then fixup(IclipClearFlags(s), c, idx, val)
    else fixup(s, c, idx, val)
  }

  /** A control-register write; a DEBUG[0] write with bit 0 set also soft
      resets the engine. */
  function ControlRegWrite(s: State, c: int, val: bv32): State
    requires ControlCase(c)
  {
    var t := s.(ctl := ControlWrite(s.ctl, c, val));
    if c == 47 && Extr(val, 0, 1) != 0 then Reset(t) else t
  }

  /** The register case c writes, as the state holds it. */
  function Load(s: State, c: int, idx: int): bv32
    requires ValidCase(c, idx) && !HasFixup(c)
  {
    if c == 8 then s.vtx.beta[idx]
    else if PatternCase(c) then PatternLoad(s.pattern, c, idx)
    else if CanvasCase(c) then CanvasLoad(s.canvas, c, idx)
    else if DrawCase(c) then DrawLoad(s.draw, c, idx)
    else if ContextCase(c) then ContextLoad(s.ctx, c)
    else ControlLoad(s.ctl, c)
  }
}
