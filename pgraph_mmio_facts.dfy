/** What the MMIO-write oracle promises: the written register reads back as
    the value under the bit-scan mask, a second write to the same register
    overrides the first, writing back what a generated state holds changes
    nothing, and every other register is kept. Each register group is
    proved case by case and the cases are gathered per group. */
module PgraphMmioFacts {
  import opened Bits
  import opened PgraphState
  import opened PgraphReset
  import opened PgraphMmio

  /* ---------- helpers ---------- */

  lemma MaskKeeps(x: bv32, m: bv32)
    requires Within(x, m)
    ensures x & m == x
  {
  }

  lemma PairMaskKeeps(q: Words2, i: Idx2, m: bv32)
    requires PairWithin(q, m)
    ensures q[i] & m == q[i]
  {
    MaskKeeps(q[i], m);
  }

  lemma PairRestore(q: Words2, i: Idx2)
    ensures q[i := q[i]] == q
  {
  }

  lemma Words3Restore(q: Words3, i: Idx3)
    ensures q[i := q[i]] == q
  {
  }

  lemma Words2Restore(q: Words2, i: Idx2)
    ensures q[i := q[i]] == q
  {
  }

  /** Inserting a zero bit clears exactly that bit. */
  lemma InsrtClearsBit0(x: bv32)
    ensures Insrt(x, 0, 1, 0) == x & 0xffff_fffe
  {
  }

  lemma InsrtClearsBit24(x: bv32)
    ensures Insrt(x, 24, 1, 0) == x & 0xfeff_ffff
  {
  }

  /** Clearing a bit twice is clearing it once. */
  lemma InsrtZeroTwice0(x: bv32)
    ensures Insrt(Insrt(x, 0, 1, 0), 0, 1, 0) == Insrt(x, 0, 1, 0)
  {
  }

  lemma InsrtZeroTwice24(x: bv32)
    ensures Insrt(Insrt(x, 24, 1, 0), 24, 1, 0) == Insrt(x, 24, 1, 0)
  {
  }

  /** Two ACCESS words that agree outside the gated fields and on every
      field w does not enable give the same word after writing w. */
  lemma AccessWriteAgree(a: bv32, b: bv32, w: bv32)
    requires a & 0xfffe_0eee == b & 0xfffe_0eee
    requires w & 0x0100_0000 == 0 ==> a & 0x1 == b & 0x1
    requires w & 0x0200_0000 == 0 ==> a & 0x10 == b & 0x10
    requires w & 0x0400_0000 == 0 ==> a & 0x100 == b & 0x100
    requires w & 0x0800_0000 == 0 ==> a & 0x1_f000 == b & 0x1_f000
    ensures AccessWrite(a, w) == AccessWrite(b, w)
  {
    AccessWriteOutside(a, w); AccessWriteOutside(b, w);
    AccessWriteBit0(a, w); AccessWriteBit4(a, w); AccessWriteBit8(a, w); AccessWriteClass(a, w);
    AccessWriteBit0(b, w); AccessWriteBit4(b, w); AccessWriteBit8(b, w); AccessWriteClass(b, w);
    AccessFieldsDetermine(AccessWrite(a, w), AccessWrite(b, w));
  }

  /** A write whose enables lie within w's leaves alone every field w does
      not enable. */
  lemma AccessUnenabledKept(a: bv32, v: bv32, w: bv32)
    requires v & 0x0f00_0000 & !w == 0
    ensures w & 0x0100_0000 == 0 ==> AccessWrite(a, v) & 0x1 == a & 0x1
    ensures w & 0x0200_0000 == 0 ==> AccessWrite(a, v) & 0x10 == a & 0x10
    ensures w & 0x0400_0000 == 0 ==> AccessWrite(a, v) & 0x100 == a & 0x100
    ensures w & 0x0800_0000 == 0 ==> AccessWrite(a, v) & 0x1_f000 == a & 0x1_f000
  {
    AccessEnableSubset(v, w);
    AccessWriteBit0(a, v); AccessWriteBit4(a, v); AccessWriteBit8(a, v); AccessWriteClass(a, v);
  }

  /** A later ACCESS write overrides an earlier one when it enables every
      field the earlier one enabled. */
  lemma AccessWriteOverride(a: bv32, v: bv32, w: bv32)
    requires v & 0x0f00_0000 & !w == 0
    ensures AccessWrite(AccessWrite(a, v), w) == AccessWrite(a, w)
  {
    AccessWriteOutside(a, v);
    AccessUnenabledKept(a, v, w);
    AccessWriteAgree(AccessWrite(a, v), a, w);
  }

  lemma AccessEnableSubset(v: bv32, w: bv32)
    requires v & 0x0f00_0000 & !w == 0
    ensures w & 0x0100_0000 == 0 ==> v & 0x0100_0000 == 0
    ensures w & 0x0200_0000 == 0 ==> v & 0x0200_0000 == 0
    ensures w & 0x0400_0000 == 0 ==> v & 0x0400_0000 == 0
    ensures w & 0x0800_0000 == 0 ==> v & 0x0800_0000 == 0
  {
  }

  /** A generated ACCESS word written to itself stays. */
  lemma AccessWriteSelf(a: bv32)
    requires AccessGenerated(a)
    ensures AccessWrite(a, a) == a
  {
    AccessGeneratedEnables(a);
    AccessWriteOutside(a, a);
    AccessWriteBit0(a, a); AccessWriteBit4(a, a); AccessWriteBit8(a, a); AccessWriteClass(a, a);
    AccessFieldsDetermine(AccessWrite(a, a), a);
  }

  lemma AccessGeneratedEnables(a: bv32)
    requires AccessGenerated(a)
    ensures a & 0x0100_0000 != 0 && a & 0x0200_0000 != 0
    ensures a & 0x0400_0000 != 0 && a & 0x0800_0000 != 0
    ensures a & 0x0f00_0000 == 0x0f00_0000
  {
  }

  /* ---------- pattern registers ---------- */

  lemma PatternMonoRgbRead(p: Pattern, i: Idx2, v: bv32)
    ensures ScanMask(Register(13, i)) == Some(0x3fff_ffff)
    ensures PatternLoad(PatternWrite(p, 13, i, v), 13, i) == v & 0x3fff_ffff
  {
  }

  lemma PatternMonoRgb(p: Pattern, i: Idx2, v: bv32, w: bv32)
    ensures PatternWrite(PatternWrite(p, 13, i, v), 13, i, w) == PatternWrite(p, 13, i, w)
    ensures PatternGenerated(p) ==> PatternWrite(p, 13, i, PatternLoad(p, 13, i)) == p
  {
    if PatternGenerated(p) {
      PairMaskKeeps(p.monoRgb, i, 0x3fff_ffff);
      PairRestore(p.monoRgb, i);
    }
  }

  lemma PatternMonoARead(p: Pattern, i: Idx2, v: bv32)
    ensures ScanMask(Register(14, i)) == Some(0xff)
    ensures PatternLoad(PatternWrite(p, 14, i, v), 14, i) == v & 0xff
  {
  }

  lemma PatternMonoA(p: Pattern, i: Idx2, v: bv32, w: bv32)
    ensures PatternWrite(PatternWrite(p, 14, i, v), 14, i, w) == PatternWrite(p, 14, i, w)
    ensures PatternGenerated(p) ==> PatternWrite(p, 14, i, PatternLoad(p, 14, i)) == p
  {
    if PatternGenerated(p) {
      PairMaskKeeps(p.monoA, i, 0xff);
      PairRestore(p.monoA, i);
    }
  }

  lemma PatternMonoBitmapRead(p: Pattern, i: Idx2, v: bv32)
    ensures ScanMask(Register(15, i)) == Some(0xffff_ffff)
    ensures PatternLoad(PatternWrite(p, 15, i, v), 15, i) == v & 0xffff_ffff
  {
  }

  lemma PatternMonoBitmap(p: Pattern, i: Idx2, v: bv32, w: bv32)
    ensures PatternWrite(PatternWrite(p, 15, i, v), 15, i, w) == PatternWrite(p, 15, i, w)
    ensures PatternWrite(p, 15, i, PatternLoad(p, 15, i)) == p
  {
    PairRestore(p.monoBitmap, i);
  }

  lemma PatternConfigRead(p: Pattern, i: Idx2, v: bv32)
    ensures ScanMask(Register(16, 0)) == Some(3)
    ensures PatternLoad(PatternWrite(p, 16, i, v), 16, i) == v & 3
  {
  }

  lemma PatternConfig(p: Pattern, i: Idx2, v: bv32, w: bv32)
    ensures PatternWrite(PatternWrite(p, 16, i, v), 16, i, w) == PatternWrite(p, 16, i, w)
    ensures PatternGenerated(p) ==> PatternWrite(p, 16, i, PatternLoad(p, 16, i)) == p
  {
    if PatternGenerated(p) {
      MaskKeeps(p.config, 3);
    }
  }

  lemma PatternBitmapColorRead(p: Pattern, i: Idx2, v: bv32)
    ensures ScanMask(Register(17, i)) == Some(0x7fff_ffff)
    ensures PatternLoad(PatternWrite(p, 17, i, v), 17, i) == v & 0x7fff_ffff
  {
  }

  lemma PatternBitmapColor(p: Pattern, i: Idx2, v: bv32, w: bv32)
    ensures PatternWrite(PatternWrite(p, 17, i, v), 17, i, w) == PatternWrite(p, 17, i, w)
    ensures PatternGenerated(p) ==> PatternWrite(p, 17, i, PatternLoad(p, 17, i)) == p
  {
    if PatternGenerated(p) {
      PairMaskKeeps(p.bitmapColor, i, 0x7fff_ffff);
      PairRestore(p.bitmapColor, i);
    }
  }

  lemma PatternRopRead(p: Pattern, i: Idx2, v: bv32)
    ensures ScanMask(Register(18, 0)) == Some(0xff)
    ensures PatternLoad(PatternWrite(p, 18, i, v), 18, i) == v & 0xff
  {
  }

  lemma PatternRop(p: Pattern, i: Idx2, v: bv32, w: bv32)
    ensures PatternWrite(PatternWrite(p, 18, i, v), 18, i, w) == PatternWrite(p, 18, i, w)
    ensures PatternGenerated(p) ==> PatternWrite(p, 18, i, PatternLoad(p, 18, i)) == p
  {
    if PatternGenerated(p) {
      MaskKeeps(p.rop, 0xff);
    }
  }

  lemma PatternPlaneRead(p: Pattern, i: Idx2, v: bv32)
    ensures ScanMask(Register(19, 0)) == Some(0x7fff_ffff)
    ensures PatternLoad(PatternWrite(p, 19, i, v), 19, i) == v & 0x7fff_ffff
  {
  }

  lemma PatternPlane(p: Pattern, i: Idx2, v: bv32, w: bv32)
    ensures PatternWrite(PatternWrite(p, 19, i, v), 19, i, w) == PatternWrite(p, 19, i, w)
    ensures PatternGenerated(p) ==> PatternWrite(p, 19, i, PatternLoad(p, 19, i)) == p
  {
    if PatternGenerated(p) {
      MaskKeeps(p.plane, 0x7fff_ffff);
    }
  }

  lemma PatternChromaRead(p: Pattern, i: Idx2, v: bv32)
    ensures ScanMask(Register(20, 0)) == Some(0x7fff_ffff)
    ensures PatternLoad(PatternWrite(p, 20, i, v), 20, i) == v & 0x7fff_ffff
  {
  }

  lemma PatternChroma(p: Pattern, i: Idx2, v: bv32, w: bv32)
    ensures PatternWrite(PatternWrite(p, 20, i, v), 20, i, w) == PatternWrite(p, 20, i, w)
    ensures PatternGenerated(p) ==> PatternWrite(p, 20, i, PatternLoad(p, 20, i)) == p
  {
    if PatternGenerated(p) {
      MaskKeeps(p.chroma, 0x7fff_ffff);
    }
  }

  lemma PatternBetaRead(p: Pattern, i: Idx2, v: bv32)
    ensures PatternLoad(PatternWrite(p, 21, i, v), 21, i) == BetaTruncate(v)
  {
  }

  lemma PatternBeta(p: Pattern, i: Idx2, v: bv32, w: bv32)
    ensures PatternWrite(PatternWrite(p, 21, i, v), 21, i, w) == PatternWrite(p, 21, i, w)
    ensures PatternGenerated(p) ==> PatternWrite(p, 21, i, PatternLoad(p, 21, i)) == p
  {
    if PatternGenerated(p) {
      BetaTruncateKeeps(p.beta);
    }
  }

  /** The pattern group: read-back under the write mask, override, and the
      fixed point of a generated group. */
  lemma PatternWriteFacts(p: Pattern, c: int, i: Idx2, v: bv32, w: bv32)
    requires PatternCase(c)
    ensures PatternWrite(PatternWrite(p, c, i, v), c, i, w) == PatternWrite(p, c, i, w)
    ensures PatternGenerated(p) ==> PatternWrite(p, c, i, PatternLoad(p, c, i)) == p
  {
    if c == 13 { PatternMonoRgb(p, i, v, w); }
    else if c == 14 { PatternMonoA(p, i, v, w); }
    else if c == 15 { PatternMonoBitmap(p, i, v, w); }
    else if c == 16 { PatternConfig(p, i, v, w); }
    else if c == 17 { PatternBitmapColor(p, i, v, w); }
    else if c == 18 { PatternRop(p, i, v, w); }
    else if c == 19 { PatternPlane(p, i, v, w); }
    else if c == 20 { PatternChroma(p, i, v, w); }
    else { PatternBeta(p, i, v, w); }
  }

  /* ---------- canvas registers ---------- */

  lemma CanvasConfigRead(k: Canvas, i: Idx2, v: bv32)
    ensures ScanMask(Register(22, 0)) == Some(0x0111_1011)
    ensures CanvasLoad(CanvasWrite(k, 22, i, v), 22, i) == v & 0x0111_1011
  {
  }

  lemma CanvasConfig(k: Canvas, i: Idx2, v: bv32, w: bv32)
    ensures CanvasWrite(CanvasWrite(k, 22, i, v), 22, i, w) == CanvasWrite(k, 22, i, w)
    ensures CanvasGenerated(k) ==> CanvasWrite(k, 22, i, CanvasLoad(k, 22, i)) == k
  {
    if CanvasGenerated(k) {
      MaskKeeps(k.config, 0x0111_1011);
    }
  }

  lemma CanvasDstMinRead(k: Canvas, i: Idx2, v: bv32)
    ensures ScanMask(Register(23, 0)) == Some(0xffff_ffff)
    ensures CanvasLoad(CanvasWrite(k, 23, i, v), 23, i) == v & 0xffff_ffff
  {
  }

  lemma CanvasDstMin(k: Canvas, i: Idx2, v: bv32, w: bv32)
    ensures CanvasWrite(CanvasWrite(k, 23, i, v), 23, i, w) == CanvasWrite(k, 23, i, w)
    ensures CanvasWrite(k, 23, i, CanvasLoad(k, 23, i)) == k
  {
  }

  lemma CanvasDstMaxRead(k: Canvas, i: Idx2, v: bv32)
    ensures ScanMask(Register(24, 0)) == Some(0x0fff_0fff)
    ensures CanvasLoad(CanvasWrite(k, 24, i, v), 24, i) == v & 0x0fff_0fff
  {
  }

  lemma CanvasDstMax(k: Canvas, i: Idx2, v: bv32, w: bv32)
    ensures CanvasWrite(CanvasWrite(k, 24, i, v), 24, i, w) == CanvasWrite(k, 24, i, w)
    ensures CanvasGenerated(k) ==> CanvasWrite(k, 24, i, CanvasLoad(k, 24, i)) == k
  {
    if CanvasGenerated(k) {
      MaskKeeps(k.dstMax, 0x0fff_0fff);
    }
  }

  lemma CanvasCliprectMinRead(k: Canvas, i: Idx2, v: bv32)
    ensures ScanMask(Register(25, i)) == Some(0x0fff_0fff)
    ensures CanvasLoad(CanvasWrite(k, 25, i, v), 25, i) == v & 0x0fff_0fff
  {
  }

  lemma CanvasCliprectMin(k: Canvas, i: Idx2, v: bv32, w: bv32)
    ensures CanvasWrite(CanvasWrite(k, 25, i, v), 25, i, w) == CanvasWrite(k, 25, i, w)
    ensures CanvasGenerated(k) ==> CanvasWrite(k, 25, i, CanvasLoad(k, 25, i)) == k
  {
    if CanvasGenerated(k) {
      PairMaskKeeps(k.cliprectMin, i, 0x0fff_0fff);
      PairRestore(k.cliprectMin, i);
    }
  }

  lemma CanvasCliprectMaxRead(k: Canvas, i: Idx2, v: bv32)
    ensures ScanMask(Register(26, i)) == Some(0x0fff_0fff)
    ensures CanvasLoad(CanvasWrite(k, 26, i, v), 26, i) == v & 0x0fff_0fff
  {
  }

  lemma CanvasCliprectMax(k: Canvas, i: Idx2, v: bv32, w: bv32)
    ensures CanvasWrite(CanvasWrite(k, 26, i, v), 26, i, w) == CanvasWrite(k, 26, i, w)
    ensures CanvasGenerated(k) ==> CanvasWrite(k, 26, i, CanvasLoad(k, 26, i)) == k
  {
    if CanvasGenerated(k) {
      PairMaskKeeps(k.cliprectMax, i, 0x0fff_0fff);
      PairRestore(k.cliprectMax, i);
    }
  }

  lemma CanvasCliprectCtrlRead(k: Canvas, i: Idx2, v: bv32)
    ensures ScanMask(Register(27, 0)) == Some(0x113)
    ensures CanvasLoad(CanvasWrite(k, 27, i, v), 27, i) == v & 0x113
  {
  }

  lemma CanvasCliprectCtrl(k: Canvas, i: Idx2, v: bv32, w: bv32)
    ensures CanvasWrite(CanvasWrite(k, 27, i, v), 27, i, w) == CanvasWrite(k, 27, i, w)
    ensures CanvasGenerated(k) ==> CanvasWrite(k, 27, i, CanvasLoad(k, 27, i)) == k
  {
    if CanvasGenerated(k) {
      MaskKeeps(k.cliprectCtrl, 0x113);
    }
  }

  /** The canvas group: override, and the fixed point of a generated group. */
  lemma CanvasWriteFacts(k: Canvas, c: int, i: Idx2, v: bv32, w: bv32)
    requires CanvasCase(c)
    ensures CanvasWrite(CanvasWrite(k, c, i, v), c, i, w) == CanvasWrite(k, c, i, w)
    ensures CanvasGenerated(k) ==> CanvasWrite(k, c, i, CanvasLoad(k, c, i)) == k
  {
    if c == 22 { CanvasConfig(k, i, v, w); }
    else if c == 23 { CanvasDstMin(k, i, v, w); }
    else if c == 24 { CanvasDstMax(k, i, v, w); }
    else if c == 25 { CanvasCliprectMin(k, i, v, w); }
    else if c == 26 { CanvasCliprectMax(k, i, v, w); }
    else { CanvasCliprectCtrl(k, i, v, w); }
  }

  /* ---------- rasteriser-state registers ---------- */

  lemma DrawXyMisc0Read(d: DrawState, i: Idx2, v: bv32)
    ensures ScanMask(Register(28, 0)) == Some(0xf1ff_11ff)
    ensures DrawLoad(DrawWrite(d, 28, i, v), 28, i) == v & 0xf1ff_11ff
  {
  }

  lemma DrawXyMisc0(d: DrawState, i: Idx2, v: bv32, w: bv32)
    ensures DrawWrite(DrawWrite(d, 28, i, v), 28, i, w) == DrawWrite(d, 28, i, w)
    ensures DrawGenerated(d) ==> DrawWrite(d, 28, i, DrawLoad(d, 28, i)) == d
  {
    if DrawGenerated(d) {
      MaskKeeps(d.xyMisc0, 0xf1ff_11ff);
    }
  }

  lemma DrawXyMisc1Read(d: DrawState, i: Idx2, v: bv32)
    ensures ScanMask(Register(29, 0)) == Some(0x0317_7331)
    ensures DrawLoad(DrawWrite(d, 29, i, v), 29, i) == v & 0x0317_7331
  {
  }

  lemma DrawXyMisc1(d: DrawState, i: Idx2, v: bv32, w: bv32)
    ensures DrawWrite(DrawWrite(d, 29, i, v), 29, i, w) == DrawWrite(d, 29, i, w)
    ensures DrawGenerated(d) ==> DrawWrite(d, 29, i, DrawLoad(d, 29, i)) == d
  {
    if DrawGenerated(d) {
      MaskKeeps(d.xyMisc1, 0x0317_7331);
    }
  }

  lemma DrawXyMisc4Read(d: DrawState, i: Idx2, v: bv32)
    ensures ScanMask(Register(31, i)) == Some(0x30ff_ffff)
    ensures DrawLoad(DrawWrite(d, 31, i, v), 31, i) == v & 0x30ff_ffff
  {
  }

  lemma DrawXyMisc4(d: DrawState, i: Idx2, v: bv32, w: bv32)
    ensures DrawWrite(DrawWrite(d, 31, i, v), 31, i, w) == DrawWrite(d, 31, i, w)
    ensures DrawGenerated(d) ==> DrawWrite(d, 31, i, DrawLoad(d, 31, i)) == d
  {
    if DrawGenerated(d) {
      PairMaskKeeps(d.xyMisc4, i, 0x30ff_ffff);
      PairRestore(d.xyMisc4, i);
    }
  }

  lemma DrawValidRead(d: DrawState, i: Idx2, v: bv32)
    ensures ScanMask(Register(32, 0)) == Some(0x111f_f1ff)
    ensures DrawLoad(DrawWrite(d, 32, i, v), 32, i) == v & 0x111f_f1ff
  {
  }

  lemma DrawValid(d: DrawState, i: Idx2, v: bv32, w: bv32)
    ensures DrawWrite(DrawWrite(d, 32, i, v), 32, i, w) == DrawWrite(d, 32, i, w)
    ensures DrawGenerated(d) ==> DrawWrite(d, 32, i, DrawLoad(d, 32, i)) == d
  {
    if DrawGenerated(d) {
      MaskKeeps(d.valid, 0x111f_f1ff);
    }
  }

  lemma DrawMisc32Read(d: DrawState, i: Idx2, v: bv32)
    ensures ScanMask(Register(33, 0)) == Some(0xffff_ffff)
    ensures DrawLoad(DrawWrite(d, 33, i, v), 33, i) == v & 0xffff_ffff
  {
  }

  lemma DrawMisc32(d: DrawState, i: Idx2, v: bv32, w: bv32)
    ensures DrawWrite(DrawWrite(d, 33, i, v), 33, i, w) == DrawWrite(d, 33, i, w)
    ensures DrawWrite(d, 33, i, DrawLoad(d, 33, i)) == d
  {
  }

  lemma DrawSubdivideRead(d: DrawState, i: Idx2, v: bv32)
    ensures ScanMask(Register(34, 0)) == Some(0xffff_00ff)
    ensures DrawLoad(DrawWrite(d, 34, i, v), 34, i) == v & 0xffff_00ff
  {
  }

  lemma DrawSubdivide(d: DrawState, i: Idx2, v: bv32, w: bv32)
    ensures DrawWrite(DrawWrite(d, 34, i, v), 34, i, w) == DrawWrite(d, 34, i, w)
    ensures DrawGenerated(d) ==> DrawWrite(d, 34, i, DrawLoad(d, 34, i)) == d
  {
    if DrawGenerated(d) {
      MaskKeeps(d.subdivide, 0xffff_00ff);
    }
  }

  lemma DrawEdgefillRead(d: DrawState, i: Idx2, v: bv32)
    ensures ScanMask(Register(35, 0)) == Some(0xffff_0113)
    ensures DrawLoad(DrawWrite(d, 35, i, v), 35, i) == v & 0xffff_0113
  {
  }

  lemma DrawEdgefill(d: DrawState, i: Idx2, v: bv32, w: bv32)
    ensures DrawWrite(DrawWrite(d, 35, i, v), 35, i, w) == DrawWrite(d, 35, i, w)
    ensures DrawGenerated(d) ==> DrawWrite(d, 35, i, DrawLoad(d, 35, i)) == d
  {
    if DrawGenerated(d) {
      MaskKeeps(d.edgefill, 0xffff_0113);
    }
  }

  /** The rasteriser-state group: override, and the fixed point of a
      generated group. */
  lemma DrawWriteFacts(d: DrawState, c: int, i: Idx2, v: bv32, w: bv32)
    requires DrawCase(c)
    ensures DrawWrite(DrawWrite(d, c, i, v), c, i, w) == DrawWrite(d, c, i, w)
    ensures DrawGenerated(d) ==> DrawWrite(d, c, i, DrawLoad(d, c, i)) == d
  {
    if c == 28 { DrawXyMisc0(d, i, v, w); }
    else if c == 29 { DrawXyMisc1(d, i, v, w); }
    else if c == 31 { DrawXyMisc4(d, i, v, w); }
    else if c == 32 { DrawValid(d, i, v, w); }
    else if c == 33 { DrawMisc32(d, i, v, w); }
    else if c == 34 { DrawSubdivide(d, i, v, w); }
    else { DrawEdgefill(d, i, v, w); }
  }

  /* ---------- context registers ---------- */

  lemma ContextCtxSwitch(x: Context, v: bv32)
    ensures ScanMask(Register(2, 0)) == Some(0x807f_ffff)
    ensures ContextLoad(ContextWrite(x, 2, v), 2) == v & 0x807f_ffff
  {
  }

  lemma ContextCtxSwitchTwice(x: Context, v: bv32, w: bv32)
    ensures ContextWrite(ContextWrite(x, 2, v), 2, w) == ContextWrite(x, 2, w)
  {
    InsrtZeroTwice24(x.ctxControl);
  }

  lemma ContextCtxControlRead(x: Context, v: bv32)
    ensures ScanMask(Register(3, 0)) == Some(0x1101_0103)
    ensures ContextLoad(ContextWrite(x, 3, v), 3) == v & 0x1101_0103
  {
  }

  lemma ContextCtxControl(x: Context, v: bv32, w: bv32)
    ensures ContextWrite(ContextWrite(x, 3, v), 3, w) == ContextWrite(x, 3, w)
  {
  }

  lemma ContextCtxControlFixed(x: Context)
    requires Within(x.ctxControl, 0x1101_0103)
    ensures ContextWrite(x, 3, ContextLoad(x, 3)) == x
  {
    MaskKeeps(x.ctxControl, 0x1101_0103);
  }

  lemma ContextDmaRead(x: Context, v: bv32)
    ensures ScanMask(Register(44, 0)) == Some(0xffff)
    ensures ContextLoad(ContextWrite(x, 44, v), 44) == v & 0xffff
  {
  }

  lemma ContextDma(x: Context, v: bv32, w: bv32)
    ensures ContextWrite(ContextWrite(x, 44, v), 44, w) == ContextWrite(x, 44, w)
  {
  }

  lemma ContextDmaFixed(x: Context)
    requires Within(x.ctxSwitch[1], 0xffff)
    ensures ContextWrite(x, 44, ContextLoad(x, 44)) == x
  {
    MaskKeeps(x.ctxSwitch[1], 0xffff);
    Words2Restore(x.ctxSwitch, 1);
  }

  lemma ContextNotifyRead(x: Context, v: bv32)
    ensures ScanMask(Register(45, 0)) == Some(0x0011_ffff)
    ensures ContextLoad(ContextWrite(x, 45, v), 45) == v & 0x0011_ffff
  {
  }

  lemma ContextNotify(x: Context, v: bv32, w: bv32)
    ensures ContextWrite(ContextWrite(x, 45, v), 45, w) == ContextWrite(x, 45, w)
  {
  }

  lemma ContextNotifyFixed(x: Context)
    requires Within(x.notify, 0x0011_ffff)
    ensures ContextWrite(x, 45, ContextLoad(x, 45)) == x
  {
    MaskKeeps(x.notify, 0x0011_ffff);
  }

  lemma ContextAccessRead(x: Context, v: bv32)
    ensures ContextLoad(ContextWrite(x, 46, v), 46) == AccessWrite(x.access, v)
  {
  }

  /** An ACCESS write: the second write overrides the first when it enables
      at least the fields the first enabled; a generated ACCESS, with all
      enables set, is a fixed point. */

  lemma ContextAccess(x: Context, v: bv32, w: bv32)
    ensures v & 0x0f00_0000 & !w == 0 ==> ContextWrite(ContextWrite(x, 46, v), 46, w) == ContextWrite(x, 46, w)
    ensures AccessGenerated(x.access) ==> ContextWrite(x, 46, ContextLoad(x, 46)) == x
  {
    if v & 0x0f00_0000 & !w == 0 {
      AccessWriteOverride(x.access, v, w);
    }
    if AccessGenerated(x.access) {
      AccessWriteSelf(x.access);
    }
  }

  /** The context group: a second write overrides the first (for ACCESS
      when it enables at least the same fields). */
  lemma ContextWriteOverride(x: Context, c: int, v: bv32, w: bv32)
    requires ContextCase(c)
    requires c == 46 ==> v & 0x0f00_0000 & !w == 0
    ensures ContextWrite(ContextWrite(x, c, v), c, w) == ContextWrite(x, c, w)
  {
    if c == 2 { ContextCtxSwitchTwice(x, v, w); }
    else if c == 3 { ContextCtxControl(x, v, w); }
    else if c == 44 { ContextDma(x, v, w); }
    else if c == 45 { ContextNotify(x, v, w); }
    else { ContextAccess(x, v, w); }
  }

  /** The context group of a generated state is a fixed point of writing
      back what it holds, except for CTX_SWITCH[0], whose write clears
      CTX_CONTROL bit 24. */
  lemma ContextWriteFixedPoint(x: Context, c: int)
    requires ContextCase(c) && c != 2 && ContextGenerated(x)
    ensures ContextWrite(x, c, ContextLoad(x, c)) == x
  {
    if c == 3 { ContextCtxControlFixed(x); }
    else if c == 44 { ContextDmaFixed(x); }
    else if c == 45 { ContextNotifyFixed(x); }
    else { ContextAccess(x, 0, 0); }
  }

  /* ---------- control registers ---------- */

  lemma ControlInvalidEnRead(t: Control, v: bv32)
    ensures ScanMask(Register(1, 0)) == Some(0x0001_1111)
    ensures ControlLoad(ControlWrite(t, 1, v), 1) == v & 0x0001_1111
  {
  }

  lemma ControlInvalidEn(t: Control, v: bv32, w: bv32)
    ensures ControlWrite(ControlWrite(t, 1, v), 1, w) == ControlWrite(t, 1, w)
  {
  }

  lemma ControlInvalidEnFixed(t: Control)
    requires Within(t.invalidEn, 0x0001_1111)
    ensures ControlWrite(t, 1, ControlLoad(t, 1)) == t
  {
    MaskKeeps(t.invalidEn, 0x0001_1111);
  }

  lemma ControlDebug0Read(t: Control, v: bv32)
    ensures ScanMask(Register(47, 0)) == Some(0x1111_1110)
    ensures ControlLoad(ControlWrite(t, 47, v), 47) == v & 0x1111_1110
  {
  }

  lemma ControlDebug0(t: Control, v: bv32, w: bv32)
    ensures ControlWrite(ControlWrite(t, 47, v), 47, w) == ControlWrite(t, 47, w)
  {
  }

  lemma ControlDebug0Fixed(t: Control)
    requires Within(t.debug[0], 0x1111_1110)
    ensures ControlWrite(t, 47, ControlLoad(t, 47)) == t
  {
    MaskKeeps(t.debug[0], 0x1111_1110);
    Words3Restore(t.debug, 0);
  }

  lemma ControlDebug1Read(t: Control, v: bv32)
    ensures ScanMask(Register(48, 0)) == Some(0x3111_1101)
    ensures ControlLoad(ControlWrite(t, 48, v), 48) == v & 0x3111_1101
  {
  }

  lemma ControlDebug1(t: Control, v: bv32, w: bv32)
    ensures ControlWrite(ControlWrite(t, 48, v), 48, w) == ControlWrite(t, 48, w)
  {
  }

  lemma ControlDebug1Fixed(t: Control)
    requires Within(t.debug[1], 0x3111_1101)
    ensures ControlWrite(t, 48, ControlLoad(t, 48)) == t
  {
    MaskKeeps(t.debug[1], 0x3111_1101);
    Words3Restore(t.debug, 1);
  }

  lemma ControlDebug2Read(t: Control, v: bv32)
    ensures ScanMask(Register(49, 0)) == Some(0x1111_1111)
    ensures ControlLoad(ControlWrite(t, 49, v), 49) == v & 0x1111_1111
  {
  }

  lemma ControlDebug2(t: Control, v: bv32, w: bv32)
    ensures ControlWrite(ControlWrite(t, 49, v), 49, w) == ControlWrite(t, 49, w)
  {
  }

  lemma ControlDebug2Fixed(t: Control)
    requires Within(t.debug[2], 0x1111_1111)
    ensures ControlWrite(t, 49, ControlLoad(t, 49)) == t
  {
    MaskKeeps(t.debug[2], 0x1111_1111);
    Words3Restore(t.debug, 2);
  }

  /** The default arm (every case number without an arm of its own)
      writes INTR_EN. */
  lemma ControlIntrEn(t: Control, c: int, v: bv32, w: bv32)
    requires 0 <= c < 69 && ControlCase(c) && c !in {1, 47, 48, 49}
    ensures ScanMask(Register(c, 0)) == Some(0x1111_1111)
    ensures ControlLoad(ControlWrite(t, c, v), c) == v & 0x1111_1111
    ensures ControlWrite(ControlWrite(t, c, v), c, w) == ControlWrite(t, c, w)
  {
  }

  lemma ControlIntrEnFixed(t: Control, c: int)
    requires 0 <= c < 69 && ControlCase(c) && c !in {1, 47, 48, 49}
    requires Within(t.intrEn, 0x1111_1111)
    ensures ControlWrite(t, c, ControlLoad(t, c)) == t
  {
    MaskKeeps(t.intrEn, 0x1111_1111);
  }

  lemma WithinWiden(x: bv32, m: bv32, n: bv32)
    requires Within(x, m) && m & !n == 0
    ensures Within(x, n)
  {
  }

  /** The control group: a second write overrides the first. */
  lemma ControlWriteOverride(t: Control, c: int, v: bv32, w: bv32)
    requires 0 <= c < 69 && ControlCase(c)
    ensures ControlWrite(ControlWrite(t, c, v), c, w) == ControlWrite(t, c, w)
  {
    if c == 1 { ControlInvalidEn(t, v, w); }
    else if c == 47 { ControlDebug0(t, v, w); }
    else if c == 48 { ControlDebug1(t, v, w); }
    else if c == 49 { ControlDebug2(t, v, w); }
    else { ControlIntrEn(t, c, v, w); }
  }

  /** The control group of a generated state is a fixed point of writing
      back what it holds. */
  lemma ControlWriteFixedPoint(t: Control, c: int)
    requires 0 <= c < 69 && ControlCase(c) && ControlGenerated(t)
    ensures ControlWrite(t, c, ControlLoad(t, c)) == t
  {
    if c == 1 { ControlInvalidEnFixed(t); }
    else if c == 47 { ControlDebug0Fixed(t); }
    else if c == 48 { ControlDebug1Fixed(t); }
    else if c == 49 { ControlDebug2Fixed(t); }
    else {
      WithinWiden(t.intrEn, 0x1111_1011, 0x1111_1111);
      ControlIntrEnFixed(t, c);
    }
  }

  /* ---------- the whole oracle ---------- */

  /** VTX_BETA[i]: read-back under its mask, override, fixed point. */
  lemma VertexBetaRead(x: Vertex, i: Idx14, v: bv32)
    ensures ScanMask(Register(8, i)) == Some(0x01ff_ffff)
    ensures BetaWrite(x, i, v).beta[i] == v & 0x01ff_ffff
  {
  }

  lemma VertexBeta(x: Vertex, i: Idx14, v: bv32, w: bv32)
    ensures BetaWrite(BetaWrite(x, i, v), i, w) == BetaWrite(x, i, w)
    ensures Within(x.beta[i], 0x01ff_ffff) ==> BetaWrite(x, i, x.beta[i]) == x
  {
    if Within(x.beta[i], 0x01ff_ffff) {
      MaskKeeps(x.beta[i], 0x01ff_ffff);
      assert x.beta[i := x.beta[i]] == x.beta;
    }
  }

  lemma DebugBit0Clear(x: bv32)
    requires Within(x, 0x1111_1110)
    ensures Extr(x, 0, 1) == 0
  {
  }

  lemma MmioOverrideBeta(s: State, c: int, idx: int, v: bv32, w: bv32, fixup: Fixup)
    requires ValidCase(c, idx) && c == 8
    ensures MmioWrite(MmioWrite(s, c, idx, v, fixup), c, idx, w, fixup) == MmioWrite(s, c, idx, w, fixup)
  {
    VertexBeta(s.vtx, idx, v, w);
  }

  lemma MmioFixedPointBeta(s: State, c: int, idx: int, fixup: Fixup)
    requires VertexGenerated(s.vtx) && ValidCase(c, idx) && c == 8
    ensures MmioWrite(s, c, idx, Load(s, c, idx), fixup) == s
  {
    VertexBeta(s.vtx, idx, 0, 0);
  }

  lemma MmioOverridePattern(s: State, c: int, idx: int, v: bv32, w: bv32, fixup: Fixup)
    requires ValidCase(c, idx) && PatternCase(c)
    ensures MmioWrite(MmioWrite(s, c, idx, v, fixup), c, idx, w, fixup) == MmioWrite(s, c, idx, w, fixup)
  {
    PatternWriteFacts(s.pattern, c, idx, v, w);
  }

  lemma MmioFixedPointPattern(s: State, c: int, idx: int, fixup: Fixup)
    requires PatternGenerated(s.pattern) && ValidCase(c, idx) && PatternCase(c)
    ensures MmioWrite(s, c, idx, Load(s, c, idx), fixup) == s
  {
    PatternWriteFacts(s.pattern, c, idx, 0, 0);
  }

  lemma MmioOverrideCanvas(s: State, c: int, idx: int, v: bv32, w: bv32, fixup: Fixup)
    requires ValidCase(c, idx) && CanvasCase(c)
    ensures MmioWrite(MmioWrite(s, c, idx, v, fixup), c, idx, w, fixup) == MmioWrite(s, c, idx, w, fixup)
  {
    CanvasWriteFacts(s.canvas, c, idx, v, w);
  }

  lemma MmioFixedPointCanvas(s: State, c: int, idx: int, fixup: Fixup)
    requires CanvasGenerated(s.canvas) && ValidCase(c, idx) && CanvasCase(c)
    ensures MmioWrite(s, c, idx, Load(s, c, idx), fixup) == s
  {
    CanvasWriteFacts(s.canvas, c, idx, 0, 0);
  }

  lemma MmioOverrideDraw(s: State, c: int, idx: int, v: bv32, w: bv32, fixup: Fixup)
    requires ValidCase(c, idx) && DrawCase(c)
    ensures MmioWrite(MmioWrite(s, c, idx, v, fixup), c, idx, w, fixup) == MmioWrite(s, c, idx, w, fixup)
  {
    DrawWriteFacts(s.draw, c, idx, v, w);
  }

  lemma MmioFixedPointDraw(s: State, c: int, idx: int, fixup: Fixup)
    requires DrawGenerated(s.draw) && ValidCase(c, idx) && DrawCase(c)
    ensures MmioWrite(s, c, idx, Load(s, c, idx), fixup) == s
  {
    DrawWriteFacts(s.draw, c, idx, 0, 0);
  }

  lemma MmioOverrideContext(s: State, c: int, v: bv32, w: bv32, fixup: Fixup)
    requires ValidCase(c, 0) && ContextCase(c) && c != 2
    requires c == 46 ==> v & 0x0f00_0000 & !w == 0
    ensures MmioWrite(MmioWrite(s, c, 0, v, fixup), c, 0, w, fixup) == MmioWrite(s, c, 0, w, fixup)
  {
    ContextWriteOverride(s.ctx, c, v, w);
  }

  lemma MmioOverrideCtxSwitch(s: State, v: bv32, w: bv32, fixup: Fixup)
    ensures MmioWrite(MmioWrite(s, 2, 0, v, fixup), 2, 0, w, fixup) == MmioWrite(s, 2, 0, w, fixup)
  {
    CtxSwitchWriteTwice(s, v, w);
  }

  lemma ClearDebug1Twice(d: Words3)
    ensures ClearDebug1(ClearDebug1(d)) == ClearDebug1(d)
  {
    InsrtZeroTwice0(d[1]);
  }

  lemma CtxSwitchWriteTwice(s: State, v: bv32, w: bv32)
    ensures CtxSwitchWrite(CtxSwitchWrite(s, v), w) == CtxSwitchWrite(s, w)
  {
    ContextCtxSwitchTwice(s.ctx, v, w);
    ClearDebug1Twice(s.ctl.debug);
  }

  lemma MmioFixedPointContext(s: State, c: int, fixup: Fixup)
    requires ContextGenerated(s.ctx) && ValidCase(c, 0) && ContextCase(c) && c != 2
    ensures MmioWrite(s, c, 0, Load(s, c, 0), fixup) == s
  {
    ContextWriteFixedPoint(s.ctx, c);
  }

  lemma MmioOverrideControl(s: State, c: int, v: bv32, w: bv32, fixup: Fixup)
    requires ValidCase(c, 0) && ControlCase(c) && c != 47
    ensures MmioWrite(MmioWrite(s, c, 0, v, fixup), c, 0, w, fixup) == MmioWrite(s, c, 0, w, fixup)
  {
    ControlWriteOverride(s.ctl, c, v, w);
  }

  lemma MmioOverrideDebug0(s: State, v: bv32, w: bv32, fixup: Fixup)
    requires Extr(v, 0, 1) == 0 || Extr(w, 0, 1) != 0
    ensures MmioWrite(MmioWrite(s, 47, 0, v, fixup), 47, 0, w, fixup) == MmioWrite(s, 47, 0, w, fixup)
  {
    ControlDebug0(s.ctl, v, w);
    ResetIdempotent(s.(ctl := ControlWrite(s.ctl, 47, w)));
  }

  lemma MmioFixedPointControl(s: State, c: int, fixup: Fixup)
    requires ControlGenerated(s.ctl) && ValidCase(c, 0) && ControlCase(c)
    ensures MmioWrite(s, c, 0, Load(s, c, 0), fixup) == s
  {
    ControlWriteFixedPoint(s.ctl, c);
    if c == 47 {
      DebugBit0Clear(s.ctl.debug[0]);
    }
  }

  /** Two writes of the same register: the second overrides the first,
      except that an ACCESS write only overrides the fields it enables and
      a soft reset triggered by a DEBUG[0] write is not undone. The cases
      that hand over to the unseen fix-ups are excluded. */
  lemma MmioWriteOverride(s: State, c: int, idx: int, v: bv32, w: bv32, fixup: Fixup)
    requires ValidCase(c, idx) && !HasFixup(c)
    requires c == 46 ==> v & 0x0f00_0000 & !w == 0
    requires c == 47 ==> Extr(v, 0, 1) == 0 || Extr(w, 0, 1) != 0
    ensures MmioWrite(MmioWrite(s, c, idx, v, fixup), c, idx, w, fixup) == MmioWrite(s, c, idx, w, fixup)
  {
    if c == 8 { MmioOverrideBeta(s, c, idx, v, w, fixup); }
    else if PatternCase(c) { MmioOverridePattern(s, c, idx, v, w, fixup); }
    else if CanvasCase(c) { MmioOverrideCanvas(s, c, idx, v, w, fixup); }
    else if DrawCase(c) { MmioOverrideDraw(s, c, idx, v, w, fixup); }
    else if c == 2 { MmioOverrideCtxSwitch(s, v, w, fixup); }
    else if ContextCase(c) { MmioOverrideContext(s, c, v, w, fixup); }
    else if c == 47 { MmioOverrideDebug0(s, v, w, fixup); }
    else { MmioOverrideControl(s, c, v, w, fixup); }
  }

  /** Writing back what a generated state holds changes nothing, except
      for CTX_SWITCH[0]. */
  lemma MmioWriteFixedPoint(s: State, c: int, idx: int, fixup: Fixup)
    requires Generated(s) && ValidCase(c, idx) && !HasFixup(c) && c != 2
    ensures MmioWrite(s, c, idx, Load(s, c, idx), fixup) == s
  {
    if c == 8 { MmioFixedPointBeta(s, c, idx, fixup); }
    else if PatternCase(c) { MmioFixedPointPattern(s, c, idx, fixup); }
    else if CanvasCase(c) { MmioFixedPointCanvas(s, c, idx, fixup); }
    else if DrawCase(c) { MmioFixedPointDraw(s, c, idx, fixup); }
    else if ContextCase(c) { MmioFixedPointContext(s, c, fixup); }
    else { MmioFixedPointControl(s, c, fixup); }
  }

  lemma AccessGeneratedCovers(a: bv32, v: bv32)
    requires AccessGenerated(a)
    ensures v & 0x0f00_0000 & !a == 0
  {
  }

  /** Only the written register changes: writing any value and then the
      old contents back restores a generated state, unless the write was
      to CTX_SWITCH[0] or soft-reset the engine. */
  lemma MmioWriteRestore(s: State, c: int, idx: int, v: bv32, fixup: Fixup)
    requires Generated(s) && ValidCase(c, idx) && !HasFixup(c) && c != 2
    requires c == 47 ==> Extr(v, 0, 1) == 0
    ensures MmioWrite(MmioWrite(s, c, idx, v, fixup), c, idx, Load(s, c, idx), fixup) == s
  {
    if c == 46 {
      AccessGeneratedCovers(s.ctx.access, v);
    }
    MmioWriteOverride(s, c, idx, v, Load(s, c, idx), fixup);
    MmioWriteFixedPoint(s, c, idx, fixup);
  }

  /** A CTX_SWITCH[0] write stores the masked value and clears
      CTX_CONTROL bit 24; the other context registers are kept ... */
  lemma MmioCtxSwitchContext(s: State, v: bv32, fixup: Fixup)
    ensures MmioWrite(s, 2, 0, v, fixup).ctx.ctxSwitch == s.ctx.ctxSwitch[0 := v & 0x807f_ffff]
    ensures MmioWrite(s, 2, 0, v, fixup).ctx.ctxControl == s.ctx.ctxControl & 0xfeff_ffff
    ensures MmioWrite(s, 2, 0, v, fixup).ctx.(ctxSwitch := s.ctx.ctxSwitch, ctxControl := s.ctx.ctxControl) == s.ctx
  {
    InsrtClearsBit24(s.ctx.ctxControl);
  }

  /** ... and clears bit 0 of DEBUG[1]; nothing else changes. */
  lemma MmioCtxSwitchDebug(s: State, v: bv32, fixup: Fixup)
    ensures MmioWrite(s, 2, 0, v, fixup).ctl.debug == s.ctl.debug[1 := s.ctl.debug[1] & 0xffff_fffe]
    ensures MmioWrite(s, 2, 0, v, fixup).ctl.(debug := s.ctl.debug) == s.ctl
    ensures MmioWrite(s, 2, 0, v, fixup).(ctl := s.ctl, ctx := s.ctx) == s
  {
    InsrtClearsBit0(s.ctl.debug[1]);
  }

  /** A DEBUG[0] write with bit 0 set stores the masked value and soft
      resets the engine: apart from DEBUG[0] the result is the reset of
      the old state. */
  lemma MmioDebugReset(s: State, v: bv32, fixup: Fixup)
    requires Extr(v, 0, 1) != 0
    ensures MmioWrite(s, 47, 0, v, fixup).ctl == s.ctl.(debug := s.ctl.debug[0 := v & 0x1111_1110])
    ensures MmioWrite(s, 47, 0, v, fixup).(ctl := s.ctl) == Reset(s)
  {
  }
}
