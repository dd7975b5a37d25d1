# NV01 PGRAPH oracles and the PMD length walk, in Dafny

This project models two pieces of envytools.

**The NV01 PGRAPH hardware-test oracles** (`hwtest/nv01_pgraph.cc`). The
tests write a random value to a register or call a method of an object
class. They then compare the graphics engine's visible state with an
*expected state* that the test computes in software. The model covers:

- that expected-state computation;
- the state itself, as one 32-bit word per register, grouped the way the
  state list groups them (`PgraphState`);
- the random state generator, as a function of the random words it draws;
- the soft reset (`PgraphReset`);
- the MMIO write oracle, one arm per case of the write test
  (`PgraphMmio`), with its per-register facts (`PgraphMmioFacts`);
- the method oracles (`PgraphMethods`, `PgraphIfc`): context switch, notify,
  BETA, the invalid-method table, ROP, pattern shape, subdivide, VTX_BETA,
  solid colour, the IFC size-out and size-in methods, and pitch;
- the state comparator, which reports whether any compared register
  differs (`PgraphCompare`).

The oracles are pure functions from the old state to the expected state.
The source copies the state record by value before it edits it, and the
model follows that. Four places loop:

- the walk over the method table that lists the illegal methods of a
  class (`PgraphMethods.IllegalMethods`);
- the subdivide nibble check;
- the VTX_BETA pair loop;
- the comparator's walk over the registers.

Each of these is a method with loop invariants, proved against a function
or predicate.

**The PMD back end's length walk** (`pmd-back.c`). `pmdis` walks a code
buffer. It looks each opcode up in the length table `optab`: the last
entry for that opcode wins, and a missing opcode has length 0. An opcode
whose length is 0 or would run past the end is stepped over as one
unknown byte. Any other opcode's bytes are assembled little-endian into
one word, and the walk moves on by that length. The model has:

- the table lookup as a method with a loop;
- the assembly as a method;
- the walk as a method that returns its steps. Its contract says that the
  steps tile the buffer exactly and that each step decodes at its offset.
  The lemmas `DecodesAtUnique` and `TilesUnique` prove that this decoding
  is unique.

The immediate-store handlers `atomst16` and `atomst32` write into two
static offset cells, `staoff` and `stdoff`. They are a class with those two
cells as fields.

`Bits` holds the source's `extr`/`insrt` helpers and the
set-bits/clear-bits idiom on `bv32`.

Two details of the notify oracle:

- **Notify error reasons.** The three reasons (an illegal argument,
  notification disabled, a request already pending) are recorded
  independently: each ORs its own bit into INVALID
  (`hwtest/nv01_pgraph.cc:1057-1064`). `PgraphMethods.NotifyReasons`
  states each bit on its own.
- **INTR bit 28.** INTR bit 28 is raised when NOTIFY bit 20 is set and
  no invalid reason has been recorded after the argument check
  (`hwtest/nv01_pgraph.cc:1059-1060`). `PgraphMethods.NotifyDue` states
  when this happens.

Two INTR_EN masks also differ between places in the code:

- the generator draws INTR_EN with mask 0x11111011, so bit 8 stays clear;
- the MMIO write arm and the bit scan keep 0x11111111.

The model keeps both, each where the code uses it.

## Model

| member | source | states |
|---|---|---|
| PgraphState.GenControlGenerated | hwtest/nv01_pgraph.cc:133-141 | the generated DEBUG, INTR_EN, INVALID_EN, CTX_SWITCH, CTX_CONTROL, NOTIFY and ACCESS words stay within the generator's masks; INTR and INVALID start at 0 |
| PgraphState.GenStateIsGenerated | hwtest/nv01_pgraph.cc:131-186 | every register of a generated state lies within its generator mask; PFB_BOOT is the live value; PFB_CONFIG agrees with the live value outside bits 0x1371 |
| PgraphReset.Reset | hwtest/nv01_pgraph.cc:403-412 | the reset clears VALID; keeps EDGEFILL's high half, XY_MISC_0 bit 12 and XY_MISC_1 bits 24-25; sets the 0x00555500 defaults in both XY_MISC_4 words above their top byte; every other register is unchanged |
| PgraphReset.ResetIdempotent | hwtest/nv01_pgraph.cc:403-412 | resetting twice equals resetting once |
| PgraphReset.ResetKeepsGenerated | hwtest/nv01_pgraph.cc:403-412 | a reset keeps a state within the generator masks |
| PgraphMmio.AccessFieldKeeps0 | hwtest/nv01_pgraph.cc:421-422 | the bit-0 field update of an ACCESS write touches no bit outside the four writable fields |
| PgraphMmio.AccessFieldKeeps4 | hwtest/nv01_pgraph.cc:423-424 | the same for the bit-4 field |
| PgraphMmio.AccessFieldKeeps8 | hwtest/nv01_pgraph.cc:425-426 | the same for the bit-8 field |
| PgraphMmio.AccessFieldKeeps12 | hwtest/nv01_pgraph.cc:427-428 | the same for the 5-bit class field |
| PgraphMmio.AccessWriteOutside | hwtest/nv01_pgraph.cc:801-811 | an ACCESS write never changes a bit outside 0x1f111 |
| PgraphMmio.AccessWriteBit0 | hwtest/nv01_pgraph.cc:421-422 | bit 0 follows the written value exactly when write-enable bit 24 is set, else it is kept |
| PgraphMmio.AccessWriteBit4 | hwtest/nv01_pgraph.cc:423-424 | bit 4 follows the written value exactly when enable bit 25 is set, else it is kept |
| PgraphMmio.AccessWriteBit8 | hwtest/nv01_pgraph.cc:425-426 | bit 8 follows the written value exactly when enable bit 26 is set, else it is kept |
| PgraphMmio.AccessWriteClass | hwtest/nv01_pgraph.cc:427-428 | the class field (bits 12-16) follows the written value exactly when enable bit 27 is set, else it is kept |
| PgraphMmio.AccessFieldsDetermine | hwtest/nv01_pgraph.cc:414-436 | two ACCESS words that agree on the four fields and outside them are equal |
| PgraphMmio.AccessWriteIdempotent | hwtest/nv01_pgraph.cc:414-436 | writing the same ACCESS value twice equals writing it once |
| PgraphMmio.AccessWriteRestore | hwtest/nv01_pgraph.cc:801-811 | an ACCESS word with all four enables set, written back, undoes any earlier ACCESS write |
| PgraphMmio.AccessWriteNoEnable | hwtest/nv01_pgraph.cc:801-811 | a write with no enable bit leaves ACCESS unchanged |
| PgraphMmio.BetaTruncate | hwtest/nv01_pgraph.cc:731-736 | the stored BETA is within 0x7f800000: zero when the sign bit is written, otherwise the written bits 23-30 |
| PgraphMmio.BetaTruncateOrders | hwtest/nv01_pgraph.cc:1091-1094 | the BETA method test's order (zero on sign, then mask) gives the same word as the MMIO arm's order (mask, then zero on sign) |
| PgraphMmio.BetaTruncateKeeps | hwtest/nv01_pgraph.cc:731-736 | a BETA already within the mask is stored unchanged |
| PgraphMmio.BetaTruncateExamples | hwtest/nv01_pgraph.cc:731-736 | 0x80123456 stores 0 and 0x7f923456 stores 0x7f800000 |
| PgraphMmioFacts.AccessWriteAgree | hwtest/nv01_pgraph.cc:801-811 | ACCESS writes of one value to two words that agree on the enabled fields give the same result |
| PgraphMmioFacts.AccessUnenabledKept | hwtest/nv01_pgraph.cc:801-811 | a field whose enable bit is clear in the second write keeps the first write's value |
| PgraphMmioFacts.AccessWriteOverride | hwtest/nv01_pgraph.cc:801-811 | a second ACCESS write whose enables cover the first's wipes out the first |
| PgraphMmioFacts.AccessEnableSubset | hwtest/nv01_pgraph.cc:801-811 | the enable-cover condition read bit by bit |
| PgraphMmioFacts.AccessWriteSelf | hwtest/nv01_pgraph.cc:801-811 | writing ACCESS's own value back leaves it unchanged |
| PgraphMmioFacts.AccessGeneratedEnables | hwtest/nv01_pgraph.cc:180-181 | a generated ACCESS word has all four write enables set |
| PgraphMmioFacts.PatternMonoRgbRead | hwtest/nv01_pgraph.cc:695-699 | PATTERN_MONO_RGB[i] keeps the written value under 0x3fffffff, which is the bit-scan mask |
| PgraphMmioFacts.PatternMonoRgb | hwtest/nv01_pgraph.cc:695-699 | a second write overrides the first; writing a generated value back changes nothing |
| PgraphMmioFacts.PatternMonoARead | hwtest/nv01_pgraph.cc:700-704 | PATTERN_MONO_A[i] keeps the written value under 0xff, which is the bit-scan mask |
| PgraphMmioFacts.PatternMonoA | hwtest/nv01_pgraph.cc:700-704 | override and write-back fixed point for PATTERN_MONO_A |
| PgraphMmioFacts.PatternMonoBitmapRead | hwtest/nv01_pgraph.cc:705-709 | PATTERN_MONO_BITMAP[i] stores the full word, which is the bit-scan mask |
| PgraphMmioFacts.PatternMonoBitmap | hwtest/nv01_pgraph.cc:705-709 | override and write-back fixed point for PATTERN_MONO_BITMAP |
| PgraphMmioFacts.PatternConfigRead | hwtest/nv01_pgraph.cc:710-713 | PATTERN_CONFIG keeps the low 2 bits, which is the bit-scan mask |
| PgraphMmioFacts.PatternConfig | hwtest/nv01_pgraph.cc:710-713 | override and write-back fixed point for PATTERN_CONFIG |
| PgraphMmioFacts.PatternBitmapColorRead | hwtest/nv01_pgraph.cc:714-718 | BITMAP_COLOR[i] keeps the written value under 0x7fffffff, which is the bit-scan mask |
| PgraphMmioFacts.PatternBitmapColor | hwtest/nv01_pgraph.cc:714-718 | override and write-back fixed point for BITMAP_COLOR |
| PgraphMmioFacts.PatternRopRead | hwtest/nv01_pgraph.cc:719-722 | ROP keeps the low byte, which is the bit-scan mask |
| PgraphMmioFacts.PatternRop | hwtest/nv01_pgraph.cc:719-722 | override and write-back fixed point for ROP |
| PgraphMmioFacts.PatternPlaneRead | hwtest/nv01_pgraph.cc:723-726 | PLANE keeps the written value under 0x7fffffff, which is the bit-scan mask |
| PgraphMmioFacts.PatternPlane | hwtest/nv01_pgraph.cc:723-726 | override and write-back fixed point for PLANE |
| PgraphMmioFacts.PatternChromaRead | hwtest/nv01_pgraph.cc:727-730 | CHROMA keeps the written value under 0x7fffffff, which is the bit-scan mask |
| PgraphMmioFacts.PatternChroma | hwtest/nv01_pgraph.cc:727-730 | override and write-back fixed point for CHROMA |
| PgraphMmioFacts.PatternBetaRead | hwtest/nv01_pgraph.cc:731-736 | a BETA write reads back as the truncated value |
| PgraphMmioFacts.PatternBeta | hwtest/nv01_pgraph.cc:731-736 | override and write-back fixed point for BETA |
| PgraphMmioFacts.PatternWriteFacts | hwtest/nv01_pgraph.cc:695-736 | every pattern-register arm: a second write overrides the first; writing a generated value back changes nothing |
| PgraphMmioFacts.CanvasConfigRead | hwtest/nv01_pgraph.cc:737-740 | CANVAS_CONFIG keeps the written value under 0x01111011, which is the bit-scan mask |
| PgraphMmioFacts.CanvasConfig | hwtest/nv01_pgraph.cc:737-740 | override and write-back fixed point for CANVAS_CONFIG |
| PgraphMmioFacts.CanvasDstMinRead | hwtest/nv01_pgraph.cc:741-744 | DST_CANVAS_MIN stores the full word |
| PgraphMmioFacts.CanvasDstMin | hwtest/nv01_pgraph.cc:741-744 | override and write-back fixed point for DST_CANVAS_MIN |
| PgraphMmioFacts.CanvasDstMaxRead | hwtest/nv01_pgraph.cc:745-748 | DST_CANVAS_MAX keeps the written value under 0x0fff0fff |
| PgraphMmioFacts.CanvasDstMax | hwtest/nv01_pgraph.cc:745-748 | override and write-back fixed point for DST_CANVAS_MAX |
| PgraphMmioFacts.CanvasCliprectMinRead | hwtest/nv01_pgraph.cc:749-753 | CLIPRECT_MIN[i] keeps the written value under 0x0fff0fff |
| PgraphMmioFacts.CanvasCliprectMin | hwtest/nv01_pgraph.cc:749-753 | override and write-back fixed point for CLIPRECT_MIN |
| PgraphMmioFacts.CanvasCliprectMaxRead | hwtest/nv01_pgraph.cc:754-758 | CLIPRECT_MAX[i] keeps the written value under 0x0fff0fff |
| PgraphMmioFacts.CanvasCliprectMax | hwtest/nv01_pgraph.cc:754-758 | override and write-back fixed point for CLIPRECT_MAX |
| PgraphMmioFacts.CanvasCliprectCtrlRead | hwtest/nv01_pgraph.cc:759-762 | CLIPRECT_CTRL keeps the written value under 0x113 |
| PgraphMmioFacts.CanvasCliprectCtrl | hwtest/nv01_pgraph.cc:759-762 | override and write-back fixed point for CLIPRECT_CTRL |
| PgraphMmioFacts.CanvasWriteFacts | hwtest/nv01_pgraph.cc:737-762 | every canvas arm: override, and write-back fixed point on a generated canvas |
| PgraphMmioFacts.DrawXyMisc0Read | hwtest/nv01_pgraph.cc:763-766 | XY_MISC_0 keeps the written value under 0xf1ff11ff |
| PgraphMmioFacts.DrawXyMisc0 | hwtest/nv01_pgraph.cc:763-766 | override and write-back fixed point for XY_MISC_0 |
| PgraphMmioFacts.DrawXyMisc1Read | hwtest/nv01_pgraph.cc:767-771 | XY_MISC_1 keeps the written value under 0x03177331 |
| PgraphMmioFacts.DrawXyMisc1 | hwtest/nv01_pgraph.cc:767-771 | override and write-back fixed point for XY_MISC_1 |
| PgraphMmioFacts.DrawXyMisc4Read | hwtest/nv01_pgraph.cc:772-776 | XY_MISC_4[i] keeps the written value under 0x30ffffff |
| PgraphMmioFacts.DrawXyMisc4 | hwtest/nv01_pgraph.cc:772-776 | override and write-back fixed point for XY_MISC_4 |
| PgraphMmioFacts.DrawValidRead | hwtest/nv01_pgraph.cc:777-780 | VALID keeps the written value under 0x111ff1ff |
| PgraphMmioFacts.DrawValid | hwtest/nv01_pgraph.cc:777-780 | override and write-back fixed point for VALID |
| PgraphMmioFacts.DrawMisc32Read | hwtest/nv01_pgraph.cc:781-784 | MISC32 stores the full word |
| PgraphMmioFacts.DrawMisc32 | hwtest/nv01_pgraph.cc:781-784 | override and write-back fixed point for MISC32 |
| PgraphMmioFacts.DrawSubdivideRead | hwtest/nv01_pgraph.cc:785-788 | SUBDIVIDE keeps the written value under 0xffff00ff |
| PgraphMmioFacts.DrawSubdivide | hwtest/nv01_pgraph.cc:785-788 | override and write-back fixed point for SUBDIVIDE |
| PgraphMmioFacts.DrawEdgefillRead | hwtest/nv01_pgraph.cc:789-792 | EDGEFILL keeps the written value under 0xffff0113 |
| PgraphMmioFacts.DrawEdgefill | hwtest/nv01_pgraph.cc:789-792 | override and write-back fixed point for EDGEFILL |
| PgraphMmioFacts.DrawWriteFacts | hwtest/nv01_pgraph.cc:763-792 | every rasteriser-state arm: override, and write-back fixed point on a generated state |
| PgraphMmioFacts.ContextCtxSwitch | hwtest/nv01_pgraph.cc:630-635 | CTX_SWITCH[0] keeps the written value under 0x807fffff |
| PgraphMmioFacts.ContextCtxSwitchTwice | hwtest/nv01_pgraph.cc:630-635 | a second CTX_SWITCH[0] write overrides the first |
| PgraphMmioFacts.ContextCtxControlRead | hwtest/nv01_pgraph.cc:636-639 | CTX_CONTROL keeps the written value under 0x11010103 |
| PgraphMmioFacts.ContextCtxControl | hwtest/nv01_pgraph.cc:636-639 | a second CTX_CONTROL write overrides the first |
| PgraphMmioFacts.ContextCtxControlFixed | hwtest/nv01_pgraph.cc:636-639 | writing back a CTX_CONTROL within its mask changes nothing |
| PgraphMmioFacts.ContextDmaRead | hwtest/nv01_pgraph.cc:793-796 | CTX_SWITCH[1] keeps the low 16 bits |
| PgraphMmioFacts.ContextDma | hwtest/nv01_pgraph.cc:793-796 | a second CTX_SWITCH[1] write overrides the first |
| PgraphMmioFacts.ContextDmaFixed | hwtest/nv01_pgraph.cc:793-796 | writing back a CTX_SWITCH[1] within its mask changes nothing |
| PgraphMmioFacts.ContextNotifyRead | hwtest/nv01_pgraph.cc:797-800 | NOTIFY keeps the written value under 0x0011ffff |
| PgraphMmioFacts.ContextNotify | hwtest/nv01_pgraph.cc:797-800 | a second NOTIFY write overrides the first |
| PgraphMmioFacts.ContextNotifyFixed | hwtest/nv01_pgraph.cc:797-800 | writing back a NOTIFY within its mask changes nothing |
| PgraphMmioFacts.ContextAccessRead | hwtest/nv01_pgraph.cc:801-811 | the ACCESS arm stores the enable-gated field update |
| PgraphMmioFacts.ContextAccess | hwtest/nv01_pgraph.cc:801-811 | a second ACCESS write whose enables cover the first overrides it; writing a generated ACCESS back changes nothing |
| PgraphMmioFacts.ContextWriteOverride | hwtest/nv01_pgraph.cc:630-811 | every context arm: a second write overrides the first (for ACCESS, when its enables cover the first's) |
| PgraphMmioFacts.ContextWriteFixedPoint | hwtest/nv01_pgraph.cc:636-811 | every context arm except CTX_SWITCH[0]: writing a generated value back changes nothing |
| PgraphMmioFacts.ControlInvalidEnRead | hwtest/nv01_pgraph.cc:626-629 | INVALID_EN keeps the written value under 0x00011111 |
| PgraphMmioFacts.ControlInvalidEn | hwtest/nv01_pgraph.cc:626-629 | a second INVALID_EN write overrides the first |
| PgraphMmioFacts.ControlInvalidEnFixed | hwtest/nv01_pgraph.cc:626-629 | writing back an INVALID_EN within its mask changes nothing |
| PgraphMmioFacts.ControlDebug0Read | hwtest/nv01_pgraph.cc:812-817 | DEBUG[0] keeps the written value under 0x11111110 |
| PgraphMmioFacts.ControlDebug0 | hwtest/nv01_pgraph.cc:812-817 | a second DEBUG[0] register write overrides the first |
| PgraphMmioFacts.ControlDebug0Fixed | hwtest/nv01_pgraph.cc:812-817 | writing back a DEBUG[0] within its mask changes nothing |
| PgraphMmioFacts.ControlDebug1Read | hwtest/nv01_pgraph.cc:818-821 | DEBUG[1] keeps the written value under 0x31111101 |
| PgraphMmioFacts.ControlDebug1 | hwtest/nv01_pgraph.cc:818-821 | a second DEBUG[1] write overrides the first |
| PgraphMmioFacts.ControlDebug1Fixed | hwtest/nv01_pgraph.cc:818-821 | writing back a DEBUG[1] within its mask changes nothing |
| PgraphMmioFacts.ControlDebug2Read | hwtest/nv01_pgraph.cc:822-825 | DEBUG[2] keeps the written value under 0x11111111 |
| PgraphMmioFacts.ControlDebug2 | hwtest/nv01_pgraph.cc:822-825 | a second DEBUG[2] write overrides the first |
| PgraphMmioFacts.ControlDebug2Fixed | hwtest/nv01_pgraph.cc:822-825 | writing back a DEBUG[2] within its mask changes nothing |
| PgraphMmioFacts.ControlIntrEn | hwtest/nv01_pgraph.cc:622-625 | every case that falls to the default arm writes INTR_EN under 0x11111111 (the bit-scan mask); a second write overrides the first |
| PgraphMmioFacts.ControlIntrEnFixed | hwtest/nv01_pgraph.cc:622-625 | writing back an INTR_EN within its mask changes nothing |
| PgraphMmioFacts.ControlWriteOverride | hwtest/nv01_pgraph.cc:622-825 | every control-register arm: a second write overrides the first |
| PgraphMmioFacts.ControlWriteFixedPoint | hwtest/nv01_pgraph.cc:622-825 | every control-register arm: writing a generated value back changes nothing |
| PgraphMmioFacts.VertexBetaRead | hwtest/nv01_pgraph.cc:664-668 | VTX_BETA[i] keeps the written value under 0x01ffffff, which is the bit-scan mask |
| PgraphMmioFacts.VertexBeta | hwtest/nv01_pgraph.cc:664-668 | override, and write-back fixed point for a VTX_BETA within its mask |
| PgraphMmioFacts.MmioOverrideBeta | hwtest/nv01_pgraph.cc:664-668 | the VTX_BETA case of the whole MMIO oracle: a second write overrides the first |
| PgraphMmioFacts.MmioFixedPointBeta | hwtest/nv01_pgraph.cc:664-668 | the VTX_BETA case: writing a generated value back leaves the whole state unchanged |
| PgraphMmioFacts.MmioOverridePattern | hwtest/nv01_pgraph.cc:695-736 | the pattern cases of the MMIO oracle: a second write overrides the first |
| PgraphMmioFacts.MmioFixedPointPattern | hwtest/nv01_pgraph.cc:695-736 | the pattern cases: writing a generated value back leaves the whole state unchanged |
| PgraphMmioFacts.MmioOverrideCanvas | hwtest/nv01_pgraph.cc:737-762 | the canvas cases of the MMIO oracle: a second write overrides the first |
| PgraphMmioFacts.MmioFixedPointCanvas | hwtest/nv01_pgraph.cc:737-762 | the canvas cases: write-back fixed point on the whole state |
| PgraphMmioFacts.MmioOverrideDraw | hwtest/nv01_pgraph.cc:763-792 | the rasteriser-state cases of the MMIO oracle: a second write overrides the first |
| PgraphMmioFacts.MmioFixedPointDraw | hwtest/nv01_pgraph.cc:763-792 | the rasteriser-state cases: write-back fixed point on the whole state |
| PgraphMmioFacts.MmioOverrideContext | hwtest/nv01_pgraph.cc:636-811 | the context cases other than CTX_SWITCH[0]: a second write overrides the first |
| PgraphMmioFacts.MmioOverrideCtxSwitch | hwtest/nv01_pgraph.cc:630-635 | a second CTX_SWITCH[0] write, with its CTX_CONTROL and DEBUG[1] side effects, overrides the first |
| PgraphMmioFacts.ClearDebug1Twice | hwtest/nv01_pgraph.cc:630-635 | clearing DEBUG[1] bit 0 twice equals clearing it once |
| PgraphMmioFacts.CtxSwitchWriteTwice | hwtest/nv01_pgraph.cc:630-635 | the CTX_SWITCH[0] arm applied twice equals applying the second write alone |
| PgraphMmioFacts.MmioFixedPointContext | hwtest/nv01_pgraph.cc:636-811 | the context cases other than CTX_SWITCH[0]: write-back fixed point on the whole state |
| PgraphMmioFacts.MmioOverrideControl | hwtest/nv01_pgraph.cc:622-825 | the control cases other than DEBUG[0]: a second write overrides the first |
| PgraphMmioFacts.MmioOverrideDebug0 | hwtest/nv01_pgraph.cc:812-817 | a second DEBUG[0] write overrides the first, unless the first alone resets the engine |
| PgraphMmioFacts.MmioFixedPointControl | hwtest/nv01_pgraph.cc:622-825 | the control cases: write-back fixed point on the whole state |
| PgraphMmioFacts.MmioWriteOverride | hwtest/nv01_pgraph.cc:611-836 | every case without a fix-up: a second write overrides the first (ACCESS when its enables cover the first; DEBUG[0] unless the first write alone resets) |
| PgraphMmioFacts.MmioWriteFixedPoint | hwtest/nv01_pgraph.cc:611-836 | every case without a fix-up except CTX_SWITCH[0]: writing a generated state's own value back changes nothing |
| PgraphMmioFacts.MmioWriteRestore | hwtest/nv01_pgraph.cc:611-836 | on a generated state, writing a value and then the register's old value restores the whole state (no DEBUG[0] reset, not CTX_SWITCH[0]) |
| PgraphMmioFacts.MmioCtxSwitchContext | hwtest/nv01_pgraph.cc:630-635 | a CTX_SWITCH[0] write stores the value under 0x807fffff and clears CTX_CONTROL bit 24; no other context register changes |
| PgraphMmioFacts.MmioCtxSwitchDebug | hwtest/nv01_pgraph.cc:630-635 | a CTX_SWITCH[0] write clears DEBUG[1] bit 0; nothing outside the context registers and DEBUG[1] changes |
| PgraphMmioFacts.MmioDebugReset | hwtest/nv01_pgraph.cc:812-817 | a DEBUG[0] write with bit 0 set stores the masked value and soft-resets every other register |
| PgraphMethods.RejectIntr | hwtest/nv01_pgraph.cc:1113 | a rejected method raises INTR bit 0 and leaves the other INTR bits alone |
| PgraphMethods.RejectInvalid | hwtest/nv01_pgraph.cc:1114 | a rejected method ORs its reason into INVALID and leaves the other bits alone |
| PgraphMethods.RejectAccess | hwtest/nv01_pgraph.cc:1115 | a rejected method clears ACCESS bits 0 and 8 and leaves the other bits alone |
| PgraphMethods.RejectFrame | hwtest/nv01_pgraph.cc:1113-1115 | a rejection changes only INTR, INVALID and ACCESS |
| PgraphMethods.RejectIdempotent | hwtest/nv01_pgraph.cc:1113-1115 | rejecting twice for the same reason equals rejecting once |
| PgraphMethods.IllegalMethods | hwtest/nv01_pgraph.cc:1137-1190 | returns, in ascending order, exactly the word-aligned method offsets below 0x2000 that the class's table does not accept |
| PgraphMethods.InvalidMethodOutcome | hwtest/nv01_pgraph.cc:1104-1123 | an illegal method raises INTR bit 0 and INVALID bit 0, clears ACCESS bits 0 and 8, and touches nothing else |
| PgraphMethods.InvalidMethodKeeps | hwtest/nv01_pgraph.cc:1104-1123 | an illegal method keeps every other INTR, INVALID and ACCESS bit, and every other control and context register |
| PgraphMethods.MethodTableExamples | hwtest/nv01_pgraph.cc:1137-1189 | CTX_SWITCH and NOTIFY are always legal; the VTX_BETA, TRIANGLE32, POINT and CHROMA exclusions hold per class |
| PgraphMethods.RopMatchesMmio | hwtest/nv01_pgraph.cc:1207-1213 | the ROP method stores the low byte as the ROP register write does, and rejects with reason 0x10 exactly when the value exceeds 0xff |
| PgraphMethods.PatternShapeMatchesMmio | hwtest/nv01_pgraph.cc:1288-1294 | the pattern-shape method stores the low 2 bits as the PATTERN_CONFIG write does, and rejects with reason 0x10 exactly when the value exceeds 2 (so value 3 is stored and still rejected) |
| PgraphMethods.ValidatedReason | hwtest/nv01_pgraph.cc:1207-1294 | from a clean INVALID, the ROP and shape methods leave INVALID at 0x10 exactly on their out-of-range values and at 0 otherwise |
| PgraphMethods.NibbleAbove8Exists | hwtest/nv01_pgraph.cc:1366-1368 | the recursive "some nibble exceeds 8" check equals its existential reading |
| PgraphMethods.CheckSubdivide | hwtest/nv01_pgraph.cc:1362-1371 | the nibble loop flags an error exactly when bits 8-15 are set, some nibble exceeds 8, or one of the two low nibbles is below 2 |
| PgraphMethods.SubdivideMatchesMmio | hwtest/nv01_pgraph.cc:1359-1376 | the subdivide method stores the value under 0xffff00ff as the SUBDIVIDE write does, rejects with 0x10 exactly on an illegal value, and stores a legal value whole |
| PgraphMethods.SubdivideExamples | hwtest/nv01_pgraph.cc:1362-1371 | 0x22 and 0x88880088 are legal; 0x12, 0x122 and 0x09000022 are rejected |
| PgraphMethods.BetaMatchesMmio | hwtest/nv01_pgraph.cc:1091-1094 | the BETA method stores the same word as the BETA register write: zero on the sign bit, else bits 23-30 |
| PgraphMethods.SolidColorMatchesMmio | hwtest/nv01_pgraph.cc:1460 | the solid-colour methods store the whole value in MISC32 and change nothing else |
| PgraphMethods.SwitchedCtxControlMark | hwtest/nv01_pgraph.cc:1001-1007 | CTX_CONTROL bit 24 ends up set on a channel switch and clear otherwise |
| PgraphMethods.SwitchedCtxControlValid | hwtest/nv01_pgraph.cc:1001-1007 | CTX_CONTROL bit 16 is set after a switch and kept otherwise; only bits 16 and 24 can change |
| PgraphMethods.SwitchContextControl | hwtest/nv01_pgraph.cc:993-1007 | after the context update, CTX_CONTROL bit 24 is set exactly when the write switches channels, and bit 16 is set |
| PgraphMethods.SwitchContextControlKeeps | hwtest/nv01_pgraph.cc:1001-1007 | the context update changes CTX_CONTROL only in bits 16 and 24 |
| PgraphMethods.SwitchedAccessClass | hwtest/nv01_pgraph.cc:1008 | the ACCESS class field records the called class |
| PgraphMethods.SwitchedAccessLow | hwtest/nv01_pgraph.cc:1004-1008 | ACCESS bits 0 and 8 are cleared on a switch and kept otherwise; no bit outside those and the class field changes |
| PgraphMethods.SwitchContextClass | hwtest/nv01_pgraph.cc:1008 | after a context switch, the ACCESS class field is the called class |
| PgraphMethods.SwitchContextAccess | hwtest/nv01_pgraph.cc:1001-1008 | ACCESS bits 0 and 8 are cleared exactly on a channel switch |
| PgraphMethods.SwitchContextAccessKeeps | hwtest/nv01_pgraph.cc:1001-1008 | the context switch changes ACCESS only in bits 0, 8 and the class field |
| PgraphMethods.SwitchContextSettles | hwtest/nv01_pgraph.cc:993-1021 | CTX_SWITCH[0] becomes the written value under 0x807fffff, and the same write would then no longer count as a switch |
| PgraphMethods.VolatileFlagBit | hwtest/nv01_pgraph.cc:1009 | DEBUG[1] bit 0 records the volatile-reset condition; no other bit changes |
| PgraphMethods.SwitchedIntrBit | hwtest/nv01_pgraph.cc:1003 | a switch raises INTR bit 4; no other INTR bit changes |
| PgraphMethods.SwitchControlIntr | hwtest/nv01_pgraph.cc:1003 | the control update raises INTR bit 4 on a switch and changes no other INTR bit |
| PgraphMethods.SwitchControlDebug | hwtest/nv01_pgraph.cc:1009 | DEBUG[1] bit 0 is set exactly on a volatile reset; no other DEBUG[1] bit changes |
| PgraphMethods.SwitchControlFrame | hwtest/nv01_pgraph.cc:1001-1009 | the control update changes only INTR and DEBUG |
| PgraphMethods.DeliverNotifyContext | hwtest/nv01_pgraph.cc:1022-1027 | a pending notify is delivered: NOTIFY bit 20 is cleared; with no pending notify the state is unchanged; CTX_SWITCH, CTX_CONTROL and the ACCESS class stay as they were |
| PgraphMethods.DeliverNotifyRaises | hwtest/nv01_pgraph.cc:1022-1027 | delivering a pending notify raises INTR bits 0 and 28 and INVALID bit 16, and clears ACCESS bits 0 and 8 |
| PgraphMethods.DeliverNotifyKeeps | hwtest/nv01_pgraph.cc:1022-1027 | delivering a pending notify keeps every other INTR, INVALID and ACCESS bit |
| PgraphMethods.CtxSwitchFrame | hwtest/nv01_pgraph.cc:976-1036 | a context switch changes only the control, context, pattern and rasteriser groups; pattern and rasteriser change only on a volatile reset, which sets the XY_MISC_4 defaults and clears XY_MISC_0 |
| PgraphMethods.CtxSwitchContext | hwtest/nv01_pgraph.cc:1008-1021 | after a context switch, CTX_SWITCH[0] is the written value under 0x807fffff and ACCESS records the called class |
| PgraphMethods.CtxSwitchControl | hwtest/nv01_pgraph.cc:993-1027 | after a context switch, CTX_CONTROL bit 24 is set exactly when the write switched channels, and no notify is left pending |
| PgraphMethods.CtxSwitchSettles | hwtest/nv01_pgraph.cc:993-1021 | repeating the same switch value right after does not count as a switch |
| PgraphMethods.ReasonBits | hwtest/nv01_pgraph.cc:1057-1064 | the three notify reasons land in INVALID bits 4, 8 and 12, each independently, and nowhere else |
| PgraphMethods.NotifyReasons | hwtest/nv01_pgraph.cc:1057-1064 | from a clean INVALID: bit 4 is set exactly for an unsupported argument, bit 8 exactly when CTX_SWITCH bit 8 is clear, and bit 12 exactly when a notify is pending or due |
| PgraphMethods.NotifyRejected | hwtest/nv01_pgraph.cc:1065-1068 | a rejected notify raises INTR bit 0, records the reasons, clears ACCESS bits 0 and 8, and leaves NOTIFY alone |
| PgraphMethods.NotifyRejectedAccess | hwtest/nv01_pgraph.cc:1065-1067 | a rejected notify keeps every ACCESS bit but 0 and 8 |
| PgraphMethods.NotifyQueued | hwtest/nv01_pgraph.cc:1068-1070 | an accepted notify sets NOTIFY bit 16 and leaves INVALID and ACCESS unchanged |
| PgraphMethods.NotifyQueuedKeeps | hwtest/nv01_pgraph.cc:1059-1070 | an accepted notify leaves INTR unchanged (a request pending at NOTIFY bit 20 would have been rejected) and keeps every NOTIFY bit but 16 |
| PgraphMethods.NotifyDue | hwtest/nv01_pgraph.cc:1057-1067 | on every path INTR bit 28 ends up set exactly when it was set or NOTIFY bit 20 is set, the argument is legal and INVALID was clear |
| PgraphMethods.NotifyIntrKeeps | hwtest/nv01_pgraph.cc:1059-1066 | on every path every INTR bit other than 0 and 28 is kept |
| PgraphMethods.NotifyFrame | hwtest/nv01_pgraph.cc:1056-1070 | a notify changes only INTR, INVALID, ACCESS and NOTIFY |
| PgraphMethods.NotifyAccepted | hwtest/nv01_pgraph.cc:1057-1070 | on a ready context with nothing pending, a zero notify is accepted and only sets NOTIFY bit 16 |
| PgraphMethods.NotifyTwice | hwtest/nv01_pgraph.cc:1063-1070 | a second notify after an accepted one is rejected as already pending |
| PgraphMethods.NotifyRaisesDouble | hwtest/nv01_pgraph.cc:1063-1064 | once NOTIFY bit 16 is set, the pending reason bit 12 is always raised |
| PgraphIfc.BetaRoundTrip | hwtest/nv01_pgraph.cc:1405-1410 | decoding an encoded VTX_BETA half gives back its top 9 bits |
| PgraphIfc.BetaEncodeShape | hwtest/nv01_pgraph.cc:1405-1410 | an encoded half has bit 14 set, bit 24 equal to bit 23, and fits within 0x01ffc000 |
| PgraphIfc.BetaEncodeExamples | hwtest/nv01_pgraph.cc:1405-1410 | sample encodings: 0 gives 0x4000, 0x8000 gives 0x01804000, 0xffff gives 0x01ffc000 |
| PgraphIfc.VtxBeta | hwtest/nv01_pgraph.cc:1397-1414 | the two halves of the value go to VTX_BETA[2*idx] and [2*idx+1]; the second is skipped for slot 9 of a 9-vertex class; VALID bit 12+idx is set for classes 0x1d and 0x1e; nothing else changes |
| PgraphIfc.SizeOutStored | hwtest/nv01_pgraph.cc:1909-1910 | VTX_X[5] takes the low half and VTX_Y[5] the high half of the written value, which the two give back together; no other vertex register changes |
| PgraphIfc.SizeOutValidBits | hwtest/nv01_pgraph.cc:1911-1918 | size-out always sets VALID bits 5 and 17, and bit 8 for BLIT (0x10), RECT (0xc) and classes 9-0xb |
| PgraphIfc.SizeOutValidKeeps | hwtest/nv01_pgraph.cc:1911-1918 | outside the line/triangle classes, VALID changes only in bits 5, 8 and 17 |
| PgraphIfc.SizeOutValidLineTri | hwtest/nv01_pgraph.cc:1911-1912 | for the LINE, LIN and TRI classes (9-0xb), VALID's top byte is kept and its low 24 bits become exactly bits 5, 8 and 17 |
| PgraphIfc.SizeOutDrawValid | hwtest/nv01_pgraph.cc:1911-1918 | the size-out draw update sets VALID bits 5 and 17, and bit 8 for the marking classes |
| PgraphIfc.SizeOutDrawKeeps | hwtest/nv01_pgraph.cc:1911-1918 | outside the line/triangle classes, the draw update changes VALID only in bits 5, 8 and 17 |
| PgraphIfc.SizeOutDrawLineTri | hwtest/nv01_pgraph.cc:1911-1912 | for the LINE, LIN and TRI classes (9-0xb), the draw update keeps VALID's top byte and leaves exactly bits 5, 8 and 17 of the low 24 |
| PgraphIfc.SizeOutMiscBits | hwtest/nv01_pgraph.cc:1914-1916 | XY_MISC_0 bits 28-31 are cleared; XY_MISC_1 bit 0 is cleared for classes 0x11-0x13 only |
| PgraphIfc.SizeOutDrawMisc | hwtest/nv01_pgraph.cc:1914-1916 | after size-out, XY_MISC_0 bits 28-31 are 0 and XY_MISC_1 bit 0 is cleared exactly for the image classes |
| PgraphIfc.IfcSizeOutFrame | hwtest/nv01_pgraph.cc:1897-1926 | size-out changes only the vertex registers, VALID, XY_MISC_0 and XY_MISC_1 |
| PgraphIfc.SizeInStored | hwtest/nv01_pgraph.cc:1961-1963 | VTX_X[3] takes the width and VTX_Y[3] the negated height, which give back the written value together; VTX_Y[1] becomes 0; no other vertex register changes |
| PgraphIfc.Misc0Flag | hwtest/nv01_pgraph.cc:1994-1995 | XY_MISC_0 bit 12 records the "zero size" flag and bits 28-31 are cleared |
| PgraphIfc.SizeInEmpty | hwtest/nv01_pgraph.cc:1978-1994 | for classes other than 0x0d, 0x1d and 0x14, the zero flag is set exactly when the width or the height is 0 |
| PgraphIfc.SizeInEmptyTexlin | hwtest/nv01_pgraph.cc:1978-1994 | for classes 0x0d and 0x1d, the zero flag also depends on the old XY_MISC_4 marks, which are kept |
| PgraphIfc.SizeInEmpty14 | hwtest/nv01_pgraph.cc:1987-1994 | for class 0x14, the zero flag is set exactly when the width equals the pixels-per-word count or the height is 0 |
| PgraphIfc.SizeInValidBits | hwtest/nv01_pgraph.cc:1966-1974 | size-in sets VALID bits 3 and 15, bits 7 and 19 for line/triangle classes, and bit 8 for the marking classes when not ITM |
| PgraphIfc.SizeInDrawValid | hwtest/nv01_pgraph.cc:1966-1974 | the same VALID bits after the whole size-in draw update |
| PgraphIfc.SizeInValidLineTri | hwtest/nv01_pgraph.cc:1966-1974 | for classes 9-0xb, an ordinary size-in clears the low 24 VALID bits and leaves exactly bits 3, 7, 8, 15 and 19, while ITM keeps them and adds 3, 7, 15 and 19 |
| PgraphIfc.SizeInValidOther | hwtest/nv01_pgraph.cc:1966-1974 | outside classes 9-0xb, VALID gains bits 3 and 15, and bit 8 for the marking classes unless ITM; no other bit changes |
| PgraphIfc.SizeInDrawValidLineTri | hwtest/nv01_pgraph.cc:1966-1974 | the whole VALID word after the size-in draw update for classes 9-0xb, with and without ITM |
| PgraphIfc.SizeInDrawValidOther | hwtest/nv01_pgraph.cc:1966-1974 | outside classes 9-0xb, the size-in draw update keeps every VALID bit but 3, 8 and 15 |
| PgraphIfc.Misc4Word | hwtest/nv01_pgraph.cc:1978-1985 | one XY_MISC_4 word: bits 28-29 become 2 or 0 by the size, except for 0x0d/0x1d, where the word is kept and only gains bit 29 for a non-zero size; other bits kept |
| PgraphIfc.SizeInDrawMisc4 | hwtest/nv01_pgraph.cc:1978-1985 | after size-in, XY_MISC_4 bits 28-29 are 2 for a non-zero width (word 0) or height (word 1) and 0 otherwise; classes 0x0d/0x1d keep each word and only OR in bit 29 for a non-zero size; no other bit changes |
| PgraphIfc.EdgefillBits | hwtest/nv01_pgraph.cc:1975-1977 | EDGEFILL bit 8 is set exactly for a narrow bitmap, and bit 4 is cleared |
| PgraphIfc.EdgefillKeeps | hwtest/nv01_pgraph.cc:1975-1977 | EDGEFILL changes only in bits 4 and 8 |
| PgraphIfc.SizeInDrawNarrow | hwtest/nv01_pgraph.cc:1975-1977 | EDGEFILL bit 8 is set exactly when the width is below 0x20 and the class is 0x12 |
| PgraphIfc.SizeInDrawEdgefillClear | hwtest/nv01_pgraph.cc:1975 | after size-in, EDGEFILL bit 4 is clear |
| PgraphIfc.SizeInDrawEdgefillKeeps | hwtest/nv01_pgraph.cc:1975-1977 | size-in changes EDGEFILL only in bits 4 and 8 |
| PgraphIfc.IfcSizeInFrame | hwtest/nv01_pgraph.cc:1928-2003 | size-in changes only the vertex and rasteriser registers, and never SUBDIVIDE or MISC32 |
| PgraphIfc.PitchValidBits | hwtest/nv01_pgraph.cc:2017 | setting the pitch VALID bits sets bits 6 and 18 and keeps every other bit |
| PgraphIfc.PitchValid | hwtest/nv01_pgraph.cc:2017 | a pitch write sets VALID bits 6 and 18 and keeps every other bit |
| PgraphIfc.PitchFrame | hwtest/nv01_pgraph.cc:2016-2017 | a pitch write stores the whole value in VTX_X[6] and changes nothing else but VALID |
| PgraphCompare.CompareWords | hwtest/nv01_pgraph.cc:334-400 | the comparator loop reports a difference exactly when the incoming broke flag is set or some word differs |
| PgraphCompare.CompareStates | hwtest/nv01_pgraph.cc:322-401 | the comparator returns true exactly when broke was passed in or the two states differ in some compared register |
| PgraphCompare.ControlListExact | hwtest/nv01_pgraph.cc:335-347 | the compared control words are equal exactly when the two control groups agree on everything but TRAP_ADDR and TRAP_DATA |
| PgraphCompare.ContextListExact | hwtest/nv01_pgraph.cc:348-351 | the compared context words together with ACCESS determine the context group |
| PgraphCompare.ClipListExact | hwtest/nv01_pgraph.cc:352-358 | the compared clip words determine the clip group |
| PgraphCompare.VertexListExact | hwtest/nv01_pgraph.cc:359-365 | the compared vertex words determine the vertex group |
| PgraphCompare.DrawListExact | hwtest/nv01_pgraph.cc:366-373 | the compared rasteriser words determine the rasteriser group |
| PgraphCompare.PatternListExact | hwtest/nv01_pgraph.cc:374-386 | the compared pattern words determine the pattern group |
| PgraphCompare.CanvasListExact | hwtest/nv01_pgraph.cc:387-394 | the compared canvas words determine the canvas group |
| PgraphCompare.CompareListExact | hwtest/nv01_pgraph.cc:322-401 | the compared word lists of two states are equal exactly when the states agree on every compared register |
| PgraphCompare.ListsDetermine | hwtest/nv01_pgraph.cc:322-401 | equal compared lists mean the states agree on every compared register |
| PgraphCompare.RestListExact | hwtest/nv01_pgraph.cc:352-394 | equal lists of the non-control words mean the clip, vertex, rasteriser, pattern and canvas groups are equal |
| PmdBack.LookupLength | pmd-back.c:105-109 | the table loop returns the length of the last table entry for the opcode, or 0 |
| PmdBack.TableAscending | pmd-back.c:65-84 | the opcode column of the length table is strictly ascending, so no opcode is listed twice |
| PmdBack.TableEntry | pmd-back.c:65-84 | every table entry is a byte opcode with length 1, 3 or 5 |
| PmdBack.OpLengthValues | pmd-back.c:105-109 | every opcode's length is 0, 1, 3 or 5 |
| PmdBack.OpLengthOfPair | pmd-back.c:105-109 | a listed opcode gets exactly the length in its table entry |
| PmdBack.OpLengthUnlisted | pmd-back.c:105-109 | an opcode not in the table gets length 0 |
| PmdBack.OpLengthImmediates | pmd-back.c:56-84 | the immediate-store opcodes 0x40/0x42 have length 3, 0xe0/0xe2 have length 5, exit 0x7f has length 1, and 0x02 is unknown |
| PmdBack.LittleEndianBound | pmd-back.c:114-118 | a word assembled from n bytes is below 256^n |
| PmdBack.LittleEndianSnoc | pmd-back.c:115-118 | adding byte i places it at bit 8*i above the bytes before it |
| PmdBack.BytesRoundTrip | pmd-back.c:114-118 | splitting a word below 256^n into n bytes and assembling them gives the word back |
| PmdBack.WordRoundTrip | pmd-back.c:114-118 | assembling bytes and splitting the word again gives the same bytes |
| PmdBack.Assemble | pmd-back.c:114-118 | the assembly loop returns the little-endian value of the instruction's bytes, below 256^length |
| PmdBack.TilesSnoc | pmd-back.c:103-130 | appending the step decoded at the current offset extends the tiling by that step's width |
| PmdBack.Pmdis | pmd-back.c:93-132 | the walk returns steps that tile bytes 0..num exactly, each the decoding at its offset; a negative num gives no steps |
| PmdBack.StepAdvances | pmd-back.c:110-128 | a step is unknown exactly when the opcode has no length or would run past num; an unknown step advances 1 byte and a known step advances its length and ends within num |
| PmdBack.DecodesAtUnique | pmd-back.c:105-118 | at most one step decodes at a given offset |
| PmdBack.KnownWordBound | pmd-back.c:114-118 | a known step's word fits in its length in bytes |
| PmdBack.KnownWordOpcode | pmd-back.c:114-118 | the low byte of a known step's word is its opcode |
| PmdBack.TilesForward | pmd-back.c:103-130 | a non-empty tiling ends strictly after its start and no later than num |
| PmdBack.TilesUnique | pmd-back.c:103-130 | two tilings from the same offset to the same end are the same step list |
| PmdBack.Store16Halves | pmd-back.c:42-44 | a 16-bit store keeps the cell's high half and puts the immediate in the low half |
| PmdBack.Imm16Bytes | pmd-back.c:42 | the 16-bit immediate is the instruction's bytes 1-2, little-endian |
| PmdBack.Imm32Bytes | pmd-back.c:51 | the 32-bit immediate is the instruction's bytes 1-4, little-endian |
| PmdBack.StorePersists | pmd-back.c:38-54 | a 32-bit store followed by a 16-bit store leaves the 32-bit immediate's high half above the 16-bit immediate |
| PmdBack.Store16Twice | pmd-back.c:42-44 | a second 16-bit store overrides the first |
| PmdBack.OffsetCells.constructor | pmd-back.c:32-33 | both offset cells start at 0xdeaddead |
| PmdBack.OffsetCells.Atomst16 | pmd-back.c:38-46 | with no output the cells are unchanged; otherwise the chosen cell's low half takes the 16-bit immediate, its high half is kept, and the other cell is unchanged |
| PmdBack.OffsetCells.Atomst32 | pmd-back.c:47-54 | with no output the cells are unchanged; otherwise the chosen cell takes the 32-bit immediate and the other cell is unchanged |

## Left out

- Hardware access is not modelled: register reads and writes, `load_state` and `dump_state` (`hwtest/nv01_pgraph.cc:188-320`). The expected state is a function of the old state, and comparing with hardware is comparing two `State` values.
- The random generator's source `jrand48` is not modelled. `GenState` takes the sequence of drawn words as a parameter; the live PFB_CONFIG and PFB_BOOT reads are also parameters.
- The test drivers' outer loops, iteration counts and random choices of class, index and value are not modelled. So are the printing of differences and the comparator's `goto restart` second pass that only prints. `CompareStates` returns the same verdict.
- The `Quiet` precondition copies the tests' own set-up (`notify &= ~0x110000`) rather than a demand of the hardware. The context-switch oracle likewise requires NOTIFY bit 16 clear (`hwtest/nv01_pgraph.cc:989`).
- The vertex, internal-clip and user-clip cases of the MMIO write test (cases 4-7 and 9-12) hand their state to fix-up helpers that are not part of this model. They appear as the `Fixup` function parameter. The model states what the arm itself does before the hand-over (the VTX_X/VTX_Y store, the XY_MISC_1 flag clear).
- `nv01_pgraph_cpp_in` is not part of this model. IFC size-in takes its quotient `4 / cpp_in` as the `pixels` parameter.
- The other method tests are not modelled: VTX position methods, chroma, plane, mono and clip methods, rectangle, IFC and bitmap data, bitmap colour, and the ROP rendering tests. They lie outside the core.
- PgraphMethods.CtxSwitchFrame: on a volatile reset it states only XY_MISC_4 and XY_MISC_0 of the wiped registers. The other masks (bitmap colour, VALID, XY_MISC_1, MISC32, SUBDIVIDE) are in the definition `VolatilePattern`/`VolatileDraw` but not restated as lemmas.
- PgraphIfc.SizeInEmptyTexlin: states the flag in terms of the old XY_MISC_4 marks. It does not restate the width/height condition, because for these classes the source keeps the old marks.
- The PMD disassembly output is not modelled: addresses, bytes, padding, colours and the "unknown op length" message. `start` only feeds the printed address.
- PMD's `atomtab` matching against `tabm` is not part of this model; it is declared elsewhere. Nor is the `a &= ~m` report of unconsumed bits. The walk records the assembled word of each known step, and the store handlers are modelled on the immediate they receive.
- The labels array that `pmdis` allocates and frees is not modelled.
- PMD's assembled word `a` is a 64-bit `ull` in the source. It is a `nat` in the model; at most 5 bytes are assembled, so it never wraps.
- PMD's assembly ORs each byte shifted into a fresh byte position. The model adds, which gives the same value because the bytes do not overlap.
- The `int` offset cells hold the bit pattern 0xdeaddead. The model keeps them as unsigned 32-bit values; the 32-bit store's conversion to `int` keeps the same bits.
- The handlers' `ctx->out == NULL` early return is the `out` flag.
