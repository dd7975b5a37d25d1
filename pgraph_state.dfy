/** The visible state of the NV01 PGRAPH engine as the hardware tests see
    it: one 32-bit word per register, arrays of registers as fixed-length
    sequences. The registers are grouped by the unit they belong to, in the
    order the state list and the comparator walk them. `Generated` says
    which bits of each register the random generator can set; `GenState` is
    that generator, with its random words as a parameter. */
module PgraphState {
  import opened Bits

  type Idx2 = i: int | 0 <= i < 2
  type Idx3 = i: int | 0 <= i < 3
  type Idx14 = i: int | 0 <= i < 14
  type Idx18 = i: int | 0 <= i < 18

  type Words2 = s: seq<bv32> | |s| == 2 witness [0, 0]
  type Words3 = s: seq<bv32> | |s| == 3 witness [0, 0, 0]
  type Words14 = s: seq<bv32> | |s| == 14 witness seq(14, _ => 0)
  type Words18 = s: seq<bv32> | |s| == 18 witness seq(18, _ => 0)

  /** Interrupts, invalid-method status, the debug registers and the
      trap words. */
  datatype Control = Control(
    debug: Words3,
    intr: bv32,
    intrEn: bv32,
    invalid: bv32,
    invalidEn: bv32,
    status: bv32,
    trapAddr: bv32,
    trapData: bv32)

  /** The object context: CTX_SWITCH (the current object and its DMA
      word), CTX_CONTROL, NOTIFY and ACCESS. */
  datatype Context = Context(
    ctxSwitch: Words2,
    ctxControl: bv32,
    notify: bv32,
    access: bv32)

  /** The vertex buffer: 18 X and Y coordinates and 14 BETA factors. */
  datatype Vertex = Vertex(x: Words18, y: Words18, beta: Words14)

  /** The internal clip registers and the user clip rectangle. */
  datatype Clip = Clip(iclip: Words2, uclipMin: Words2, uclipMax: Words2)

  /** The pattern and the per-object drawing parameters: mono pattern
      colours and bitmap, pattern shape, bitmap colours, ROP, plane mask,
      chroma key and BETA. */
  datatype Pattern = Pattern(
    monoRgb: Words2,
    monoA: Words2,
    monoBitmap: Words2,
    config: bv32,
    bitmapColor: Words2,
    rop: bv32,
    plane: bv32,
    chroma: bv32,
    beta: bv32)

  /** The destination canvas and the clip rectangles. */
  datatype Canvas = Canvas(
    config: bv32,
    dstMin: bv32,
    dstMax: bv32,
    cliprectMin: Words2,
    cliprectMax: Words2,
    cliprectCtrl: bv32)

  /** The rasteriser's working state: XY_MISC words, vertex-valid flags,
      the 32-bit source colour, SUBDIVIDE and EDGEFILL. Registers the
      hardware has one of (VALID, XY_MISC_1, the source colour) are plain
      words. */
  datatype DrawState = DrawState(
    xyMisc0: bv32,
    xyMisc1: bv32,
    xyMisc4: Words2,
    valid: bv32,
    misc32: bv32,
    subdivide: bv32,
    edgefill: bv32)

  /** One snapshot of the engine's registers, plus the two memory
      controller words the tests save with it. */
  datatype State = State(
    ctl: Control,
    ctx: Context,
    vtx: Vertex,
    clip: Clip,
    pattern: Pattern,
    canvas: Canvas,
    draw: DrawState,
    pfbConfig: bv32,
    pfbBoot: bv32)

  /** Every bit of x outside mask m is clear. */
  predicate Within(x: bv32, m: bv32) {
    x & !m == 0
  }

  predicate PairWithin(p: Words2, m: bv32) {
    Within(p[0], m) && Within(p[1], m)
  }

  /** ACCESS as the generator leaves it: the four write-enable flags
      (bits 24-27) and bits 0, 4 and 8 set, the class in bits 12-16. */
  predicate AccessGenerated(a: bv32) {
    a & 0x0f00_0111 == 0x0f00_0111 && Within(a, 0x0f01_f111)
  }

  /** The control registers as the generator leaves them: interrupt and
      status words clear. */
  predicate ControlGenerated(c: Control) {
    && Within(c.debug[0], 0x1111_1110)
    && Within(c.debug[1], 0x3111_1101)
    && Within(c.debug[2], 0x1111_1111)
    && c.intr == 0
    && c.invalid == 0
    && Within(c.intrEn, 0x1111_1011)
    && Within(c.invalidEn, 0x0001_1111)
    && c.status == 0
  }

  /** The context registers as the generator leaves them: ACCESS with its
      enables set. */
  predicate ContextGenerated(c: Context) {
    && Within(c.ctxSwitch[0], 0x807f_ffff)
    && Within(c.ctxSwitch[1], 0xffff)
    && Within(c.ctxControl, 0x1101_0103)
    && Within(c.notify, 0x0011_ffff)
    && AccessGenerated(c.access)
  }

  predicate VertexGenerated(v: Vertex) {
    forall j: Idx14 :: Within(v.beta[j], 0x01ff_ffff)
  }

  predicate ClipGenerated(c: Clip) {
    PairWithin(c.iclip, 0x3_ffff) && PairWithin(c.uclipMin, 0x3_ffff) && PairWithin(c.uclipMax, 0x3_ffff)
  }

  predicate PatternGenerated(p: Pattern) {
    && PairWithin(p.monoRgb, 0x3fff_ffff)
    && PairWithin(p.monoA, 0xff)
    && PairWithin(p.bitmapColor, 0x7fff_ffff)
    && Within(p.config, 3)
    && Within(p.rop, 0xff)
    && Within(p.plane, 0x7fff_ffff)
    && Within(p.chroma, 0x7fff_ffff)
    && Within(p.beta, 0x7f80_0000)
  }

  predicate CanvasGenerated(c: Canvas) {
    && Within(c.config, 0x0111_1011)
    && Within(c.dstMax, 0x0fff_0fff)
    && PairWithin(c.cliprectMin, 0x0fff_0fff)
    && PairWithin(c.cliprectMax, 0x0fff_0fff)
    && Within(c.cliprectCtrl, 0x113)
  }

  predicate DrawGenerated(d: DrawState) {
    && Within(d.xyMisc0, 0xf1ff_11ff)
    && Within(d.xyMisc1, 0x0317_7331)
    && PairWithin(d.xyMisc4, 0x30ff_ffff)
    && Within(d.valid, 0x111f_f1ff)
    && Within(d.subdivide, 0xffff_00ff)
    && Within(d.edgefill, 0xffff_0113)
  }

  /** The states the generator can produce: every register within its
      generator mask, and PFB_CONFIG bit 0 clear. */
  predicate Generated(s: State) {
    && ControlGenerated(s.ctl)
    && ContextGenerated(s.ctx)
    && VertexGenerated(s.vtx)
    && ClipGenerated(s.clip)
    && PatternGenerated(s.pattern)
    && CanvasGenerated(s.canvas)
    && DrawGenerated(s.draw)
    && Within(s.pfbConfig, 0xffff_fffe)
  }

  /** The number of random words one generated state consumes. */
  const GenDraws: nat := 96

  /** The generator. The random words are consumed in the generator's
      order: DEBUG, INTR_EN, INVALID_EN, CTX_SWITCH[0], CTX_CONTROL, the
      interleaved VTX_X/VTX_Y pairs, VTX_BETA, the per-index clip and
      pattern registers, and so on to PFB_CONFIG; each is masked to its
      legal bits. `pfbLive` and `pfbBoot` are the two words read back from
      the memory controller. TRAP_ADDR and TRAP_DATA are not generated;
      they are 0 here. */
  function GenState(rand: seq<bv32>, pfbLive: bv32, pfbBoot: bv32): (s: State)
    requires |rand| == GenDraws
  {
    State(
      ctl := GenControl(rand),
      ctx := GenContext(rand),
      vtx := Vertex(
        x := Strided(rand, 7, 2, 18, 0xffff_ffff),
        y := Strided(rand, 8, 2, 18, 0xffff_ffff),
        beta := Strided(rand, 43, 1, 14, 0x01ff_ffff)),
      clip := Clip(
        iclip := DrawPair(rand, 57, 64, 0x3_ffff),
        uclipMin := DrawPair(rand, 58, 65, 0x3_ffff),
        uclipMax := DrawPair(rand, 59, 66, 0x3_ffff)),
      pattern := Pattern(
        monoRgb := DrawPair(rand, 60, 67, 0x3fff_ffff),
        monoA := DrawPair(rand, 61, 68, 0xff),
        monoBitmap := DrawPair(rand, 62, 69, 0xffff_ffff),
        config := rand[71] & 3,
        bitmapColor := DrawPair(rand, 63, 70, 0x7fff_ffff),
        rop := rand[72] & 0xff,
        plane := rand[73] & 0x7fff_ffff,
        chroma := rand[74] & 0x7fff_ffff,
        beta := rand[75] & 0x7f80_0000),
      canvas := Canvas(
        config := rand[76] & 0x0111_1011,
        dstMin := rand[87],
        dstMax := rand[88] & 0x0fff_0fff,
        cliprectMin := DrawPair(rand, 89, 90, 0x0fff_0fff),
        cliprectMax := DrawPair(rand, 91, 92, 0x0fff_0fff),
        cliprectCtrl := rand[93] & 0x113),
      draw := DrawState(
        xyMisc0 := rand[77] & 0xf1ff_11ff,
        xyMisc1 := rand[78] & 0x0317_7331,
        xyMisc4 := DrawPair(rand, 79, 80, 0x30ff_ffff),
        valid := rand[81] & 0x111f_f1ff,
        misc32 := rand[82],
        subdivide := rand[83] & 0xffff_00ff,
        edgefill := rand[84] & 0xffff_0113),
      pfbConfig := (rand[95] & 0x1370) | (pfbLive & 0xffff_ec8e),
      pfbBoot := pfbBoot)
  }

  /** The control registers the generator draws. */
  function GenControl(rand: seq<bv32>): (c: Control)
    requires |rand| == GenDraws
  {
    Control(
      debug := [rand[0] & 0x1111_1110, rand[1] & 0x3111_1101, rand[2] & 0x1111_1111],
      intr := 0,
      intrEn := rand[3] & 0x1111_1011,
      invalid := 0,
      invalidEn := rand[4] & 0x0001_1111,
      status := 0,
      trapAddr := 0,
      trapData := 0)
  }

  /** The context registers the generator draws. CTX_SWITCH[1] and NOTIFY
      are drawn late, after EDGEFILL, and ACCESS near the end. */
  function GenContext(rand: seq<bv32>): (c: Context)
    requires |rand| == GenDraws
  {
    Context(
      ctxSwitch := [rand[5] & 0x807f_ffff, rand[85] & 0xffff],
      ctxControl := rand[6] & 0x1101_0103,
      notify := rand[86] & 0x0011_ffff,
      access := (rand[94] & 0x0001_f000) | 0x0f00_0111)
  }

  /** The words drawn at positions i and j, masked: one register pair. */
  function DrawPair(rand: seq<bv32>, i: nat, j: nat, mask: bv32): (r: Words2)
    requires i < |rand| && j < |rand|
  {
    [rand[i] & mask, rand[j] & mask]
  }

  /** The n words drawn at positions start, start + step, ..., masked:
      the vertex arrays are drawn interleaved or in a run. */
  function Strided(rand: seq<bv32>, start: nat, step: nat, n: nat, mask: bv32): (r: seq<bv32>)
    requires n > 0 ==> start + step * (n - 1) < |rand|
    ensures |r| == n
  {
    seq(n, i requires 0 <= i < n => rand[start + step * i] & mask)
  }

  /** Whatever the random words, the generator's control and context
      registers are as ControlGenerated and ContextGenerated describe. */
  lemma GenControlGenerated(rand: seq<bv32>)
    requires |rand| == GenDraws
    ensures ControlGenerated(GenControl(rand))
    ensures ContextGenerated(GenContext(rand))
  {
  }

  /** Every state the generator produces is Generated, keeps PFB_BOOT as
      read, and takes PFB_CONFIG's bits outside 0x1371 from the live word. */
  lemma GenStateIsGenerated(rand: seq<bv32>, pfbLive: bv32, pfbBoot: bv32)
    requires |rand| == GenDraws
    ensures Generated(GenState(rand, pfbLive, pfbBoot))
    ensures GenState(rand, pfbLive, pfbBoot).pfbBoot == pfbBoot
    ensures GenState(rand, pfbLive, pfbBoot).pfbConfig & 0xffff_ec8e == pfbLive & 0xffff_ec8e
  {
    GenControlGenerated(rand);
  }
}
