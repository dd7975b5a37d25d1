/** The state comparator: the registers it checks, in the order it checks
    them, and the loop that sets the mismatch flag. TRAP_ADDR, TRAP_DATA
    and the two memory-controller words are saved with the state but never
    compared. */
module PgraphCompare {
  import opened PgraphState

  function ControlList(c: Control): (r: seq<bv32>)
    ensures |r| == 8
  {
    [c.status, c.debug[0], c.debug[1], c.debug[2], c.intr, c.intrEn, c.invalid, c.invalidEn]
  }

  /** CTX_SWITCH, NOTIFY and CTX_CONTROL; ACCESS is checked last of all. */
  function ContextList(x: Context): (r: seq<bv32>)
    ensures |r| == 4
  {
    [x.ctxSwitch[0], x.ctxSwitch[1], x.notify, x.ctxControl]
  }

  function ClipList(c: Clip): (r: seq<bv32>)
    ensures |r| == 6
  {
    [c.iclip[0], c.iclip[1], c.uclipMin[0], c.uclipMax[0], c.uclipMin[1], c.uclipMax[1]]
  }

  /** VTX_X[i] and VTX_Y[i] alternate, then the 14 BETA factors. */
  function VertexList(v: Vertex): (r: seq<bv32>)
    ensures |r| == 50
  {
    seq(36, k requires 0 <= k < 36 => if k % 2 == 0 then v.x[k / 2] else v.y[k / 2]) + v.beta
  }

  function DrawList(d: DrawState): (r: seq<bv32>)
    ensures |r| == 8
  {
    [d.xyMisc0, d.xyMisc1, d.xyMisc4[0], d.xyMisc4[1], d.valid, d.misc32, d.subdivide, d.edgefill]
  }

  function PatternList(p: Pattern): (r: seq<bv32>)
    ensures |r| == 13
  {
    [p.monoRgb[0], p.monoA[0], p.monoRgb[1], p.monoA[1], p.monoBitmap[0], p.monoBitmap[1],
     p.config, p.bitmapColor[0], p.bitmapColor[1], p.rop, p.beta, p.plane, p.chroma]
  }

  function CanvasList(k: Canvas): (r: seq<bv32>)
    ensures |r| == 8
  {
    [k.dstMin, k.dstMax, k.config, k.cliprectMin[0], k.cliprectMax[0],
     k.cliprectMin[1], k.cliprectMax[1], k.cliprectCtrl]
  }

  /** The registers between CTX_CONTROL and ACCESS: clip, vertex, draw,
      pattern and canvas groups, in that order. */
  function RestList(s: State): (r: seq<bv32>)
    ensures |r| == 85
  {
    ClipList(s.clip) + (VertexList(s.vtx) + (DrawList(s.draw) + (PatternList(s.pattern) + CanvasList(s.canvas))))
  }

  /** Every compared register of s, in the comparator's order. */
  function CompareList(s: State): (r: seq<bv32>)
    ensures |r| == 98
  {
    ControlList(s.ctl) + (ContextList(s.ctx) + (RestList(s) + [s.ctx.access]))
  }

  /** s with the registers the comparator skips cleared. */
  function Compared(s: State): State {
    s.(ctl := s.ctl.(trapAddr := 0, trapData := 0), pfbConfig := 0, pfbBoot := 0)
  }

  /** Walks two register lists of the same length in order and raises
      the mismatch flag at the first difference; a flag already raised by
      the caller stays raised. */
  method CompareWords(e: seq<bv32>, a: seq<bv32>, broke: bool) returns (r: bool)
    requires |e| == |a|
    ensures r <==> broke || e != a
  {
    r := broke;
    var i := 0;
    while i < |e|
      invariant 0 <= i <= |e|
      invariant r <==> broke || e[..i] != a[..i]
    {
      if e[i] != a[i] {
        r := true;
      }
      PrefixStep(e, a, i);
      i := i + 1;
    }
    assert e[..i] == e && a[..i] == a;
  }

  /** Compares the expected state with the state read back from the
      hardware, register by register in the comparator's order. */
  method CompareStates(exp: State, hw: State, broke: bool) returns (r: bool)
    ensures r <==> broke || Compared(exp) != Compared(hw)
  {
    r := CompareWords(CompareList(exp), CompareList(hw), broke);
    CompareListExact(exp, hw);
  }

  /** Two equal-length sequences agree on a longer prefix iff they agree
      on the shorter one and on the next element. */
  lemma PrefixStep(e: seq<bv32>, a: seq<bv32>, i: nat)
    requires i < |e| == |a|
    ensures e[..i + 1] == a[..i + 1] <==> e[..i] == a[..i] && e[i] == a[i]
  {
    if e[..i + 1] == a[..i + 1] {
      assert e[..i] == e[..i + 1][..i] && a[..i] == a[..i + 1][..i];
      assert e[i] == e[..i + 1][i] && a[i] == a[..i + 1][i];
    }
    if e[..i] == a[..i] && e[i] == a[i] {
      assert e[..i + 1] == e[..i] + [e[i]] && a[..i + 1] == a[..i] + [a[i]];
    }
  }

  /** Two concatenations whose left parts have equal lengths are equal iff
      both parts are. */
  lemma ConcatEq(a1: seq<bv32>, a2: seq<bv32>, b1: seq<bv32>, b2: seq<bv32>)
    requires |a1| == |b1|
    ensures a1 + a2 == b1 + b2 <==> a1 == b1 && a2 == b2
  {
    if a1 + a2 == b1 + b2 {
      assert a1 == (a1 + a2)[..|a1|] && b1 == (b1 + b2)[..|b1|];
      assert a2 == (a1 + a2)[|a1|..] && b2 == (b1 + b2)[|b1|..];
    }
  }

  lemma ControlListExact(a: Control, b: Control)
    ensures ControlList(a) == ControlList(b) <==> a.(trapAddr := 0, trapData := 0) == b.(trapAddr := 0, trapData := 0)
  {
    if ControlList(a) == ControlList(b) {
      assert ControlList(a)[1] == ControlList(b)[1];
      assert ControlList(a)[2] == ControlList(b)[2];
      assert ControlList(a)[3] == ControlList(b)[3];
      assert a.debug == b.debug;
    }
  }

  lemma ContextListExact(a: Context, b: Context)
    ensures ContextList(a) == ContextList(b) && a.access == b.access <==> a == b
  {
    if ContextList(a) == ContextList(b) {
      assert ContextList(a)[0] == ContextList(b)[0];
      assert ContextList(a)[1] == ContextList(b)[1];
      assert a.ctxSwitch == b.ctxSwitch;
    }
  }

  lemma ClipListExact(a: Clip, b: Clip)
    ensures ClipList(a) == ClipList(b) <==> a == b
  {
    if ClipList(a) == ClipList(b) {
      assert ClipList(a)[0] == ClipList(b)[0] && ClipList(a)[1] == ClipList(b)[1];
      assert ClipList(a)[2] == ClipList(b)[2] && ClipList(a)[4] == ClipList(b)[4];
      assert ClipList(a)[3] == ClipList(b)[3] && ClipList(a)[5] == ClipList(b)[5];
      assert a.iclip == b.iclip && a.uclipMin == b.uclipMin && a.uclipMax == b.uclipMax;
    }
  }

  lemma VertexListExact(a: Vertex, b: Vertex)
    ensures VertexList(a) == VertexList(b) <==> a == b
  {
    if VertexList(a) == VertexList(b) {
      var ia := seq(36, k requires 0 <= k < 36 => if k % 2 == 0 then a.x[k / 2] else a.y[k / 2]);
      var ib := seq(36, k requires 0 <= k < 36 => if k % 2 == 0 then b.x[k / 2] else b.y[k / 2]);
      ConcatEq(ia, a.beta, ib, b.beta);
      forall i: Idx18
        ensures a.x[i] == b.x[i] && a.y[i] == b.y[i]
      {
        assert ia[2 * i] == ib[2 * i];
        assert ia[2 * i + 1] == ib[2 * i + 1];
      }
      assert a.x == b.x && a.y == b.y;
    }
  }

  lemma DrawListExact(a: DrawState, b: DrawState)
    ensures DrawList(a) == DrawList(b) <==> a == b
  {
    if DrawList(a) == DrawList(b) {
      assert DrawList(a)[2] == DrawList(b)[2] && DrawList(a)[3] == DrawList(b)[3];
      assert a.xyMisc4 == b.xyMisc4;
    }
  }

  lemma PatternListExact(a: Pattern, b: Pattern)
    ensures PatternList(a) == PatternList(b) <==> a == b
  {
    if PatternList(a) == PatternList(b) {
      assert PatternList(a)[0] == PatternList(b)[0] && PatternList(a)[2] == PatternList(b)[2];
      assert PatternList(a)[1] == PatternList(b)[1] && PatternList(a)[3] == PatternList(b)[3];
      assert PatternList(a)[4] == PatternList(b)[4] && PatternList(a)[5] == PatternList(b)[5];
      assert PatternList(a)[7] == PatternList(b)[7] && PatternList(a)[8] == PatternList(b)[8];
      assert a.monoRgb == b.monoRgb && a.monoA == b.monoA;
      assert a.monoBitmap == b.monoBitmap && a.bitmapColor == b.bitmapColor;
    }
  }

  lemma CanvasListExact(a: Canvas, b: Canvas)
    ensures CanvasList(a) == CanvasList(b) <==> a == b
  {
    if CanvasList(a) == CanvasList(b) {
      assert CanvasList(a)[3] == CanvasList(b)[3] && CanvasList(a)[5] == CanvasList(b)[5];
      assert CanvasList(a)[4] == CanvasList(b)[4] && CanvasList(a)[6] == CanvasList(b)[6];
      assert a.cliprectMin == b.cliprectMin && a.cliprectMax == b.cliprectMax;
    }
  }

  /** The comparator sees every register it is meant to see and nothing
      else: two states give the same compared list iff they agree on every
      register but TRAP_ADDR, TRAP_DATA and the memory-controller words. */
  lemma CompareListExact(a: State, b: State)
    ensures CompareList(a) == CompareList(b) <==> Compared(a) == Compared(b)
  {
    if CompareList(a) == CompareList(b) {
      ListsDetermine(a, b);
    }
    if Compared(a) == Compared(b) {
      ControlListExact(a.ctl, b.ctl);
      assert a.ctl.(trapAddr := 0, trapData := 0) == b.ctl.(trapAddr := 0, trapData := 0);
    }
  }

  lemma ListsDetermine(a: State, b: State)
    requires CompareList(a) == CompareList(b)
    ensures Compared(a) == Compared(b)
  {
    var ra, rb := RestList(a) + [a.ctx.access], RestList(b) + [b.ctx.access];
    ConcatEq(ControlList(a.ctl), ContextList(a.ctx) + ra, ControlList(b.ctl), ContextList(b.ctx) + rb);
    ConcatEq(ContextList(a.ctx), ra, ContextList(b.ctx), rb);
    ConcatEq(RestList(a), [a.ctx.access], RestList(b), [b.ctx.access]);
    assert [a.ctx.access][0] == [b.ctx.access][0];
    ControlListExact(a.ctl, b.ctl);
    ContextListExact(a.ctx, b.ctx);
    RestListExact(a, b);
  }

  lemma RestListExact(a: State, b: State)
    requires RestList(a) == RestList(b)
    ensures a.clip == b.clip && a.vtx == b.vtx && a.draw == b.draw && a.pattern == b.pattern && a.canvas == b.canvas
  {
    var c1, c2 := ClipList(a.clip), ClipList(b.clip);
    var v1, v2 := VertexList(a.vtx), VertexList(b.vtx);
    var d1, d2 := DrawList(a.draw), DrawList(b.draw);
    var p1, p2 := PatternList(a.pattern), PatternList(b.pattern);
    var k1, k2 := CanvasList(a.canvas), CanvasList(b.canvas);
    ConcatEq(c1, v1 + (d1 + (p1 + k1)), c2, v2 + (d2 + (p2 + k2)));
    ConcatEq(v1, d1 + (p1 + k1), v2, d2 + (p2 + k2));
    ConcatEq(d1, p1 + k1, d2, p2 + k2);
    ConcatEq(p1, k1, p2, k2);
    ClipListExact(a.clip, b.clip);
    VertexListExact(a.vtx, b.vtx);
    DrawListExact(a.draw, b.draw);
    PatternListExact(a.pattern, b.pattern);
    CanvasListExact(a.canvas, b.canvas);
  }
}
