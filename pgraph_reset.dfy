/** The PGRAPH soft reset, as the tests predict it: it clears the
    vertex-valid flags and the volatile rasteriser state, keeping a few
    bits, and leaves every other register alone. */
module PgraphReset {
  import opened PgraphState

  /** The expected state after a soft reset: only the rasteriser's working
      state changes. */
  function Reset(s: State): (r: State)
    ensures r == s.(draw := r.draw)
    ensures r.draw == s.draw.(valid := r.draw.valid, edgefill := r.draw.edgefill,
                              xyMisc0 := r.draw.xyMisc0, xyMisc1 := r.draw.xyMisc1,
                              xyMisc4 := r.draw.xyMisc4)
    ensures r.draw.valid == 0
    ensures r.draw.edgefill == s.draw.edgefill & 0xffff_0000
    ensures r.draw.xyMisc0 == s.draw.xyMisc0 & 0x1000
    ensures r.draw.xyMisc1 == s.draw.xyMisc1 & 0x0300_0000
    ensures r.draw.xyMisc4[0] == (s.draw.xyMisc4[0] & 0xff00_0000) | 0x0055_5500
    ensures r.draw.xyMisc4[1] == (s.draw.xyMisc4[1] & 0xff00_0000) | 0x0055_5500
  {
    s.(draw := ResetDraw(s.draw))
  }

  function ResetDraw(d: DrawState): DrawState
  {
    d.(valid := 0,
       edgefill := d.edgefill & 0xffff_0000,
       xyMisc0 := d.xyMisc0 & 0x1000,
       xyMisc1 := d.xyMisc1 & 0x0300_0000,
       xyMisc4 := [(d.xyMisc4[0] & 0xff00_0000) | 0x0055_5500, (d.xyMisc4[1] & 0xff00_0000) | 0x0055_5500])
  }

  /** A second soft reset changes nothing. */
  lemma ResetIdempotent(s: State)
    ensures Reset(Reset(s)) == Reset(s)
  {
  }

  /** A soft reset keeps every register within its generator mask. */
  lemma ResetKeepsGenerated(s: State)
    requires Generated(s)
    ensures Generated(Reset(s))
  {
  }
}
