/** `MultistreamConv2dPostFilter`: the mel-cepstrum stream is cut into a low, a
    mid and a high band that overlap by the kernel's reach, each band is
    post-filtered by its own `_PadConv2dPostFilter` with the same frame-wise
    noise, and the three outputs are concatenated again. */
module BandPostFilter {
  import opened Errors
  import opened Frames
  import opened ConvShapes
  import opened Learned
  import opened PadPostFilter

  /** Band sizes s0, s1, s2 (`stream_sizes`), and what the three band filters
      share: channel count, kernel extent and the noise scale. */
  datatype BandsConfig = BandsConfig(s0: nat, s1: nat, s2: nat, channels: nat, k: Extent, scale: real)
  {
    /** `self.padding`, the overlap each band reaches into its neighbours. */
    function Reach(): nat { Half(k) }

    function Low(): PadConfig { PadConfig(s0 + Reach(), channels, k, Left) }
    function Mid(): PadConfig { PadConfig(s1 + 2 * Reach(), channels, k, Neither) }
    function High(): PadConfig { PadConfig(s2 + Reach(), channels, k, Right) }
  }

  /** `MultistreamConv2dPostFilter.__init__`: exactly three bands, each band
      filter built for its band plus the overlap it reaches into. */
  function NewBands(channels: nat, k: Extent, scale: real, sizes: seq<nat>): (r: Result<BandsConfig>)
    ensures r.Ok? <==> |sizes| == 3
    ensures |sizes| != 3 ==> r == Err(Failed(ThreeBands))
    ensures r.Ok? ==> [r.value.s0, r.value.s1, r.value.s2] == sizes && r.value.k == k
    ensures r.Ok? ==> r.value.channels == channels && r.value.scale == scale
    ensures r.Ok? ==> && NewPadFilter(Some(sizes[0] + Half(k)), channels, k, "left") == Ok(r.value.Low())
                      && NewPadFilter(Some(sizes[1] + 2 * Half(k)), channels, k, "none") == Ok(r.value.Mid())
                      && NewPadFilter(Some(sizes[2] + Half(k)), channels, k, "right") == Ok(r.value.High())
  {
    if |sizes| != 3 then Err(Failed(ThreeBands))
    else
      Ok(BandsConfig(sizes[0], sizes[1], sizes[2], channels, k, scale))
  }

  /** The band inputs: `x[:, :, : s0 + p]`, `x[:, :, s0 - p : s0 + s1 + p]` and
      `x[:, :, s0 + s1 - p :]`. */
  function LowSlice(cfg: BandsConfig, x: Frames<real>): Frames<real>
  {
    Slice(x, 0, cfg.s0 + cfg.Reach())
  }

  function MidSlice(cfg: BandsConfig, x: Frames<real>): Frames<real>
  {
    Slice(x, cfg.s0 - cfg.Reach(), cfg.s0 + cfg.s1 + cfg.Reach())
  }

  function HighSlice(cfg: BandsConfig, x: Frames<real>): Frames<real>
  {
    Slice(x, cfg.s0 + cfg.s1 - cfg.Reach(), x.width)
  }

  /** `MultistreamConv2dPostFilter.forward`, with the three band filters'
      learned stacks `lo`, `mid` and `hi`. */
  function BandsForward(cfg: BandsConfig, lo: Residual, mid: Residual, hi: Residual, noise: Noise,
                        x: Frames<real>): (r: Result<Frames<real>>)
    ensures x.width != cfg.s0 + cfg.s1 + cfg.s2 ==> r == Err(Failed(WidthIsBandSum))
    ensures r.Ok? ==> |r.value.rows| == |x.rows|
  {
    if x.width != cfg.s0 + cfg.s1 + cfg.s2 then Err(Failed(WidthIsBandSum))
    else
      var z := FrameNoise(noise, |x.rows|, cfg.scale);
      var out1 :- PadForward(cfg.Low(), lo, LowSlice(cfg, x), z);
      var out2 :- PadForward(cfg.Mid(), mid, MidSlice(cfg, x), z);
      var out3 :- PadForward(cfg.High(), hi, HighSlice(cfg, x), z);
      CatAll([out1, out2, out3])
  }

  /** Exactly the inputs the three-band filter runs on: the width is the sum
      of the bands, the kernel is odd with a reach of at least one and fewer
      than T frames, every band is at least two bins wide, and the outer
      bands are at least as wide as the reach (so the mid band's overlap
      neither starts before bin 0 nor ends past the last bin). */
  predicate BandsAccept(cfg: BandsConfig, frames: nat, width: nat)
  {
    var p := cfg.Reach();
    && width == cfg.s0 + cfg.s1 + cfg.s2
    && cfg.k == 2 * p + 1 && 1 <= p < frames
    && p <= cfg.s0 && p <= cfg.s2
    && 2 <= cfg.s0 && 2 <= cfg.s1 && 2 <= cfg.s2
  }

  /** The mid band's slice has the width its filter needs exactly when the
      overlap stays inside the stream. */
  lemma MidSliceWidth(s0: nat, s1: nat, s2: nat, p: nat)
    ensures SliceWidth(s0 + s1 + s2, s0 - p, s0 + s1 + p) == s1 + 2 * p <==> p <= s0 && p <= s2
  {
  }

  /** What each band filter demands of its slice of a stream as wide as the
      three bands together. */
  lemma LowBand(cfg: BandsConfig, frames: nat)
    ensures var p, w := cfg.Reach(), cfg.s0 + cfg.s1 + cfg.s2;
            Accepts(cfg.Low(), frames, SliceWidth(w, 0, cfg.s0 + p), frames, 1)
            <==> cfg.k == 2 * p + 1 && 1 <= p < frames && 2 <= cfg.s0 && p <= cfg.s1 + cfg.s2
    ensures var p, w := cfg.Reach(), cfg.s0 + cfg.s1 + cfg.s2;
            p <= cfg.s1 + cfg.s2 ==> SliceWidth(w, 0, cfg.s0 + p) - Trimmed(Left, p) == cfg.s0
  {
  }

  lemma MidBand(cfg: BandsConfig, frames: nat)
    ensures var p, w := cfg.Reach(), cfg.s0 + cfg.s1 + cfg.s2;
            Accepts(cfg.Mid(), frames, SliceWidth(w, cfg.s0 - p, cfg.s0 + cfg.s1 + p), frames, 1)
            <==> cfg.k == 2 * p + 1 && 1 <= p < frames && 2 <= cfg.s1 && p <= cfg.s0 && p <= cfg.s2
    ensures var p, w := cfg.Reach(), cfg.s0 + cfg.s1 + cfg.s2;
            p <= cfg.s0 && p <= cfg.s2 ==> SliceWidth(w, cfg.s0 - p, cfg.s0 + cfg.s1 + p) - Trimmed(Neither, p) == cfg.s1
  {
    if 1 <= cfg.Reach() {
      MidSliceWidth(cfg.s0, cfg.s1, cfg.s2, cfg.Reach());
    }
  }

  lemma HighBand(cfg: BandsConfig, frames: nat)
    requires cfg.Reach() <= cfg.s0
    ensures var p, w := cfg.Reach(), cfg.s0 + cfg.s1 + cfg.s2;
            Accepts(cfg.High(), frames, SliceWidth(w, cfg.s0 + cfg.s1 - p, w), frames, 1)
            <==> cfg.k == 2 * p + 1 && p < frames && 2 <= cfg.s2
    ensures var p, w := cfg.Reach(), cfg.s0 + cfg.s1 + cfg.s2;
            SliceWidth(w, cfg.s0 + cfg.s1 - p, w) - Trimmed(Right, p) == cfg.s2
  {
  }

  /** Each band filter, run on its slice of a stream as wide as the three
      bands together, runs exactly under the conditions on its own band. */
  lemma LowRuns(cfg: BandsConfig, lo: Residual, z: Frames<real>, x: Frames<real>)
    requires x.width == cfg.s0 + cfg.s1 + cfg.s2 && z.width == 1 && |z.rows| == |x.rows|
    ensures var p := cfg.Reach();
            PadForward(cfg.Low(), lo, LowSlice(cfg, x), z).Ok?
            <==> cfg.k == 2 * p + 1 && 1 <= p < |x.rows| && 2 <= cfg.s0 && p <= cfg.s1 + cfg.s2
  {
    LowBand(cfg, |x.rows|);
  }

  lemma MidRuns(cfg: BandsConfig, mid: Residual, z: Frames<real>, x: Frames<real>)
    requires x.width == cfg.s0 + cfg.s1 + cfg.s2 && z.width == 1 && |z.rows| == |x.rows|
    ensures var p := cfg.Reach();
            PadForward(cfg.Mid(), mid, MidSlice(cfg, x), z).Ok?
            <==> cfg.k == 2 * p + 1 && 1 <= p < |x.rows| && 2 <= cfg.s1 && p <= cfg.s0 && p <= cfg.s2
  {
    MidBand(cfg, |x.rows|);
  }

  lemma HighRuns(cfg: BandsConfig, hi: Residual, z: Frames<real>, x: Frames<real>)
    requires x.width == cfg.s0 + cfg.s1 + cfg.s2 && z.width == 1 && |z.rows| == |x.rows|
    requires cfg.Reach() <= cfg.s0
    ensures var p := cfg.Reach();
            PadForward(cfg.High(), hi, HighSlice(cfg, x), z).Ok?
            <==> cfg.k == 2 * p + 1 && p < |x.rows| && 2 <= cfg.s2
  {
    HighBand(cfg, |x.rows|);
  }

  /** The three band filters all run exactly on accepted streams. */
  lemma BandsAcceptedByEach(cfg: BandsConfig, lo: Residual, mid: Residual, hi: Residual,
                            z: Frames<real>, x: Frames<real>)
    requires x.width == cfg.s0 + cfg.s1 + cfg.s2 && z.width == 1 && |z.rows| == |x.rows|
    ensures && PadForward(cfg.Low(), lo, LowSlice(cfg, x), z).Ok?
            && PadForward(cfg.Mid(), mid, MidSlice(cfg, x), z).Ok?
            && PadForward(cfg.High(), hi, HighSlice(cfg, x), z).Ok?
            <==> BandsAccept(cfg, |x.rows|, x.width)
  {
    LowRuns(cfg, lo, z, x);
    MidRuns(cfg, mid, z, x);
    if cfg.Reach() <= cfg.s0 {
      HighRuns(cfg, hi, z, x);
    }
  }

  /** On an accepted stream the band filters return s0, s1 and s2 bins. */
  lemma LowOutputWidth(cfg: BandsConfig, lo: Residual, z: Frames<real>, x: Frames<real>)
    requires BandsAccept(cfg, |x.rows|, x.width) && z.width == 1 && |z.rows| == |x.rows|
    ensures PadForward(cfg.Low(), lo, LowSlice(cfg, x), z).Ok?
    ensures PadForward(cfg.Low(), lo, LowSlice(cfg, x), z).value.width == cfg.s0
  {
    LowBand(cfg, |x.rows|);
  }

  lemma MidOutputWidth(cfg: BandsConfig, mid: Residual, z: Frames<real>, x: Frames<real>)
    requires BandsAccept(cfg, |x.rows|, x.width) && z.width == 1 && |z.rows| == |x.rows|
    ensures PadForward(cfg.Mid(), mid, MidSlice(cfg, x), z).Ok?
    ensures PadForward(cfg.Mid(), mid, MidSlice(cfg, x), z).value.width == cfg.s1
  {
    MidBand(cfg, |x.rows|);
  }

  lemma HighOutputWidth(cfg: BandsConfig, hi: Residual, z: Frames<real>, x: Frames<real>)
    requires BandsAccept(cfg, |x.rows|, x.width) && z.width == 1 && |z.rows| == |x.rows|
    ensures PadForward(cfg.High(), hi, HighSlice(cfg, x), z).Ok?
    ensures PadForward(cfg.High(), hi, HighSlice(cfg, x), z).value.width == cfg.s2
  {
    HighBand(cfg, |x.rows|);
  }

  /** The three-band filter runs exactly on accepted streams. */
  lemma {:induction false} BandsForwardSpec(cfg: BandsConfig, lo: Residual, mid: Residual, hi: Residual,
                                            noise: Noise, x: Frames<real>)
    ensures BandsForward(cfg, lo, mid, hi, noise, x).Ok? <==> BandsAccept(cfg, |x.rows|, x.width)
    ensures BandsForward(cfg, lo, mid, hi, noise, x).Ok? ==>
              && BandsForward(cfg, lo, mid, hi, noise, x).value.width == x.width
              && |BandsForward(cfg, lo, mid, hi, noise, x).value.rows| == |x.rows|
  {
    var T, W := |x.rows|, x.width;
    if W == cfg.s0 + cfg.s1 + cfg.s2 {
      var z := FrameNoise(noise, T, cfg.scale);
      BandsAcceptedByEach(cfg, lo, mid, hi, z, x);
      if BandsAccept(cfg, T, W) {
        LowOutputWidth(cfg, lo, z, x);
        MidOutputWidth(cfg, mid, z, x);
        HighOutputWidth(cfg, hi, z, x);
      }
      var r1 := PadForward(cfg.Low(), lo, LowSlice(cfg, x), z);
      var r2 := PadForward(cfg.Mid(), mid, MidSlice(cfg, x), z);
      var r3 := PadForward(cfg.High(), hi, HighSlice(cfg, x), z);
      if r1.Ok? && r2.Ok? && r3.Ok? {
        assert BandsForward(cfg, lo, mid, hi, noise, x) == CatAll([r1.value, r2.value, r3.value]);
        CatAll3(r1.value, r2.value, r3.value);
      }
    }
  }

  /** The learned residual the band owning channel c contributes there: the
      band's own learned stack, on that band's input xs1, xs2 or xs3, at the
      channel's position inside the band. */
  function BandResidual(cfg: BandsConfig, lo: Residual, mid: Residual, hi: Residual,
                        xs1: Frames<real>, xs2: Frames<real>, xs3: Frames<real>, z: Frames<real>,
                        t: nat, c: nat): real
  {
    if c < cfg.s0 then lo(xs1, Some(z), t, c)
    else if c < cfg.s0 + cfg.s1 then mid(xs2, Some(z), t, c - cfg.s0)
    else hi(xs3, Some(z), t, c - cfg.s0 - cfg.s1)
  }

  /** What a band filter's output is cell by cell: over the same frames as its
      input xs, bin c is input bin `TrimStart + c` plus the residual. */
  ghost predicate BandOut(pc: PadConfig, net: Residual, xs: Frames<real>, z: Frames<real>, out: Frames<real>)
  {
    && |out.rows| == |xs.rows|
    && forall t, c {:trigger out.rows[t][c]} | 0 <= t < |xs.rows| && 0 <= c < out.width ::
         TrimStart(pc.side, Half(pc.k)) + c < xs.width &&
         out.rows[t][c] == xs.rows[t][TrimStart(pc.side, Half(pc.k)) + c] + net(xs, Some(z), t, c)
  }

  /** A band filter that runs produces such an output. */
  lemma PadBandOut(pc: PadConfig, net: Residual, xs: Frames<real>, z: Frames<real>)
    requires PadForward(pc, net, xs, z).Ok?
    ensures BandOut(pc, net, xs, z, PadForward(pc, net, xs, z).value)
  {
  }

  /** Where each channel of x sits in the band inputs: a low-band channel c
      at c in xs1 (s0 + p bins), a mid-band one at `c - s0 + p` in xs2
      (s1 + 2p bins), a high-band one at `c - s0 - s1 + p` in xs3 (s2 + p
      bins). */
  predicate LowAligned(cfg: BandsConfig, x: Frames<real>, xs1: Frames<real>)
  {
    && |xs1.rows| == |x.rows| && xs1.width == cfg.s0 + cfg.Reach() && cfg.s0 <= x.width
    && forall t, c | 0 <= t < |x.rows| && 0 <= c < cfg.s0 :: xs1.rows[t][c] == x.rows[t][c]
  }

  predicate MidAligned(cfg: BandsConfig, x: Frames<real>, xs2: Frames<real>)
  {
    && |xs2.rows| == |x.rows| && xs2.width == cfg.s1 + 2 * cfg.Reach()
    && cfg.s0 + cfg.s1 <= x.width
    && forall t, c | 0 <= t < |x.rows| && cfg.s0 <= c < cfg.s0 + cfg.s1 ::
         xs2.rows[t][c - cfg.s0 + cfg.Reach()] == x.rows[t][c]
  }

  predicate HighAligned(cfg: BandsConfig, x: Frames<real>, xs3: Frames<real>)
  {
    && |xs3.rows| == |x.rows| && xs3.width == cfg.s2 + cfg.Reach()
    && x.width == cfg.s0 + cfg.s1 + cfg.s2
    && forall t, c | 0 <= t < |x.rows| && cfg.s0 + cfg.s1 <= c < x.width ::
         xs3.rows[t][c - cfg.s0 - cfg.s1 + cfg.Reach()] == x.rows[t][c]
  }

  /** The overlapping slices of an accepted stream are aligned so. */
  lemma LowSliceAligned(cfg: BandsConfig, x: Frames<real>)
    requires BandsAccept(cfg, |x.rows|, x.width)
    ensures LowAligned(cfg, x, LowSlice(cfg, x))
  {
    SliceWithin(x, 0, cfg.s0 + cfg.Reach());
  }

  lemma MidSliceAligned(cfg: BandsConfig, x: Frames<real>)
    requires BandsAccept(cfg, |x.rows|, x.width)
    ensures MidAligned(cfg, x, MidSlice(cfg, x))
  {
    var p := cfg.Reach();
    SliceWithin(x, cfg.s0 - p, cfg.s0 + cfg.s1 + p);
  }

  lemma HighSliceAligned(cfg: BandsConfig, x: Frames<real>)
    requires BandsAccept(cfg, |x.rows|, x.width)
    ensures HighAligned(cfg, x, HighSlice(cfg, x))
  {
    SliceWithin(x, cfg.s0 + cfg.s1 - cfg.Reach(), x.width);
  }

  predicate BandsShaped(cfg: BandsConfig, x: Frames<real>, out1: Frames<real>, out2: Frames<real>, out3: Frames<real>)
  {
    && |out1.rows| == |x.rows| && |out2.rows| == |x.rows| && |out3.rows| == |x.rows|
    && out1.width == cfg.s0 && out2.width == cfg.s1 && out3.width == cfg.s2
  }

  /** A channel owned by the low band, traced through its filter and the
      concatenation of the band outputs. */
  lemma LowCell(cfg: BandsConfig, lo: Residual, z: Frames<real>, x: Frames<real>, xs: Frames<real>,
                out1: Frames<real>, out2: Frames<real>, out3: Frames<real>, t: nat, c: nat)
    requires BandsAccept(cfg, |x.rows|, x.width) && BandsShaped(cfg, x, out1, out2, out3)
    requires BandOut(cfg.Low(), lo, xs, z, out1) && |xs.rows| == |x.rows|
    requires t < |x.rows| && c < cfg.s0
    requires c < xs.width && xs.rows[t][c] == x.rows[t][c]
    ensures CatAll([out1, out2, out3]).Ok?
    ensures t < |CatAll([out1, out2, out3]).value.rows| && c < CatAll([out1, out2, out3]).value.width
    ensures CatAll([out1, out2, out3]).value.rows[t][c] == x.rows[t][c] + lo(xs, Some(z), t, c)
  {
    CatAll3Cell(out1, out2, out3, t, c);
    assert TrimStart(cfg.Low().side, Half(cfg.Low().k)) == 0;
    assert out1.rows[t][c] == xs.rows[t][0 + c] + lo(xs, Some(z), t, c);
  }

  /** A channel owned by the mid band, traced likewise. */
  lemma MidCell(cfg: BandsConfig, mid: Residual, z: Frames<real>, x: Frames<real>, xs: Frames<real>,
                out1: Frames<real>, out2: Frames<real>, out3: Frames<real>, t: nat, c: nat)
    requires BandsAccept(cfg, |x.rows|, x.width) && BandsShaped(cfg, x, out1, out2, out3)
    requires BandOut(cfg.Mid(), mid, xs, z, out2) && |xs.rows| == |x.rows|
    requires t < |x.rows| && cfg.s0 <= c < cfg.s0 + cfg.s1
    requires c - cfg.s0 + cfg.Reach() < xs.width && xs.rows[t][c - cfg.s0 + cfg.Reach()] == x.rows[t][c]
    ensures CatAll([out1, out2, out3]).Ok?
    ensures t < |CatAll([out1, out2, out3]).value.rows| && c < CatAll([out1, out2, out3]).value.width
    ensures CatAll([out1, out2, out3]).value.rows[t][c] == x.rows[t][c] + mid(xs, Some(z), t, c - cfg.s0)
  {
    CatAll3Cell(out1, out2, out3, t, c);
    var p, j := cfg.Reach(), c - cfg.s0;
    assert TrimStart(cfg.Mid().side, Half(cfg.Mid().k)) == p;
    assert out2.rows[t][j] == xs.rows[t][p + j] + mid(xs, Some(z), t, j);
  }

  /** A channel owned by the high band, traced likewise. */
  lemma HighCell(cfg: BandsConfig, hi: Residual, z: Frames<real>, x: Frames<real>, xs: Frames<real>,
                 out1: Frames<real>, out2: Frames<real>, out3: Frames<real>, t: nat, c: nat)
    requires BandsAccept(cfg, |x.rows|, x.width) && BandsShaped(cfg, x, out1, out2, out3)
    requires BandOut(cfg.High(), hi, xs, z, out3) && |xs.rows| == |x.rows|
    requires t < |x.rows| && cfg.s0 + cfg.s1 <= c < x.width
    requires c - cfg.s0 - cfg.s1 + cfg.Reach() < xs.width
             && xs.rows[t][c - cfg.s0 - cfg.s1 + cfg.Reach()] == x.rows[t][c]
    ensures CatAll([out1, out2, out3]).Ok?
    ensures t < |CatAll([out1, out2, out3]).value.rows| && c < CatAll([out1, out2, out3]).value.width
    ensures CatAll([out1, out2, out3]).value.rows[t][c]
            == x.rows[t][c] + hi(xs, Some(z), t, c - cfg.s0 - cfg.s1)
  {
    CatAll3Cell(out1, out2, out3, t, c);
    var p, j := cfg.Reach(), c - cfg.s0 - cfg.s1;
    assert TrimStart(cfg.High().side, Half(cfg.High().k)) == p;
    assert out3.rows[t][j] == xs.rows[t][p + j] + hi(xs, Some(z), t, j);
  }

  /** The run of a three-band filter on an accepted stream, band by band. */
  lemma BandsOutputs(cfg: BandsConfig, lo: Residual, mid: Residual, hi: Residual, noise: Noise, x: Frames<real>)
    requires BandsForward(cfg, lo, mid, hi, noise, x).Ok?
    ensures var z := FrameNoise(noise, |x.rows|, cfg.scale);
            && PadForward(cfg.Low(), lo, LowSlice(cfg, x), z).Ok?
            && PadForward(cfg.Mid(), mid, MidSlice(cfg, x), z).Ok?
            && PadForward(cfg.High(), hi, HighSlice(cfg, x), z).Ok?
            && BandsForward(cfg, lo, mid, hi, noise, x)
               == CatAll([PadForward(cfg.Low(), lo, LowSlice(cfg, x), z).value,
                          PadForward(cfg.Mid(), mid, MidSlice(cfg, x), z).value,
                          PadForward(cfg.High(), hi, HighSlice(cfg, x), z).value])
  {
  }

  /** One cell of the concatenated band outputs on an accepted stream: the
      input cell plus the residual of the band that owns the channel. */
  lemma BandsCellOf(cfg: BandsConfig, lo: Residual, mid: Residual, hi: Residual, z: Frames<real>, x: Frames<real>,
                    xs1: Frames<real>, xs2: Frames<real>, xs3: Frames<real>,
                    out1: Frames<real>, out2: Frames<real>, out3: Frames<real>, t: nat, c: nat)
    requires BandsAccept(cfg, |x.rows|, x.width) && BandsShaped(cfg, x, out1, out2, out3)
    requires LowAligned(cfg, x, xs1) && MidAligned(cfg, x, xs2) && HighAligned(cfg, x, xs3)
    requires BandOut(cfg.Low(), lo, xs1, z, out1)
    requires BandOut(cfg.Mid(), mid, xs2, z, out2)
    requires BandOut(cfg.High(), hi, xs3, z, out3)
    requires t < |x.rows| && c < x.width
    ensures CatAll([out1, out2, out3]).Ok?
    ensures t < |CatAll([out1, out2, out3]).value.rows| && c < CatAll([out1, out2, out3]).value.width
    ensures CatAll([out1, out2, out3]).value.rows[t][c]
            == x.rows[t][c] + BandResidual(cfg, lo, mid, hi, xs1, xs2, xs3, z, t, c)
  {
    if c < cfg.s0 {
      LowCell(cfg, lo, z, x, xs1, out1, out2, out3, t, c);
    } else if c < cfg.s0 + cfg.s1 {
      MidCell(cfg, mid, z, x, xs2, out1, out2, out3, t, c);
    } else {
      HighCell(cfg, hi, z, x, xs3, out1, out2, out3, t, c);
    }
  }

  /** The overlaps are exactly undone: every output channel is the input
      channel at the same position plus the residual of the one band that
      owns it, so no channel is duplicated, dropped or shifted. */
  lemma BandsAlignment(cfg: BandsConfig, lo: Residual, mid: Residual, hi: Residual, noise: Noise, x: Frames<real>)
    requires BandsForward(cfg, lo, mid, hi, noise, x).Ok?
    ensures |BandsForward(cfg, lo, mid, hi, noise, x).value.rows| == |x.rows|
    ensures BandsForward(cfg, lo, mid, hi, noise, x).value.width == x.width
    ensures forall t, c | 0 <= t < |x.rows| && 0 <= c < x.width ::
              BandsForward(cfg, lo, mid, hi, noise, x).value.rows[t][c]
              == x.rows[t][c] + BandResidual(cfg, lo, mid, hi, LowSlice(cfg, x), MidSlice(cfg, x), HighSlice(cfg, x),
                                             FrameNoise(noise, |x.rows|, cfg.scale), t, c)
  {
    BandsForwardSpec(cfg, lo, mid, hi, noise, x);
    BandsOutputs(cfg, lo, mid, hi, noise, x);
    var z := FrameNoise(noise, |x.rows|, cfg.scale);
    var xs1, xs2, xs3 := LowSlice(cfg, x), MidSlice(cfg, x), HighSlice(cfg, x);
    LowOutputWidth(cfg, lo, z, x);
    MidOutputWidth(cfg, mid, z, x);
    HighOutputWidth(cfg, hi, z, x);
    LowSliceAligned(cfg, x);
    MidSliceAligned(cfg, x);
    HighSliceAligned(cfg, x);
    var out1 := PadForward(cfg.Low(), lo, xs1, z).value;
    var out2 := PadForward(cfg.Mid(), mid, xs2, z).value;
    var out3 := PadForward(cfg.High(), hi, xs3, z).value;
    PadBandOut(cfg.Low(), lo, xs1, z);
    PadBandOut(cfg.Mid(), mid, xs2, z);
    PadBandOut(cfg.High(), hi, xs3, z);
    assert BandsShaped(cfg, x, out1, out2, out3);
    forall t, c | 0 <= t < |x.rows| && 0 <= c < x.width
      ensures BandsForward(cfg, lo, mid, hi, noise, x).value.rows[t][c]
              == x.rows[t][c] + BandResidual(cfg, lo, mid, hi, xs1, xs2, xs3, z, t, c)
    {
      BandsCellOf(cfg, lo, mid, hi, z, x, xs1, xs2, xs3, out1, out2, out3, t, c);
    }
  }

  /** Three band filters whose learned stacks contribute nothing give back
      the stream they are run on: the overlaps are cropped away exactly. */
  lemma BandsZeroResidualIsIdentity(cfg: BandsConfig, lo: Residual, mid: Residual, hi: Residual,
                                    noise: Noise, x: Frames<real>)
    requires IsZero(lo) && IsZero(mid) && IsZero(hi)
    requires BandsAccept(cfg, |x.rows|, x.width)
    ensures BandsForward(cfg, lo, mid, hi, noise, x) == Ok(x)
  {
    var xs1, xs2, xs3 := LowSlice(cfg, x), MidSlice(cfg, x), HighSlice(cfg, x);
    var z := FrameNoise(noise, |x.rows|, cfg.scale);
    BandsForwardSpec(cfg, lo, mid, hi, noise, x);
    BandsAlignment(cfg, lo, mid, hi, noise, x);
    var out := BandsForward(cfg, lo, mid, hi, noise, x).value;
    forall t, c | 0 <= t < |x.rows| && 0 <= c < x.width ensures out.rows[t][c] == x.rows[t][c] {
      ZeroBandResidual(cfg, lo, mid, hi, xs1, xs2, xs3, z, t, c);
    }
    SameCells(out, x);
  }

  lemma ZeroBandResidual(cfg: BandsConfig, lo: Residual, mid: Residual, hi: Residual,
                         xs1: Frames<real>, xs2: Frames<real>, xs3: Frames<real>, z: Frames<real>, t: nat, c: nat)
    requires IsZero(lo) && IsZero(mid) && IsZero(hi)
    ensures BandResidual(cfg, lo, mid, hi, xs1, xs2, xs3, z, t, c) == 0.0
  {
  }

  /** The default configuration, (8, 20, 30) with kernel 5, cuts a 58-bin
      stream into inputs of 10, 24 and 32 bins and runs on every stream of
      at least three frames. */
  lemma DefaultBands(channels: nat, scale: real, lo: Residual, mid: Residual, hi: Residual,
                     noise: Noise, x: Frames<real>)
    requires x.width == 58 && |x.rows| >= 3
    ensures NewBands(channels, 5, scale, [8, 20, 30]).Ok?
    ensures var cfg := NewBands(channels, 5, scale, [8, 20, 30]).value;
            && LowSlice(cfg, x).width == 10 && MidSlice(cfg, x).width == 24 && HighSlice(cfg, x).width == 32
            && BandsForward(cfg, lo, mid, hi, noise, x).Ok?
  {
    var cfg := NewBands(channels, 5, scale, [8, 20, 30]).value;
    assert cfg.Reach() == 2;
    BandsForwardSpec(cfg, lo, mid, hi, noise, x);
  }

  /** Used as the mel-cepstrum filter of a multi-stream post-filter, the
      three-band filter keeps the stream's shape. */
  lemma BandsShapePreserving(cfg: BandsConfig, lo: Residual, mid: Residual, hi: Residual, noise: Noise)
    ensures ShapePreserving((x: Frames<real>) => BandsForward(cfg, lo, mid, hi, noise, x))
  {
    forall x: Frames<real> | BandsForward(cfg, lo, mid, hi, noise, x).Ok?
      ensures BandsForward(cfg, lo, mid, hi, noise, x).value.width == x.width
      ensures |BandsForward(cfg, lo, mid, hi, noise, x).value.rows| == |x.rows|
    {
      BandsForwardSpec(cfg, lo, mid, hi, noise, x);
    }
  }
}
