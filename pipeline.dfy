/** A multi-stream post-filter assembled from the concrete filters: the
    three-band filter on the spectral envelope, the two-dimensional
    convolutional filter on aperiodicity and the one-dimensional one on
    log-F0. Each filter draws its own noise. */
module Pipeline {
  import opened Errors
  import opened Frames
  import opened Learned
  import opened ConvPostFilters
  import opened BandPostFilter
  import opened Multistream

  function Assembled(bands: BandsConfig, lo: Residual, mid: Residual, hi: Residual, mgcNoise: Noise,
                     bap: Conv2dConfig, bapNet: Residual, bapNoise: Noise,
                     lf0: Conv1dConfig, lf0Net: Residual, lf0Noise: Noise,
                     sizes: seq<nat>, mgcOffset: int, bapOffset: int): (r: PostFilters<real>)
    ensures r.sizes == sizes && r.mgc.Some? && r.bap.Some? && r.lf0.Some?
    ensures FiltersKeepShape(r)
  {
    BandsShapePreserving(bands, lo, mid, hi, mgcNoise);
    ConvFiltersShapePreserving(lf0, bap, bapNet, bapNoise);
    ConvFiltersShapePreserving(lf0, bap, lf0Net, lf0Noise);
    PostFilters(Some((x: Frames<real>) => BandsForward(bands, lo, mid, hi, mgcNoise, x)),
                Some((x: Frames<real>) => Conv2dForward(bap, bapNet, bapNoise, x)),
                Some((x: Frames<real>) => Conv1dForward(lf0, lf0Net, lf0Noise, x)),
                sizes, mgcOffset, bapOffset)
  }

  /** Every filter of the assembly keeps its stream's shape, so the whole
      forward pass keeps the input's width, and the voiced/unvoiced flag and
      any stream after the fourth come back unchanged. */
  lemma AssembledKeepsStreams(bands: BandsConfig, lo: Residual, mid: Residual, hi: Residual, mgcNoise: Noise,
                              bap: Conv2dConfig, bapNet: Residual, bapNoise: Noise,
                              lf0: Conv1dConfig, lf0Net: Residual, lf0Noise: Noise,
                              sizes: seq<nat>, mgcOffset: int, bapOffset: int, x: Frames<real>)
    requires KnownStreamCount(|sizes|) && Sum(sizes) == x.width
    requires ForwardFixed(Assembled(bands, lo, mid, hi, mgcNoise, bap, bapNet, bapNoise,
                                    lf0, lf0Net, lf0Noise, sizes, mgcOffset, bapOffset), x).Ok?
    ensures var out := ForwardFixed(Assembled(bands, lo, mid, hi, mgcNoise, bap, bapNet, bapNoise,
                                              lf0, lf0Net, lf0Noise, sizes, mgcOffset, bapOffset), x).value;
            && out.width == x.width
            && |Split(out, sizes)| == |sizes|
            && forall i | 4 <= i < |sizes| || i == VUV :: Split(out, sizes)[i] == Split(x, sizes)[i]
  {
    var cfg := Assembled(bands, lo, mid, hi, mgcNoise, bap, bapNet, bapNoise,
                         lf0, lf0Net, lf0Noise, sizes, mgcOffset, bapOffset);
    BandsShapePreserving(bands, lo, mid, hi, mgcNoise);
    ConvFiltersShapePreserving(lf0, bap, bapNet, bapNoise);
    ConvFiltersShapePreserving(lf0, bap, lf0Net, lf0Noise);
    assert FiltersKeepShape(cfg);
    ForwardFixedStreams(cfg, x);
    ProcessStreamsShape(cfg, Split(x, sizes));
  }

  /** With learned stacks that contribute nothing (and the 2-d filter
      residual) the assembled post-filter gives back its input wherever it
      runs on streams covering the input. */
  lemma AssembledZeroResidualIsIdentity(bands: BandsConfig, lo: Residual, mid: Residual, hi: Residual, mgcNoise: Noise,
                                        bap: Conv2dConfig, bapNet: Residual, bapNoise: Noise,
                                        lf0: Conv1dConfig, lf0Net: Residual, lf0Noise: Noise,
                                        sizes: seq<nat>, mgcOffset: int, bapOffset: int, x: Frames<real>)
    requires IsZero(lo) && IsZero(mid) && IsZero(hi) && IsZero(bapNet) && IsZero(lf0Net) && bap.residual
    requires Sum(sizes) >= x.width
    requires ForwardFixed(Assembled(bands, lo, mid, hi, mgcNoise, bap, bapNet, bapNoise,
                                    lf0, lf0Net, lf0Noise, sizes, mgcOffset, bapOffset), x).Ok?
    ensures ForwardFixed(Assembled(bands, lo, mid, hi, mgcNoise, bap, bapNet, bapNoise,
                                   lf0, lf0Net, lf0Noise, sizes, mgcOffset, bapOffset), x) == Ok(x)
  {
    var cfg := Assembled(bands, lo, mid, hi, mgcNoise, bap, bapNet, bapNoise,
                         lf0, lf0Net, lf0Noise, sizes, mgcOffset, bapOffset);
    forall s: Frames<real> | BandsForward(bands, lo, mid, hi, mgcNoise, s).Ok?
      ensures BandsForward(bands, lo, mid, hi, mgcNoise, s) == Ok(s)
    {
      BandsForwardSpec(bands, lo, mid, hi, mgcNoise, s);
      BandsZeroResidualIsIdentity(bands, lo, mid, hi, mgcNoise, s);
    }
    forall s: Frames<real> | Conv2dForward(bap, bapNet, bapNoise, s).Ok?
      ensures Conv2dForward(bap, bapNet, bapNoise, s) == Ok(s)
    {
      Conv2dZeroResidualIsIdentity(bap, bapNet, bapNoise, s);
    }
    forall s: Frames<real> | Conv1dForward(lf0, lf0Net, lf0Noise, s).Ok?
      ensures Conv1dForward(lf0, lf0Net, lf0Noise, s) == Ok(s)
    {
      Conv1dZeroResidualIsIdentity(lf0, lf0Net, lf0Noise, s);
    }
    assert FiltersAreIdentities(cfg);
    IdentityFiltersForward(cfg, x);
  }
}
