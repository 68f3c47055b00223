/** The single-stream residual post-filters `Conv1dPostFilter` and
    `Conv2dPostFilter`, and the `SimplifiedTADN` noise modulator as far as it
    shapes their activations. Each forward pass is four convolutions, every one
    after the first fed the original input concatenated in front of the
    previous activation, and a residual addition. */
module ConvPostFilters {
  import opened Errors
  import opened Frames
  import opened ConvShapes
  import opened Learned

  /** `SimplifiedTADN(dim)` as built by the post-filters: a depthwise
      `nn.Conv1d(dim, dim, 7, padding=3, groups=dim)`. */
  function TadnLayer(dim: nat): Conv1dLayer
  {
    Conv1dLayer(dim, dim, 7, 3, Zeros)
  }

  /** `SimplifiedTADN.forward(z, c)`: `z * sigmoid(conv_gamma(c))`. */
  function Tadn(dim: nat, z: Shape1, c: Shape1): (r: Result<Shape1>)
    ensures r.Ok? ==> c.ch == dim && c.len >= 1
  {
    var gamma :- Conv1d(TadnLayer(dim), c);
    Elementwise1(z, gamma)
  }

  // ---------------------------------------------------------------------------
  // Conv1dPostFilter

  /** The configuration a `Conv1dPostFilter` keeps; `tadn` is the width of its
      noise modulator, when it has one. */
  datatype Conv1dConfig = Conv1dConfig(
    channels: nat, k: Extent, useNoise: bool, tadn: Option<nat>, scale: real, mode: PaddingMode)

  /** `Conv1dPostFilter.__init__`: a noise modulator needs `in_dim` and noise injection. */
  function NewConv1d(inDim: Option<nat>, channels: nat, k: Extent, useNoise: bool, useTadn: bool,
                     scale: real, mode: PaddingMode): (r: Result<Conv1dConfig>)
    ensures r.Ok? <==> (useTadn ==> inDim.Some? && useNoise)
    ensures useTadn && inDim.None? ==> r == Err(Failed(InDimRequired))
    ensures useTadn && inDim.Some? && !useNoise ==> r == Err(Failed(NoiseRequired))
    ensures r.Ok? ==> r.value.k == k && r.value.useNoise == useNoise && r.value.mode == mode
    ensures r.Ok? ==> r.value.channels == channels && r.value.scale == scale
    ensures r.Ok? ==> r.value.tadn == (if useTadn then inDim else None)
  {
    if useTadn && inDim.None? then Err(Failed(InDimRequired))
    else if useTadn && !useNoise then Err(Failed(NoiseRequired))
    else Ok(Conv1dConfig(channels, k, useNoise, if useTadn then inDim else None, scale, mode))
  }

  /** The shapes through `Conv1dPostFilter.forward` for an input that, once
      transposed, has x.ch feature channels over x.len frames; the result is
      the shape of `x_syn + residual`. */
  function Conv1dShape(cfg: Conv1dConfig, x: Shape1): (r: Result<Shape1>)
    ensures r.Ok? ==> PadAccepted(cfg.mode, x.len, Half(cfg.k))
    ensures r.Ok? && cfg.useNoise && cfg.tadn.Some? ==> cfg.tadn == Some(x.ch)
  {
    var C, p := cfg.channels, Half(cfg.k);
    var first :-
      if cfg.useNoise then
        var z :- match cfg.tadn
                 case Some(d) => Tadn(d, x, x)
                 case None => Ok(x);
        Cat1(x, z)
      else Ok(x);
    var y1 :- Conv1d(Conv1dLayer(if cfg.useNoise then 2 else 1, C, cfg.k, p, cfg.mode), first);
    var y2 :- Stage1(Conv1dLayer(C + 1, 2 * C, cfg.k, p, cfg.mode), x, y1);
    var y3 :- Stage1(Conv1dLayer(2 * C + 1, C, cfg.k, p, cfg.mode), x, y2);
    var res :- Stage1(Conv1dLayer(C + 1, 1, cfg.k, p, cfg.mode), x, y3);
    Elementwise1(x, res)
  }

  /** Whenever the 1-d filter runs at all, its input is a single feature
      channel (the feature axis is the convolutions' channel axis, and the
      first convolution takes one channel, two with noise), its kernel is odd,
      and the output has exactly the input's shape. */
  lemma Conv1dShapeExact(cfg: Conv1dConfig, x: Shape1)
    requires Conv1dShape(cfg, x).Ok?
    ensures Conv1dShape(cfg, x) == Ok(x)
    ensures x.ch == 1 && x.len >= 1 && cfg.k % 2 == 1 && PadAccepted(cfg.mode, x.len, Half(cfg.k))
    ensures cfg.useNoise && cfg.tadn.Some? ==> cfg.tadn == Some(1)
  {
    SamePadding(x.len, cfg.k);
  }

  /** ... and it runs on every single-channel stream of at least one frame
      when the kernel is odd, the padding mode can pad the time axis and a
      noise modulator (used only with noise) is one channel wide. */
  lemma Conv1dShapeOk(cfg: Conv1dConfig, frames: nat)
    requires frames >= 1 && cfg.k % 2 == 1 && PadAccepted(cfg.mode, frames, Half(cfg.k))
    requires cfg.useNoise && cfg.tadn.Some? ==> cfg.tadn == Some(1)
    ensures Conv1dShape(cfg, Shape1(1, frames)) == Ok(Shape1(1, frames))
  {
    SamePadding(frames, cfg.k);
  }

  /** The inputs the 1-d filter runs on, exactly. */
  predicate Conv1dAccepts(cfg: Conv1dConfig, x: Shape1)
  {
    && x.ch == 1 && x.len >= 1 && cfg.k % 2 == 1 && PadAccepted(cfg.mode, x.len, Half(cfg.k))
    && (cfg.useNoise && cfg.tadn.Some? ==> cfg.tadn == Some(1))
  }

  lemma Conv1dShapeSpec(cfg: Conv1dConfig, x: Shape1)
    ensures Conv1dShape(cfg, x).Ok? <==> Conv1dAccepts(cfg, x)
    ensures Conv1dShape(cfg, x).Ok? ==> Conv1dShape(cfg, x).value == x
  {
    if Conv1dShape(cfg, x).Ok? {
      Conv1dShapeExact(cfg, x);
    }
    if Conv1dAccepts(cfg, x) {
      Conv1dShapeOk(cfg, x.len);
    }
  }

  /** The noise a 1-d filter injects into x: bin-wise, when it injects any. */
  function Conv1dNoise(cfg: Conv1dConfig, noise: Noise, x: Frames<real>): Option<Frames<real>>
  {
    if cfg.useNoise then Some(BinNoise(noise, |x.rows|, x.width, cfg.scale)) else None
  }

  /** `Conv1dPostFilter.forward`. The output has the shape the layers give it;
      its values are the input plus the learned residual. */
  function Conv1dForward(cfg: Conv1dConfig, net: Residual, noise: Noise, x: Frames<real>): (r: Result<Frames<real>>)
    ensures r.Ok? <==> Conv1dShape(cfg, Shape1(x.width, |x.rows|)).Ok?
    ensures r.Ok? ==> x.width == 1 && |x.rows| >= 1 && cfg.k % 2 == 1
    ensures r.Ok? ==> r.value.width == x.width && |r.value.rows| == |x.rows|
    ensures r.Ok? ==> forall t, c | 0 <= t < |x.rows| && 0 <= c < x.width ::
              r.value.rows[t][c] == x.rows[t][c] + net(x, Conv1dNoise(cfg, noise, x), t, c)
  {
    var _ :- Conv1dShape(cfg, Shape1(x.width, |x.rows|));
    Conv1dShapeExact(cfg, Shape1(x.width, |x.rows|));
    Ok(AddResidual(x, net, x, Conv1dNoise(cfg, noise, x)))
  }

  // ---------------------------------------------------------------------------
  // Conv2dPostFilter

  /** "bin_wise" noise, or "frame_wise" noise with its `nn.Linear(1, in_dim)`
      projection to `fcOut` bins. */
  datatype NoiseKind = BinWise | FrameWise(fcOut: nat)

  /** The configuration a `Conv2dPostFilter` keeps. */
  datatype Conv2dConfig = Conv2dConfig(
    channels: nat, kt: Extent, kb: Extent, useNoise: bool, tadn: Option<nat>, residual: bool,
    scale: real, noise: NoiseKind, mode: PaddingMode)
  {
    /** What the constructor guarantees: a noise modulator only for bin-wise noise. */
    predicate Valid() { tadn.Some? ==> noise.BinWise? }
  }

  /** `Conv2dPostFilter.__init__`: two kernel extents; a noise modulator needs
      `in_dim` and bin-wise noise; the noise type is "bin_wise" or
      "frame_wise", the latter projecting to `in_dim` bins. */
  function NewConv2d(inDim: Option<nat>, channels: nat, kernel: seq<Extent>, useNoise: bool,
                     useTadn: bool, residual: bool, scale: real, noiseType: string,
                     mode: PaddingMode): (r: Result<Conv2dConfig>)
    ensures r.Ok? <==> && |kernel| == 2
                       && (useTadn ==> inDim.Some? && noiseType == "bin_wise")
                       && (noiseType == "bin_wise" || (noiseType == "frame_wise" && inDim.Some?))
    ensures |kernel| != 2 ==> r == Err(Failed(KernelRank))
    ensures |kernel| == 2 && useTadn && inDim.None? ==> r == Err(Failed(InDimRequired))
    ensures |kernel| == 2 && useTadn && inDim.Some? && noiseType != "bin_wise" ==> r == Err(Failed(TadnNeedsBinWise))
    ensures |kernel| == 2 && !useTadn && noiseType == "frame_wise" && inDim.None? ==> r == Err(MissingInDim)
    ensures |kernel| == 2 && !useTadn && noiseType != "bin_wise" && noiseType != "frame_wise" ==> r == Err(UnknownNoiseType)
    ensures r.Ok? ==> r.value.Valid() && r.value.kt == kernel[0] && r.value.kb == kernel[1]
    ensures r.Ok? ==> r.value.tadn == (if useTadn then inDim else None)
    ensures r.Ok? ==> r.value.noise == (if noiseType == "bin_wise" then BinWise else FrameWise(inDim.value))
    ensures r.Ok? ==> && r.value.useNoise == useNoise && r.value.residual == residual && r.value.mode == mode
                      && r.value.scale == scale && r.value.channels == channels
  {
    if |kernel| != 2 then Err(Failed(KernelRank))
    else if useTadn && inDim.None? then Err(Failed(InDimRequired))
    else if useTadn && noiseType != "bin_wise" then Err(Failed(TadnNeedsBinWise))
    else
      var kind :-
        if noiseType == "frame_wise" then (if inDim.None? then Err(MissingInDim) else Ok(FrameWise(inDim.value)))
        else if noiseType == "bin_wise" then Ok(BinWise)
        else Err(UnknownNoiseType);
      Ok(Conv2dConfig(channels, kernel[0], kernel[1], useNoise, if useTadn then inDim else None,
                      residual, scale, kind, mode))
  }

  /** The noise tensor `Conv2dPostFilter.forward` draws for an input of
      x.time frames and x.bins bins, after the frame-wise projection. */
  function Conv2dNoiseShape(cfg: Conv2dConfig, x: Shape2): Result<Shape2>
  {
    match cfg.noise
    case BinWise => Ok(x)
    case FrameWise(d) => Linear(Shape2(1, x.time, 1), 1, d)
  }

  /** What reaches the first convolution: the input, with the (modulated) noise
      concatenated as a second image channel when noise is injected. */
  function Conv2dFirstInput(cfg: Conv2dConfig, x: Shape2): (r: Result<Shape2>)
    ensures !cfg.useNoise ==> (r.Ok? <==> Conv2dNoiseShape(cfg, x).Ok?) && (r.Ok? ==> r.value == x)
    ensures cfg.Valid() && cfg.useNoise && x.ch == 1 && r.Ok? ==> r.value == Shape2(2, x.time, x.bins)
  {
    var z :- Conv2dNoiseShape(cfg, x);
    if cfg.useNoise then
      var z' :- match cfg.tadn
                case None => Ok(z)
                case Some(d) =>
                  var m :- Tadn(d, Shape1(z.bins, z.time), Shape1(x.bins, x.time));
                  Ok(Shape2(1, m.len, m.ch));
      Cat2(x, z')
    else Ok(x)
  }

  /** The shapes through `Conv2dPostFilter.forward` for the (1, T, C) image of
      a (T, C) input; the result is the shape of `x_syn + residual` (or of
      `residual` alone when the filter is not residual). */
  function Conv2dShape(cfg: Conv2dConfig, x: Shape2): (r: Result<Shape2>)
    ensures r.Ok? ==> PadAccepted(cfg.mode, x.time, Half(cfg.kt)) && PadAccepted(cfg.mode, x.bins, Half(cfg.kb))
    ensures r.Ok? ==> Conv2dFirstInput(cfg, x).Ok?
  {
    var C, pt, pb := cfg.channels, Half(cfg.kt), Half(cfg.kb);
    var first :- Conv2dFirstInput(cfg, x);
    var y1 :- Conv2d(Conv2dLayer(if cfg.useNoise then 2 else 1, C, cfg.kt, cfg.kb, pt, pb, cfg.mode), first);
    var y2 :- Stage2(Conv2dLayer(C + 1, 2 * C, cfg.kt, cfg.kb, pt, pb, cfg.mode), x, y1);
    var y3 :- Stage2(Conv2dLayer(2 * C + 1, C, cfg.kt, cfg.kb, pt, pb, cfg.mode), x, y2);
    var res :- Stage2(Conv2dLayer(C + 1, 1, cfg.kt, cfg.kb, pt, pb, cfg.mode), x, y3);
    if cfg.residual then Elementwise2(x, res) else Ok(res)
  }

  /** Whenever the 2-d filter runs at all, both kernel extents are odd and the
      output has exactly the input's shape. */
  lemma Conv2dShapeExact(cfg: Conv2dConfig, x: Shape2)
    requires x.ch == 1 && Conv2dShape(cfg, x).Ok?
    ensures Conv2dShape(cfg, x) == Ok(x)
    ensures x.time >= 1 && x.bins >= 1 && cfg.kt % 2 == 1 && cfg.kb % 2 == 1
    ensures PadAccepted(cfg.mode, x.time, Half(cfg.kt)) && PadAccepted(cfg.mode, x.bins, Half(cfg.kb))
    ensures cfg.Valid() && cfg.useNoise && cfg.noise.FrameWise? ==> cfg.noise.fcOut == x.bins
    ensures cfg.Valid() && cfg.useNoise && cfg.tadn.Some? ==> cfg.tadn == Some(x.bins)
  {
    SamePadding(x.time, cfg.kt);
    SamePadding(x.bins, cfg.kb);
  }

  /** ... and it runs on every (T, C) input with T, C >= 1 when both kernel
      extents are odd, the padding mode can pad both axes, and injected
      noise (frame-wise after its projection, or through the modulator) is C
      bins wide. */
  lemma Conv2dShapeOk(cfg: Conv2dConfig, frames: nat, bins: nat)
    requires cfg.Valid()
    requires frames >= 1 && bins >= 1 && cfg.kt % 2 == 1 && cfg.kb % 2 == 1
    requires PadAccepted(cfg.mode, frames, Half(cfg.kt)) && PadAccepted(cfg.mode, bins, Half(cfg.kb))
    requires cfg.useNoise && cfg.noise.FrameWise? ==> cfg.noise.fcOut == bins
    requires cfg.useNoise && cfg.tadn.Some? ==> cfg.tadn == Some(bins)
    ensures Conv2dShape(cfg, Shape2(1, frames, bins)) == Ok(Shape2(1, frames, bins))
  {
    SamePadding(frames, cfg.kt);
    SamePadding(bins, cfg.kb);
  }

  /** The inputs a constructed 2-d filter runs on, exactly. */
  predicate Conv2dAccepts(cfg: Conv2dConfig, x: Shape2)
  {
    && x.ch == 1 && x.time >= 1 && x.bins >= 1 && cfg.kt % 2 == 1 && cfg.kb % 2 == 1
    && PadAccepted(cfg.mode, x.time, Half(cfg.kt)) && PadAccepted(cfg.mode, x.bins, Half(cfg.kb))
    && (cfg.useNoise && cfg.noise.FrameWise? ==> cfg.noise.fcOut == x.bins)
    && (cfg.useNoise && cfg.tadn.Some? ==> cfg.tadn == Some(x.bins))
  }

  lemma Conv2dShapeSpec(cfg: Conv2dConfig, x: Shape2)
    requires cfg.Valid() && x.ch == 1
    ensures Conv2dShape(cfg, x).Ok? <==> Conv2dAccepts(cfg, x)
    ensures Conv2dShape(cfg, x).Ok? ==> Conv2dShape(cfg, x).value == x
  {
    if Conv2dShape(cfg, x).Ok? {
      Conv2dShapeExact(cfg, x);
    }
    if Conv2dAccepts(cfg, x) {
      Conv2dShapeOk(cfg, x.time, x.bins);
    }
  }

  /** The noise a 2-d filter injects into x, before its learned projection. */
  function Conv2dNoise(cfg: Conv2dConfig, noise: Noise, x: Frames<real>): Option<Frames<real>>
  {
    if !cfg.useNoise then None
    else match cfg.noise
      case BinWise => Some(BinNoise(noise, |x.rows|, x.width, cfg.scale))
      case FrameWise(_) => Some(FrameNoise(noise, |x.rows|, cfg.scale))
  }

  /** `Conv2dPostFilter.forward`. The output has the shape the layers give it;
      its values are the learned residual, added to the input when the filter
      is residual. */
  function Conv2dForward(cfg: Conv2dConfig, net: Residual, noise: Noise, x: Frames<real>): (r: Result<Frames<real>>)
    ensures r.Ok? <==> Conv2dShape(cfg, Shape2(1, |x.rows|, x.width)).Ok?
    ensures r.Ok? ==> |x.rows| >= 1 && x.width >= 1 && cfg.kt % 2 == 1 && cfg.kb % 2 == 1
    ensures r.Ok? ==> r.value.width == x.width && |r.value.rows| == |x.rows|
    ensures r.Ok? ==> forall t, c | 0 <= t < |x.rows| && 0 <= c < x.width ::
              r.value.rows[t][c] == (if cfg.residual then x.rows[t][c] else 0.0) + net(x, Conv2dNoise(cfg, noise, x), t, c)
  {
    var s :- Conv2dShape(cfg, Shape2(1, |x.rows|, x.width));
    Conv2dShapeExact(cfg, Shape2(1, |x.rows|, x.width));
    var z := Conv2dNoise(cfg, noise, x);
    Ok(Grid(s.bins, seq(s.time, t requires 0 <= t < s.time =>
                      seq(s.bins, c requires 0 <= c < s.bins =>
                        (if cfg.residual then x.rows[t][c] else 0.0) + net(x, z, t, c)))))
  }

  /** With noise injection off, the output does not depend on the noise drawn. */
  lemma Conv2dDeterministicWithoutNoise(cfg: Conv2dConfig, net: Residual, n1: Noise, n2: Noise, x: Frames<real>)
    requires !cfg.useNoise
    ensures Conv2dForward(cfg, net, n1, x) == Conv2dForward(cfg, net, n2, x)
  {
  }

  /** The same for the 1-d filter: with `use_noise` off no noise reaches it. */
  lemma Conv1dDeterministicWithoutNoise(cfg: Conv1dConfig, net: Residual, n1: Noise, n2: Noise, x: Frames<real>)
    requires !cfg.useNoise
    ensures Conv1dForward(cfg, net, n1, x) == Conv1dForward(cfg, net, n2, x)
  {
  }

  /** A residual filter whose learned stack contributes nothing (all-zero
      final weights) returns its input unchanged wherever it runs. */
  lemma Conv2dZeroResidualIsIdentity(cfg: Conv2dConfig, net: Residual, noise: Noise, x: Frames<real>)
    requires cfg.residual && IsZero(net)
    requires Conv2dForward(cfg, net, noise, x).Ok?
    ensures Conv2dForward(cfg, net, noise, x) == Ok(x)
  {
    var out := Conv2dForward(cfg, net, noise, x).value;
    forall t | 0 <= t < |x.rows| ensures out.rows[t] == x.rows[t] {
      forall c | 0 <= c < x.width ensures out.rows[t][c] == x.rows[t][c] { }
    }
    assert out.rows == x.rows;
  }

  /** The same for the 1-d filter, which is always residual. */
  lemma Conv1dZeroResidualIsIdentity(cfg: Conv1dConfig, net: Residual, noise: Noise, x: Frames<real>)
    requires IsZero(net)
    requires Conv1dForward(cfg, net, noise, x).Ok?
    ensures Conv1dForward(cfg, net, noise, x) == Ok(x)
  {
    var out := Conv1dForward(cfg, net, noise, x).value;
    forall t | 0 <= t < |x.rows| ensures out.rows[t] == x.rows[t] {
      forall c | 0 <= c < x.width ensures out.rows[t][c] == x.rows[t][c] { }
    }
    assert out.rows == x.rows;
  }

  /** Used as a stream's filter, each post-filter keeps the stream's shape. */
  lemma ConvFiltersShapePreserving(c1: Conv1dConfig, c2: Conv2dConfig, net: Residual, noise: Noise)
    ensures ShapePreserving((x: Frames<real>) => Conv1dForward(c1, net, noise, x))
    ensures ShapePreserving((x: Frames<real>) => Conv2dForward(c2, net, noise, x))
  {
  }
}
