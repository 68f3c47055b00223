/** `_PadConv2dPostFilter`: the band filter of the multi-stream 2-d post-filter.
    Its first convolution is unpadded along the feature axis; reflection padding
    on the low side, the high side or not at all (time is always padded on
    both sides) decides how many bins it returns, and
    the residual is added to the matching crop of its input. */
module PadPostFilter {
  import opened Errors
  import opened Frames
  import opened ConvShapes
  import opened Learned

  /** `padding_side`: "left", "none" or "right". */
  datatype PaddingSide = Left | Neither | Right

  function ParseSide(s: string): (r: Result<PaddingSide>)
    ensures r.Ok? <==> s == "left" || s == "none" || s == "right"
    ensures r.Err? ==> r.error == InvalidPaddingSide
    ensures r == Ok(Left) <==> s == "left"
    ensures r == Ok(Neither) <==> s == "none"
    ensures r == Ok(Right) <==> s == "right"
  {
    if s == "left" then Ok(Left)
    else if s == "none" then Ok(Neither)
    else if s == "right" then Ok(Right)
    else Err(InvalidPaddingSide)
  }

  /** The configuration a band filter keeps: `inDim` is the width of its
      noise projection `nn.Linear(1, in_dim)`. */
  datatype PadConfig = PadConfig(inDim: nat, channels: nat, k: Extent, side: PaddingSide)

  /** `_PadConv2dPostFilter.__init__`: the padding side must be known and the
      noise projection needs a width. */
  function NewPadFilter(inDim: Option<nat>, channels: nat, k: Extent, side: string): (r: Result<PadConfig>)
    ensures r.Ok? <==> ParseSide(side).Ok? && inDim.Some?
    ensures ParseSide(side).Err? ==> r == Err(InvalidPaddingSide)
    ensures ParseSide(side).Ok? && inDim.None? ==> r == Err(MissingInDim)
    ensures r.Ok? ==> r.value.inDim == inDim.value && r.value.k == k && r.value.channels == channels
    ensures r.Ok? ==> Ok(r.value.side) == ParseSide(side)
  {
    var s :- ParseSide(side);
    if inDim.None? then Err(MissingInDim) else Ok(PadConfig(inDim.value, channels, k, s))
  }

  /** Bins `ReflectionPad2d` adds before and after the feature axis. */
  function PadBefore(side: PaddingSide, p: nat): nat
  {
    if side == Left then p else 0
  }

  function PadAfter(side: PaddingSide, p: nat): nat
  {
    if side == Right then p else 0
  }

  /** The bounds of the crop `x_syn = x[:, :, :, start:stop]` the residual is
      added to: `[:-p]`, `[p:-p]` or `[p:]` (the last written with stop = w). */
  function TrimStart(side: PaddingSide, p: nat): int
  {
    if side == Left then 0 else p
  }

  function TrimStop(side: PaddingSide, p: nat, w: nat): int
  {
    if side == Right then w else -(p as int)
  }

  /** The shapes through `_PadConv2dPostFilter.forward` for input x and noise z,
      both unsqueezed to one image channel; the result is the shape of
      `x_syn + residual`. */
  function PadShape(cfg: PadConfig, x: Shape2, z: Shape2): (r: Result<Shape2>)
    ensures r.Ok? ==> z.bins == 1 && x.bins == cfg.inDim && z.time == x.time
  {
    var C, k, p := cfg.channels, cfg.k, Half(cfg.k);
    var before, after := PadBefore(cfg.side, p), PadAfter(cfg.side, p);
    var zf :- Linear(z, 1, cfg.inDim);
    var xp :- ReflectionPad2d(x, before, after, p, p);
    var zp :- ReflectionPad2d(zf, before, after, p, p);
    var c :- Cat2(xp, zp);
    var y1 :- Conv2d(Conv2dLayer(2, C, k, k, 0, 0, Zeros), c);
    var xs := Shape2(x.ch, x.time, SliceWidth(x.bins, TrimStart(cfg.side, p), TrimStop(cfg.side, p, x.bins)));
    var y2 :- Stage2(Conv2dLayer(C + 1, 2 * C, k, 3, p, 1, Reflect), xs, y1);
    var y3 :- Stage2(Conv2dLayer(2 * C + 1, C, k, 3, p, 1, Reflect), xs, y2);
    var res :- Stage2(Conv2dLayer(C + 1, 1, k, 1, p, 0, Reflect), xs, y3);
    Elementwise2(xs, res)
  }

  /** Bins the band filter removes: its reach on each padded-away side. */
  function Trimmed(side: PaddingSide, p: nat): nat
  {
    if side == Neither then 2 * p else p
  }

  /** Exactly the inputs a band filter runs on: a single noise value per frame
      for every frame of x, x as wide as the noise projection, an odd kernel
      reaching fewer than T frames, and after cropping at least two bins for
      the width-3 reflection-padded convolutions; the left and unpadded
      bands also need a reach of at least one, since `x[..., :-0]` is empty. */
  predicate Accepts(cfg: PadConfig, frames: nat, width: nat, zFrames: nat, zWidth: nat)
  {
    var p := Half(cfg.k);
    && zWidth == 1 && zFrames == frames && width == cfg.inDim
    && cfg.k == 2 * p + 1 && p < frames
    && (cfg.side != Right ==> 1 <= p)
    && Trimmed(cfg.side, p) + 2 <= width
  }

  /** The crop keeps all but the trimmed bins. */
  lemma TrimWidth(side: PaddingSide, p: nat, w: nat)
    requires 1 <= p || side == Right
    requires Trimmed(side, p) <= w
    ensures SliceWidth(w, TrimStart(side, p), TrimStop(side, p, w)) == w - Trimmed(side, p)
    ensures PyBound(TrimStart(side, p), w) == TrimStart(side, p)
  {
  }

  /** A band filter that runs was given an accepted input, and returns the
      cropped width over the same frames. */
  lemma PadShapeNecessary(cfg: PadConfig, frames: nat, width: nat, zFrames: nat, zWidth: nat)
    requires PadShape(cfg, Shape2(1, frames, width), Shape2(1, zFrames, zWidth)).Ok?
    ensures Accepts(cfg, frames, width, zFrames, zWidth)
    ensures PadShape(cfg, Shape2(1, frames, width), Shape2(1, zFrames, zWidth))
            == Ok(Shape2(1, frames, width - Trimmed(cfg.side, Half(cfg.k))))
  {
    TrimWidth(cfg.side, Half(cfg.k), width);
  }

  /** ... and every accepted input runs. */
  lemma PadShapeSufficient(cfg: PadConfig, frames: nat, width: nat)
    requires Accepts(cfg, frames, width, frames, 1)
    ensures PadShape(cfg, Shape2(1, frames, width), Shape2(1, frames, 1))
            == Ok(Shape2(1, frames, width - Trimmed(cfg.side, Half(cfg.k))))
  {
    TrimWidth(cfg.side, Half(cfg.k), width);
  }

  /** The band filter runs exactly on accepted inputs. */
  lemma PadShapeSpec(cfg: PadConfig, frames: nat, width: nat, zFrames: nat, zWidth: nat)
    ensures PadShape(cfg, Shape2(1, frames, width), Shape2(1, zFrames, zWidth)).Ok?
            <==> Accepts(cfg, frames, width, zFrames, zWidth)
    ensures PadShape(cfg, Shape2(1, frames, width), Shape2(1, zFrames, zWidth)).Ok? ==>
            PadShape(cfg, Shape2(1, frames, width), Shape2(1, zFrames, zWidth)).value
            == Shape2(1, frames, width - Trimmed(cfg.side, Half(cfg.k)))
  {
    if PadShape(cfg, Shape2(1, frames, width), Shape2(1, zFrames, zWidth)).Ok? {
      PadShapeNecessary(cfg, frames, width, zFrames, zWidth);
    }
    if Accepts(cfg, frames, width, zFrames, zWidth) {
      PadShapeSufficient(cfg, frames, width);
    }
  }

  /** `_PadConv2dPostFilter.forward(x, z)`: the crop of x plus the learned
      residual. It runs exactly on accepted inputs, returns the input's width
      less the trimmed bins, and output bin c sits over input bin
      `TrimStart + c`. */
  function PadForward(cfg: PadConfig, net: Residual, x: Frames<real>, z: Frames<real>): (r: Result<Frames<real>>)
    ensures r.Ok? <==> Accepts(cfg, |x.rows|, x.width, |z.rows|, z.width)
    ensures r.Ok? ==> |r.value.rows| == |x.rows| && r.value.width == x.width - Trimmed(cfg.side, Half(cfg.k))
    ensures r.Ok? ==> forall t, c | 0 <= t < |x.rows| && 0 <= c < r.value.width ::
              TrimStart(cfg.side, Half(cfg.k)) + c < x.width &&
              r.value.rows[t][c] == x.rows[t][TrimStart(cfg.side, Half(cfg.k)) + c] + net(x, Some(z), t, c)
  {
    var p := Half(cfg.k);
    PadShapeSpec(cfg, |x.rows|, x.width, |z.rows|, z.width);
    var _ :- PadShape(cfg, Shape2(1, |x.rows|, x.width), Shape2(1, |z.rows|, z.width));
    TrimWidth(cfg.side, p, x.width);
    var xs := Slice(x, TrimStart(cfg.side, p), TrimStop(cfg.side, p, x.width));
    SliceCells(x, TrimStart(cfg.side, p), TrimStop(cfg.side, p, x.width));
    Ok(AddResidual(xs, net, x, Some(z)))
  }

  /** One output cell of a band filter: the input cell `TrimStart` bins
      further right, plus the residual there. */
  lemma PadCell(cfg: PadConfig, net: Residual, x: Frames<real>, z: Frames<real>, t: nat, c: nat)
    requires PadForward(cfg, net, x, z).Ok?
    requires t < |x.rows| && c < PadForward(cfg, net, x, z).value.width
    ensures TrimStart(cfg.side, Half(cfg.k)) + c < x.width
    ensures PadForward(cfg, net, x, z).value.rows[t][c]
            == x.rows[t][TrimStart(cfg.side, Half(cfg.k)) + c] + net(x, Some(z), t, c)
  {
  }
}
