/** Shape arithmetic of the torch layers the post-filters are made of. A layer's
    learned weights never influence the shape of what it returns, so each layer
    is modelled here only by the extents it accepts and produces. Shapes are
    those of one batch item: (channels, length) for 1-d layers and
    (channels, time, bins) for 2-d layers. */
module ConvShapes {
  import opened Errors

  /** A kernel extent: torch's convolutions take at least 1. */
  type Extent = k: nat | 1 <= k witness 1

  /** `(kernel_size - 1) // 2`, the per-side padding every post-filter derives
      from a kernel extent (the "reach" of the band filters). */
  function Half(k: Extent): nat
  {
    (k - 1) / 2
  }

  /** torch's `padding_mode` of a convolution. */
  datatype PaddingMode = Zeros | Reflect | Replicate | Circular

  /** Whether the padding mode can add `pad` elements at each end of an axis of
      length n: reflection must stay strictly inside the axis, circular
      padding must not wrap around more than once. */
  predicate PadAccepted(mode: PaddingMode, n: nat, pad: nat)
  {
    match mode
    case Zeros => true
    case Replicate => true
    case Reflect => pad < n
    case Circular => pad <= n
  }

  /** Output length along one axis of a stride-1, dilation-1 convolution with
      kernel extent k over an axis of length n padded by lo and hi. */
  function ConvLength(n: nat, k: Extent, lo: nat, hi: nat): Result<nat>
  {
    if n + lo + hi < k then Err(KernelTooLarge) else Ok(n + lo + hi - k + 1)
  }

  /** "Same" padding: a convolution padded by (k - 1) // 2 on each side
      returns an axis of the length it was given exactly when k is odd (and
      the axis is not empty); with an even kernel it loses one element. */
  lemma SamePadding(n: nat, k: Extent)
    ensures ConvLength(n, k, Half(k), Half(k)) == Ok(n) <==> k % 2 == 1 && n >= 1
    ensures k % 2 == 0 && n >= 2 ==> ConvLength(n, k, Half(k), Half(k)) == Ok(n - 1)
  {
    if k % 2 == 1 {
      assert 2 * Half(k) == k - 1;
    } else {
      assert 2 * Half(k) == k - 2;
    }
  }

  datatype Shape1 = Shape1(ch: nat, len: nat)
  datatype Shape2 = Shape2(ch: nat, time: nat, bins: nat)

  /** `nn.Conv1d(inCh, outCh, kernel_size=k, padding=pad, padding_mode=mode)` */
  datatype Conv1dLayer = Conv1dLayer(inCh: nat, outCh: nat, k: Extent, pad: nat, mode: PaddingMode)

  /** `nn.Conv2d(inCh, outCh, kernel_size=(kt, kb), padding=(pt, pb), padding_mode=mode)` */
  datatype Conv2dLayer = Conv2dLayer(inCh: nat, outCh: nat, kt: Extent, kb: Extent, pt: nat, pb: nat, mode: PaddingMode)

  function Conv1d(l: Conv1dLayer, s: Shape1): (r: Result<Shape1>)
    ensures r.Ok? ==> s.ch == l.inCh && r.value.ch == l.outCh && PadAccepted(l.mode, s.len, l.pad)
    ensures r.Ok? ==> ConvLength(s.len, l.k, l.pad, l.pad) == Ok(r.value.len)
  {
    if !PadAccepted(l.mode, s.len, l.pad) then Err(PaddingTooLarge)
    else if s.ch != l.inCh then Err(ChannelMismatch)
    else
      var n :- ConvLength(s.len, l.k, l.pad, l.pad);
      Ok(Shape1(l.outCh, n))
  }

  function Conv2d(l: Conv2dLayer, s: Shape2): (r: Result<Shape2>)
    ensures r.Ok? ==> s.ch == l.inCh && r.value.ch == l.outCh
    ensures r.Ok? ==> PadAccepted(l.mode, s.time, l.pt) && PadAccepted(l.mode, s.bins, l.pb)
    ensures r.Ok? ==> ConvLength(s.time, l.kt, l.pt, l.pt) == Ok(r.value.time)
    ensures r.Ok? ==> ConvLength(s.bins, l.kb, l.pb, l.pb) == Ok(r.value.bins)
  {
    if !PadAccepted(l.mode, s.time, l.pt) || !PadAccepted(l.mode, s.bins, l.pb) then Err(PaddingTooLarge)
    else if s.ch != l.inCh then Err(ChannelMismatch)
    else
      var t :- ConvLength(s.time, l.kt, l.pt, l.pt);
      var b :- ConvLength(s.bins, l.kb, l.pb, l.pb);
      Ok(Shape2(l.outCh, t, b))
  }

  /** `torch.cat([a, b], dim=1)` along the channel axis. */
  function Cat1(a: Shape1, b: Shape1): Result<Shape1>
  {
    if a.len != b.len then Err(ShapeMismatch) else Ok(Shape1(a.ch + b.ch, a.len))
  }

  function Cat2(a: Shape2, b: Shape2): Result<Shape2>
  {
    if a.time != b.time || a.bins != b.bins then Err(ShapeMismatch)
    else Ok(Shape2(a.ch + b.ch, a.time, b.bins))
  }

  /** One axis of torch's broadcasting for elementwise `+` and `*`. */
  function Broadcast(a: nat, b: nat): Result<nat>
  {
    if a == b then Ok(a)
    else if a == 1 then Ok(b)
    else if b == 1 then Ok(a)
    else Err(ShapeMismatch)
  }

  function Elementwise1(a: Shape1, b: Shape1): Result<Shape1>
  {
    var c :- Broadcast(a.ch, b.ch);
    var n :- Broadcast(a.len, b.len);
    Ok(Shape1(c, n))
  }

  function Elementwise2(a: Shape2, b: Shape2): Result<Shape2>
  {
    var c :- Broadcast(a.ch, b.ch);
    var t :- Broadcast(a.time, b.time);
    var n :- Broadcast(a.bins, b.bins);
    Ok(Shape2(c, t, n))
  }

  /** `nn.ReflectionPad2d((left, right, top, bottom))`: bins are padded by
      left/right, time by top/bottom; every amount must be shorter than its axis. */
  function ReflectionPad2d(s: Shape2, left: nat, right: nat, top: nat, bottom: nat): Result<Shape2>
  {
    if left < s.bins && right < s.bins && top < s.time && bottom < s.time
    then Ok(Shape2(s.ch, s.time + top + bottom, s.bins + left + right))
    else Err(PaddingTooLarge)
  }

  /** `nn.Linear(inF, outF)` applied along the last axis. */
  function Linear(s: Shape2, inF: nat, outF: nat): Result<Shape2>
  {
    if s.bins != inF then Err(ShapeMismatch) else Ok(Shape2(s.ch, s.time, outF))
  }

  /** One later stage of every post-filter: the original input is concatenated
      in front of the previous activation, then convolved. */
  function Stage1(l: Conv1dLayer, x: Shape1, y: Shape1): (r: Result<Shape1>)
    ensures r.Ok? ==> y.len == x.len && x.ch + y.ch == l.inCh && r.value.ch == l.outCh
    ensures r.Ok? ==> PadAccepted(l.mode, x.len, l.pad) && ConvLength(x.len, l.k, l.pad, l.pad) == Ok(r.value.len)
  {
    var c :- Cat1(x, y);
    Conv1d(l, c)
  }

  function Stage2(l: Conv2dLayer, x: Shape2, y: Shape2): (r: Result<Shape2>)
    ensures r.Ok? ==> y.time == x.time && y.bins == x.bins && x.ch + y.ch == l.inCh && r.value.ch == l.outCh
    ensures r.Ok? ==> PadAccepted(l.mode, x.time, l.pt) && PadAccepted(l.mode, x.bins, l.pb)
    ensures r.Ok? ==> ConvLength(x.time, l.kt, l.pt, l.pt) == Ok(r.value.time)
    ensures r.Ok? ==> ConvLength(x.bins, l.kb, l.pb, l.pb) == Ok(r.value.bins)
  {
    var c :- Cat2(x, y);
    Conv2d(l, c)
  }
}
