/** `MultistreamPostFilter`: the acoustic feature vector is split into its
    streams (mel-cepstrum, log-F0, voiced/unvoiced flag, band aperiodicity and,
    with six streams, vibrato and vibrato flags); the mel-cepstrum, band
    aperiodicity and log-F0 streams go through their own post-filter, if one is
    configured, and the streams are concatenated again. */
module Multistream {
  import opened Errors
  import opened Frames

  /** The post-filter of each filtered stream (None: the stream is left as
      is), the stream sizes, and how many leading channels of the
      mel-cepstrum and aperiodicity streams bypass their post-filter. */
  datatype PostFilters<!E> = PostFilters(
    mgc: Option<Filter<E>>, bap: Option<Filter<E>>, lf0: Option<Filter<E>>,
    sizes: seq<nat>, mgcOffset: int, bapOffset: int)

  /** Stream indices in the order `split_streams` returns them. */
  const MGC := 0
  const LF0 := 1
  const VUV := 2
  const BAP := 3

  /** A stream's post-filter, if it has one. */
  function Apply<E>(f: Option<Filter<E>>, s: Frames<E>): Result<Frames<E>>
  {
    match f
    case None => Ok(s)
    case Some(g) => g(s)
  }

  /** A stream's post-filter with its first `offset` channels kept back:
      `cat([s[:, :, :offset], f(s[:, :, offset:])])` when offset > 0. */
  function ApplyWithOffset<E>(f: Option<Filter<E>>, offset: int, s: Frames<E>): (r: Result<Frames<E>>)
    ensures f.Some? && offset > 0 ==>
              (r.Ok? <==> f.value(Slice(s, offset, s.width)).Ok?
                          && |f.value(Slice(s, offset, s.width)).value.rows| == |s.rows|)
  {
    match f
    case None => Ok(s)
    case Some(g) =>
      if offset > 0 then
        var pf :- g(Slice(s, offset, s.width));
        Cat(Slice(s, 0, offset), pf)
      else g(s)
  }

  /** The filtering step of the forward pass on the split streams, in the
      order the source runs it: mel-cepstrum, aperiodicity, then log-F0. */
  function ProcessStreams<E>(cfg: PostFilters<E>, streams: seq<Frames<E>>): (r: Result<seq<Frames<E>>>)
    requires |streams| >= 4
    ensures r.Ok? <==> ApplyWithOffset(cfg.mgc, cfg.mgcOffset, streams[MGC]).Ok?
                       && ApplyWithOffset(cfg.bap, cfg.bapOffset, streams[BAP]).Ok?
                       && Apply(cfg.lf0, streams[LF0]).Ok?
    ensures r.Ok? ==> |r.value| == |streams| && r.value[VUV] == streams[VUV] && r.value[4..] == streams[4..]
  {
    var mgc :- ApplyWithOffset(cfg.mgc, cfg.mgcOffset, streams[MGC]);
    var bap :- ApplyWithOffset(cfg.bap, cfg.bapOffset, streams[BAP]);
    var lf0 :- Apply(cfg.lf0, streams[LF0]);
    Ok([mgc, lf0, streams[VUV], bap] + streams[4..])
  }

  predicate KnownStreamCount(n: nat)
  {
    n == 4 || n == 5 || n == 6
  }

  /** `MultistreamPostFilter.forward` as written. With five streams the
      unpacking binds the fifth stream to `vuv` again and never binds `vib`,
      so reassembling the output reads an unbound name and fails, after the
      post-filters have run. */
  function Forward<E>(cfg: PostFilters<E>, x: Frames<E>): (r: Result<Frames<E>>)
    ensures !KnownStreamCount(|cfg.sizes|) ==> r == Err(InvalidStreamCount)
    ensures |cfg.sizes| == 5 ==> r.Err?
    ensures r.Ok? ==> |r.value.rows| == |x.rows|
  {
    var streams := Split(x, cfg.sizes);
    if !KnownStreamCount(|streams|) then Err(InvalidStreamCount)
    else
      var parts :- ProcessStreams(cfg, streams);
      assert parts[VUV] == streams[VUV];
      if |streams| == 5 then Err(UnboundName)
      else CatAll(parts)
  }

  /** The forward pass as evidently intended: the fifth of five streams is
      the vibrato stream and is passed through like the others. */
  function ForwardFixed<E>(cfg: PostFilters<E>, x: Frames<E>): (r: Result<Frames<E>>)
    ensures !KnownStreamCount(|cfg.sizes|) ==> r == Err(InvalidStreamCount)
    ensures r.Ok? ==> |r.value.rows| == |x.rows|
  {
    var streams := Split(x, cfg.sizes);
    if !KnownStreamCount(|streams|) then Err(InvalidStreamCount)
    else
      var parts :- ProcessStreams(cfg, streams);
      assert parts[VUV] == streams[VUV];
      CatAll(parts)
  }

  /** The written forward pass agrees with the intended one except on five
      streams, where it fails whenever the post-filters themselves succeed. */
  lemma ForwardAgreesWithFixed<E>(cfg: PostFilters<E>, x: Frames<E>)
    ensures |cfg.sizes| != 5 ==> Forward(cfg, x) == ForwardFixed(cfg, x)
    ensures |cfg.sizes| == 5 ==>
              Forward(cfg, x) == if ProcessStreams(cfg, Split(x, cfg.sizes)).Ok? then Err(UnboundName)
                                 else ForwardFixed(cfg, x)
  {
  }

  // ---------------------------------------------------------------------------
  // With no post-filter configured the forward pass is an identity.

  function NoFilters<E>(sizes: seq<nat>, mgcOffset: int, bapOffset: int): PostFilters<E>
  {
    PostFilters(None, None, None, sizes, mgcOffset, bapOffset)
  }

  /** Without post-filters every stream is passed on unchanged. */
  lemma NoFiltersProcess<E>(sizes: seq<nat>, mgcOffset: int, bapOffset: int, streams: seq<Frames<E>>)
    requires |streams| >= 4
    ensures ProcessStreams(NoFilters(sizes, mgcOffset, bapOffset), streams) == Ok(streams)
  {
    assert [streams[0], streams[1], streams[2], streams[3]] + streams[4..] == streams;
  }

  /** Without post-filters the forward pass returns the channels the stream
      sizes cover, which is the whole input exactly when the sizes add up to
      at least its width; as written, this holds for four and six streams. */
  lemma NoFiltersIdentity<E>(sizes: seq<nat>, mgcOffset: int, bapOffset: int, x: Frames<E>)
    requires KnownStreamCount(|sizes|)
    ensures ForwardFixed(NoFilters(sizes, mgcOffset, bapOffset), x) == Ok(Slice(x, 0, Sum(sizes)))
    ensures ForwardFixed(NoFilters(sizes, mgcOffset, bapOffset), x) == Ok(x) <==> Sum(sizes) >= x.width
    ensures |sizes| != 5 ==> Forward(NoFilters(sizes, mgcOffset, bapOffset), x) == Ok(Slice(x, 0, Sum(sizes)))
  {
    ForwardAgreesWithFixed(NoFilters<E>(sizes, mgcOffset, bapOffset), x);
    NoFiltersProcess(sizes, mgcOffset, bapOffset, Split(x, sizes));
    CatAllSplit(x, sizes);
  }

  /** The concrete case the written forward pass gets wrong: five one-channel
      streams and no post-filters at all. */
  lemma FiveStreamsCounterexample<E>(x: Frames<E>)
    requires x.width == 5
    ensures Forward(NoFilters([1, 1, 1, 1, 1], 2, 0), x) == Err(UnboundName)
    ensures ForwardFixed(NoFilters([1, 1, 1, 1, 1], 2, 0), x) == Ok(x)
  {
    var sizes: seq<nat> := [1, 1, 1, 1, 1];
    NoFiltersProcess(sizes, 2, 0, Split(x, sizes));
    NoFiltersIdentity(sizes, 2, 0, x);
    assert Sum(sizes) == 5;
  }

  // ---------------------------------------------------------------------------
  // Each stream is processed independently.

  /** Every configured post-filter keeps the shape of what it is given. */
  ghost predicate FiltersKeepShape<E(!new)>(cfg: PostFilters<E>)
  {
    && (cfg.mgc.Some? ==> ShapePreserving(cfg.mgc.value))
    && (cfg.bap.Some? ==> ShapePreserving(cfg.bap.value))
    && (cfg.lf0.Some? ==> ShapePreserving(cfg.lf0.value))
  }

  /** A shape-preserving post-filter with channels kept back still keeps the
      stream's shape; the kept channels come back unchanged, and the rest is
      what the post-filter made of the rest. */
  lemma ApplyWithOffsetSpec<E(!new)>(f: Option<Filter<E>>, offset: int, s: Frames<E>)
    requires f.Some? ==> ShapePreserving(f.value)
    requires ApplyWithOffset(f, offset, s).Ok?
    ensures ApplyWithOffset(f, offset, s).value.width == s.width
    ensures |ApplyWithOffset(f, offset, s).value.rows| == |s.rows|
    ensures f.Some? && 0 < offset <= s.width ==>
              && Slice(ApplyWithOffset(f, offset, s).value, 0, offset) == Slice(s, 0, offset)
              && Slice(ApplyWithOffset(f, offset, s).value, offset, s.width) == f.value(Slice(s, offset, s.width)).value
  {
    if f.Some? && offset > 0 {
      var g := f.value;
      var kept := Slice(s, 0, offset);
      var pf := g(Slice(s, offset, s.width)).value;
      assert pf.width == SliceWidth(s.width, offset, s.width);
      if offset <= s.width {
        SliceOfCatLeft(kept, pf);
        SliceOfCatRight(kept, pf, 0, pf.width);
        SliceWhole(pf, pf.width);
      }
    }
  }

  lemma ApplySpec<E(!new)>(f: Option<Filter<E>>, s: Frames<E>)
    requires f.Some? ==> ShapePreserving(f.value)
    requires Apply(f, s).Ok?
    ensures Apply(f, s).value.width == s.width && |Apply(f, s).value.rows| == |s.rows|
  {
  }

  /** With shape-preserving post-filters, processing keeps every stream's
      width and time extent. */
  lemma ProcessStreamsShape<E(!new)>(cfg: PostFilters<E>, streams: seq<Frames<E>>)
    requires |streams| >= 4 && FiltersKeepShape(cfg)
    requires ProcessStreams(cfg, streams).Ok?
    ensures |ProcessStreams(cfg, streams).value| == |streams|
    ensures forall i | 0 <= i < |streams| ::
              && ProcessStreams(cfg, streams).value[i].width == streams[i].width
              && |ProcessStreams(cfg, streams).value[i].rows| == |streams[i].rows|
    ensures forall i | 4 <= i < |streams| || i == VUV :: ProcessStreams(cfg, streams).value[i] == streams[i]
  {
    ApplyWithOffsetSpec(cfg.mgc, cfg.mgcOffset, streams[MGC]);
    ApplyWithOffsetSpec(cfg.bap, cfg.bapOffset, streams[BAP]);
    ApplySpec(cfg.lf0, streams[LF0]);
  }

  /** Splitting the intended forward pass's output by the stream sizes gives
      back exactly the processed streams, when the sizes cover the input and
      the post-filters keep shapes; the output is as wide as the input, and
      the pass fails only where a post-filter does. */
  lemma {:induction false} ForwardFixedStreams<E(!new)>(cfg: PostFilters<E>, x: Frames<E>)
    requires KnownStreamCount(|cfg.sizes|) && Sum(cfg.sizes) == x.width && FiltersKeepShape(cfg)
    ensures ForwardFixed(cfg, x).Ok? <==> ProcessStreams(cfg, Split(x, cfg.sizes)).Ok?
    ensures ForwardFixed(cfg, x).Ok? ==>
              && ForwardFixed(cfg, x).value.width == x.width
              && Split(ForwardFixed(cfg, x).value, cfg.sizes) == ProcessStreams(cfg, Split(x, cfg.sizes)).value
  {
    var streams := Split(x, cfg.sizes);
    SplitFromWidths(x, 0, cfg.sizes);
    if ProcessStreams(cfg, streams).Ok? {
      var parts := ProcessStreams(cfg, streams).value;
      ProcessStreamsShape(cfg, streams);
      SplitCatAll(parts, cfg.sizes);
      WidthsSum(parts, cfg.sizes);
    }
  }

  /** The voiced/unvoiced stream, and with six streams the vibrato streams,
      reach the output untouched. */
  lemma UnfilteredStreamsUnchanged<E(!new)>(cfg: PostFilters<E>, x: Frames<E>, i: nat)
    requires KnownStreamCount(|cfg.sizes|) && Sum(cfg.sizes) == x.width && FiltersKeepShape(cfg)
    requires ForwardFixed(cfg, x).Ok?
    requires i == VUV || 4 <= i < |cfg.sizes|
    ensures Split(ForwardFixed(cfg, x).value, cfg.sizes)[i] == Split(x, cfg.sizes)[i]
  {
    ForwardFixedStreams(cfg, x);
    ProcessStreamsShape(cfg, Split(x, cfg.sizes));
  }

  /** The first `mgcOffset` mel-cepstrum channels bypass the post-filter, and
      the remaining ones are the post-filter's output on them alone. */
  lemma MgcOffsetKept<E(!new)>(cfg: PostFilters<E>, x: Frames<E>)
    requires KnownStreamCount(|cfg.sizes|) && Sum(cfg.sizes) == x.width && FiltersKeepShape(cfg)
    requires ForwardFixed(cfg, x).Ok?
    requires cfg.mgc.Some? && 0 < cfg.mgcOffset <= cfg.sizes[MGC]
    ensures var mgcIn, mgcOut := Split(x, cfg.sizes)[MGC], Split(ForwardFixed(cfg, x).value, cfg.sizes)[MGC];
            && Slice(mgcOut, 0, cfg.mgcOffset) == Slice(mgcIn, 0, cfg.mgcOffset)
            && Slice(mgcOut, cfg.mgcOffset, mgcIn.width)
               == cfg.mgc.value(Slice(mgcIn, cfg.mgcOffset, mgcIn.width)).value
  {
    ForwardFixedStreams(cfg, x);
    var streams := Split(x, cfg.sizes);
    SplitFromWidths(x, 0, cfg.sizes);
    ApplyWithOffsetSpec(cfg.mgc, cfg.mgcOffset, streams[MGC]);
  }

  /** Likewise the first `bapOffset` aperiodicity channels. */
  lemma BapOffsetKept<E(!new)>(cfg: PostFilters<E>, x: Frames<E>)
    requires KnownStreamCount(|cfg.sizes|) && Sum(cfg.sizes) == x.width && FiltersKeepShape(cfg)
    requires ForwardFixed(cfg, x).Ok?
    requires cfg.bap.Some? && 0 < cfg.bapOffset <= cfg.sizes[BAP]
    ensures var bapIn, bapOut := Split(x, cfg.sizes)[BAP], Split(ForwardFixed(cfg, x).value, cfg.sizes)[BAP];
            && Slice(bapOut, 0, cfg.bapOffset) == Slice(bapIn, 0, cfg.bapOffset)
            && Slice(bapOut, cfg.bapOffset, bapIn.width)
               == cfg.bap.value(Slice(bapIn, cfg.bapOffset, bapIn.width)).value
  {
    ForwardFixedStreams(cfg, x);
    var streams := Split(x, cfg.sizes);
    SplitFromWidths(x, 0, cfg.sizes);
    ApplyWithOffsetSpec(cfg.bap, cfg.bapOffset, streams[BAP]);
  }

  // ---------------------------------------------------------------------------
  // Post-filters that change nothing leave the whole pass an identity.

  /** A post-filter that, wherever it runs, returns what it is given. */
  ghost predicate IdentityWhereRuns<E(!new)>(f: Filter<E>)
  {
    forall s: Frames<E> {:trigger f(s)} :: f(s).Ok? ==> f(s) == Ok(s)
  }

  ghost predicate FiltersAreIdentities<E(!new)>(cfg: PostFilters<E>)
  {
    && (cfg.mgc.Some? ==> IdentityWhereRuns(cfg.mgc.value))
    && (cfg.bap.Some? ==> IdentityWhereRuns(cfg.bap.value))
    && (cfg.lf0.Some? ==> IdentityWhereRuns(cfg.lf0.value))
  }

  /** Holding channels back around such a filter changes nothing either: the
      kept channels and the filtered rest join up to the stream again, for
      any offset (one past the width keeps the whole stream back). */
  lemma ApplyWithOffsetIdentity<E(!new)>(f: Option<Filter<E>>, offset: int, s: Frames<E>)
    requires f.Some? ==> IdentityWhereRuns(f.value)
    requires ApplyWithOffset(f, offset, s).Ok?
    ensures ApplyWithOffset(f, offset, s) == Ok(s)
  {
    if f.Some? && offset > 0 {
      var w := s.width;
      var b: nat := if offset <= w then offset else w;
      assert Slice(s, 0, offset) == Slice(s, 0, b);
      assert Slice(s, offset, w) == Slice(s, b, w);
      SliceJoin(s, 0, b, w);
      SliceWhole(s, w);
    }
  }

  lemma ProcessStreamsIdentity<E(!new)>(cfg: PostFilters<E>, streams: seq<Frames<E>>)
    requires |streams| >= 4 && FiltersAreIdentities(cfg)
    requires ProcessStreams(cfg, streams).Ok?
    ensures ProcessStreams(cfg, streams) == Ok(streams)
  {
    ApplyWithOffsetIdentity(cfg.mgc, cfg.mgcOffset, streams[MGC]);
    ApplyWithOffsetIdentity(cfg.bap, cfg.bapOffset, streams[BAP]);
    assert [streams[0], streams[1], streams[2], streams[3]] + streams[4..] == streams;
  }

  /** With such post-filters the intended pass returns the channels the stream
      sizes cover, which is the whole input when they cover its width. */
  lemma IdentityFiltersForward<E(!new)>(cfg: PostFilters<E>, x: Frames<E>)
    requires FiltersAreIdentities(cfg) && ForwardFixed(cfg, x).Ok?
    ensures ForwardFixed(cfg, x) == Ok(Slice(x, 0, Sum(cfg.sizes)))
    ensures Sum(cfg.sizes) >= x.width ==> ForwardFixed(cfg, x) == Ok(x)
  {
    ProcessStreamsIdentity(cfg, Split(x, cfg.sizes));
    CatAllSplit(x, cfg.sizes);
  }

  /** The same holds for the written forward pass on four or six streams. */
  lemma ForwardStreams<E(!new)>(cfg: PostFilters<E>, x: Frames<E>)
    requires (|cfg.sizes| == 4 || |cfg.sizes| == 6) && Sum(cfg.sizes) == x.width && FiltersKeepShape(cfg)
    ensures Forward(cfg, x).Ok? <==> ProcessStreams(cfg, Split(x, cfg.sizes)).Ok?
    ensures Forward(cfg, x).Ok? ==>
              && Forward(cfg, x).value.width == x.width
              && Split(Forward(cfg, x).value, cfg.sizes) == ProcessStreams(cfg, Split(x, cfg.sizes)).value
  {
    ForwardAgreesWithFixed(cfg, x);
    ForwardFixedStreams(cfg, x);
  }
}
