# nnsvs post-filters in Dafny

This project models the post-filters of the nnsvs singing-voice synthesis toolkit (`nnsvs/postfilters.py`). Post-filters are trained networks that sharpen the acoustic features (mel-cepstrum, log-F0, band aperiodicity) an acoustic model predicts. The model covers five pieces:

- **the multi-stream wrapper** `MultistreamPostFilter`. It splits the feature vector into its streams, filters the mel-cepstrum, aperiodicity and log-F0 streams (optionally leaving the first few channels alone) and concatenates the streams again;
- **the single-stream residual filters** `Conv1dPostFilter` and `Conv2dPostFilter`, with their `SimplifiedTADN` noise modulator;
- **the band filter** `_PadConv2dPostFilter`. It pads the feature axis by reflection on the low side, the high side or not at all (time is always padded on both sides), and crops its input to match;
- **the three-band mel-cepstrum filter** `MultistreamConv2dPostFilter`. It cuts a stream into overlapping low, mid and high bands and joins the three outputs again.

The source is pure dataflow, so the model is made of datatypes, functions and lemmas. A tensor `(B, T, C)` is modelled one batch item at a time as a `Frames` value, a `T`-row, `C`-column grid. Python's slice semantics are modelled exactly: negative bounds count from the end, then bounds are clamped.

The values the networks compute depend on learned weights, so two things are parameters:

- each filter's stack of learned layers is an uninterpreted `Residual` function, giving the value at (frame, channel) for a given input and noise;
- `torch.randn` is a `Noise` parameter.

Every property below therefore holds for all weights and every noise draw. The *shapes* the layers accept and produce are not parameters: they are computed exactly, layer by layer, in `ConvShapes`. These shapes decide which inputs a filter runs on and how wide its output is.

Modules:

- `Errors`: the failures (assertions, `ValueError`s, shape mismatches) and `Result`/`Option`;
- `Frames`: frame sequences, slicing, concatenation and splitting into streams;
- `ConvShapes`: the shape arithmetic of the torch layers used;
- `Learned`: the noise and residual parameters;
- `ConvPostFilters`, `PadPostFilter`, `BandPostFilter` and `Multistream`: the four filter kinds;
- `Pipeline`: the three concrete filters plugged into the multi-stream wrapper.

## Model

| member | source | states |
|---|---|---|
| `Frames.CatAllSplit` | nnsvs/postfilters.py:337-375 | When the stream sizes add up to the width, concatenating the split streams gives back the input. |
| `Frames.CatAllSplitFrom` | nnsvs/postfilters.py:337-375 | Concatenating consecutive slices of the given sizes from `start` on gives the single slice covering them all. |
| `Frames.SplitCatAll` | nnsvs/postfilters.py:370-375 | Splitting a concatenation of streams by those streams' widths gives back the streams. |
| `Frames.SplitCat` | nnsvs/postfilters.py:370-375 | Splitting `cat(p, rest)` with first size `p`'s width gives p followed by the split of rest. |
| `Frames.CatAll3` | nnsvs/postfilters.py:536 | Concatenating three equally long parts succeeds; its width is the sum of theirs and each row is the three rows joined. |
| `Frames.CatAll3Cell` | nnsvs/postfilters.py:536 | A cell of a three-part concatenation is the cell of the part its channel falls in, at the offset inside that part. |
| `Frames.SliceCell` | nnsvs/postfilters.py:350-352 | Cell i of `x[:, :, start:stop]` is cell `start + i` of x, with start normalised as Python does, and that cell exists. |
| `Frames.SliceCells` | nnsvs/postfilters.py:350-352 | The same for every cell of the slice at once. |
| `Frames.SliceWithin` | nnsvs/postfilters.py:520-533 | For `a <= b <= width`, `x[:, :, a:b]` is b - a bins wide and holds input bin c at c - a. |
| `Frames.SliceJoin` | nnsvs/postfilters.py:350-352 | For `a <= b <= c`, `x[:, :, a:b]` joined with `x[:, :, b:c]` is `x[:, :, a:c]`. |
| `Frames.SplitFromWidths` | nnsvs/postfilters.py:337 | When the sizes fit inside the width, stream i has exactly sizes[i] channels. |
| `Frames.Split` | nnsvs/postfilters.py:337 | Splitting by a list of sizes gives exactly one stream per size. |
| `Frames.Slice` | nnsvs/postfilters.py:350-352 | `x[:, :, start:stop]` keeps every frame and is as wide as Python's slice bounds allow. |
| `Frames.CatAll` | nnsvs/postfilters.py:370-375 | Concatenating streams along the feature axis succeeds exactly when all have the same number of frames; the result has that many frames and the sum of their widths. |
| `Frames.SameCells` | nnsvs/postfilters.py:536 | Two streams with the same frame count, width and cells are the same stream. |
| `ConvShapes.SamePadding` | nnsvs/postfilters.py:100 | A convolution padded by `(k - 1) // 2` on both sides keeps an axis's length exactly when the kernel is odd; an even kernel loses one element. |
| `ConvPostFilters.NewConv1d` | nnsvs/postfilters.py:207-268 | The constructor succeeds exactly when a requested noise modulator has `in_dim` and noise is on. It fails with the first violated assertion. On success it keeps the channel count, kernel, noise flag, noise scale, padding mode and modulator width. |
| `ConvPostFilters.Tadn` | nnsvs/postfilters.py:32-63 | The modulator's depthwise convolution runs only on a feature with exactly its channel count and at least one frame. |
| `ConvPostFilters.Conv1dShape` | nnsvs/postfilters.py:222-286 | When the 1-d filter's layers fit together, the padding mode accepts the input's length, and a modulator's width equals the input's channel count. |
| `ConvPostFilters.Conv1dShapeExact` | nnsvs/postfilters.py:222-286 | Whenever the 1-d filter's layers fit together, the input has one channel and at least one frame, the kernel is odd, the padding mode accepts the padding, the output shape equals the input shape, and a modulator is one channel wide. |
| `ConvPostFilters.Conv1dShapeOk` | nnsvs/postfilters.py:222-286 | Conversely, every single-channel stream of at least one frame passes the layers when the kernel is odd and the padding fits. |
| `ConvPostFilters.Conv1dShapeSpec` | nnsvs/postfilters.py:222-286 | The 1-d filter runs exactly on the inputs `Conv1dAccepts` names, and it returns their shape. |
| `ConvPostFilters.Conv1dForward` | nnsvs/postfilters.py:270-291 | The forward pass succeeds exactly when the shapes fit. It keeps the shape, and each output cell is the input cell plus the learned residual on the bin-wise noise. |
| `ConvPostFilters.NewConv2d` | nnsvs/postfilters.py:79-143 | The constructor succeeds exactly for a two-extent kernel, a modulator only with `in_dim` and bin-wise noise, and a known noise type. Frame-wise noise also needs `in_dim`. Each error case gives its own error, in the source's order. On success it keeps both kernel extents, the modulator width, the noise type, and the noise flag, residual flag, padding mode, noise scale and channel count. |
| `ConvPostFilters.Conv2dFirstInput` | nnsvs/postfilters.py:155-180 | Without noise the first convolution sees the input itself, and it runs exactly when the noise draw's shape does. With noise on a one-channel input, it sees two channels: the input and the noise. |
| `ConvPostFilters.Conv2dShape` | nnsvs/postfilters.py:98-193 | When the 2-d filter's layers fit together, the padding mode accepts both axes and the first convolution's input could be built. |
| `ConvPostFilters.Conv2dShapeExact` | nnsvs/postfilters.py:98-193 | Whenever the 2-d filter's layers fit together, both kernel extents are odd, the padding mode accepts both paddings, and the output shape equals the input shape. Injected frame-wise noise is projected to the input's bin count, and a modulator is that wide too. |
| `ConvPostFilters.Conv2dShapeOk` | nnsvs/postfilters.py:98-193 | Conversely, a constructed 2-d filter runs on every input with those properties. |
| `ConvPostFilters.Conv2dShapeSpec` | nnsvs/postfilters.py:98-193 | A constructed 2-d filter runs exactly on the inputs `Conv2dAccepts` names, and it returns their shape. |
| `ConvPostFilters.Conv2dForward` | nnsvs/postfilters.py:145-193 | The forward pass succeeds exactly when the shapes fit. It keeps the shape, and each output cell is the residual, plus the input cell when `residual` is set. |
| `ConvPostFilters.Conv2dDeterministicWithoutNoise` | nnsvs/postfilters.py:164-180 | With noise injection off, the output does not depend on the noise drawn. |
| `ConvPostFilters.Conv1dDeterministicWithoutNoise` | nnsvs/postfilters.py:270-281 | With noise injection off, the 1-d filter's output does not depend on the noise draw. |
| `ConvPostFilters.Conv2dZeroResidualIsIdentity` | nnsvs/postfilters.py:184-188 | A residual 2-d filter whose learned stack is zero everywhere returns its input unchanged whenever it runs, whatever the noise. |
| `ConvPostFilters.Conv1dZeroResidualIsIdentity` | nnsvs/postfilters.py:284-286 | The same for the always-residual 1-d filter, with no residual flag needed. |
| `ConvPostFilters.ConvFiltersShapePreserving` | nnsvs/postfilters.py:145-291 | Both filters, used as stream filters, keep every accepted stream's shape. |
| `PadPostFilter.ParseSide` | nnsvs/postfilters.py:399-406 | "left", "none" and "right" are accepted, each as its own side. Anything else is `ValueError("Invalid padding side")`. |
| `PadPostFilter.NewPadFilter` | nnsvs/postfilters.py:380-439 | The constructor succeeds exactly for a known side and a given `in_dim`; an unknown side fails first. |
| `PadPostFilter.TrimWidth` | nnsvs/postfilters.py:451-456 | The crop `[:-p]`, `[p:-p]` or `[p:]` keeps all but p, 2p or p bins. |
| `PadPostFilter.PadShape` | nnsvs/postfilters.py:441-461 | When the band filter's layers fit together, the noise has one bin, the input has `in_dim` bins and both have the same number of frames. |
| `PadPostFilter.PadShapeNecessary` | nnsvs/postfilters.py:441-461 | If the band filter's layers fit together, the input is accepted: one noise value per frame, the width equals `in_dim`, the kernel is odd and its reach is below T. At least two bins survive the crop, and the reach is at least 1 unless padding is on the right. |
| `PadPostFilter.PadShapeSufficient` | nnsvs/postfilters.py:441-461 | Every accepted input passes the layers, and the result is the cropped shape. |
| `PadPostFilter.PadShapeSpec` | nnsvs/postfilters.py:441-461 | The band filter runs exactly on accepted inputs, returning the input width less the trimmed bins. |
| `PadPostFilter.PadForward` | nnsvs/postfilters.py:441-466 | The forward pass succeeds exactly on accepted inputs and returns the cropped width. Output bin c is input bin `TrimStart + c` plus the residual. |
| `PadPostFilter.PadCell` | nnsvs/postfilters.py:451-461 | One output cell of the band filter, traced back to its input cell. |
| `BandPostFilter.NewBands` | nnsvs/postfilters.py:476-511 | The constructor succeeds exactly for three band sizes. The three band filters it builds are the ones `_PadConv2dPostFilter` builds for `in_dim` values s0+p, s1+2p and s2+p, padded left, on neither side and right. |
| `BandPostFilter.BandsForward` | nnsvs/postfilters.py:513-538 | A stream whose width is not the sum of the three band sizes fails; a successful pass keeps every frame. |
| `BandPostFilter.MidSliceWidth` | nnsvs/postfilters.py:521-530 | For any reach p, the mid band's slice has width s1+2p exactly when p fits inside both outer bands. |
| `BandPostFilter.LowBand` | nnsvs/postfilters.py:520 | The low band filter accepts its slice exactly under its conditions, and returns s0 bins. |
| `BandPostFilter.MidBand` | nnsvs/postfilters.py:521-530 | The mid band filter accepts its slice exactly under its conditions, and returns s1 bins. |
| `BandPostFilter.HighBand` | nnsvs/postfilters.py:531-533 | The high band filter accepts its slice exactly under its conditions, and returns s2 bins. |
| `BandPostFilter.LowRuns` | nnsvs/postfilters.py:520 | On a stream as wide as the three bands, the low band filter runs on `x[:, :, :s0 + p]` exactly when the kernel is odd, 1 <= p < T, s0 >= 2 and p <= s1 + s2. |
| `BandPostFilter.MidRuns` | nnsvs/postfilters.py:521-530 | The mid band filter runs on its slice exactly when the kernel is odd, 1 <= p < T, s1 >= 2 and p fits inside both outer bands. |
| `BandPostFilter.HighRuns` | nnsvs/postfilters.py:531-533 | When p <= s0, the high band filter runs on `x[:, :, s0 + s1 - p:]` exactly when the kernel is odd, p < T and s2 >= 2. |
| `BandPostFilter.BandsAcceptedByEach` | nnsvs/postfilters.py:513-533 | All three band filters run on their slices exactly when the three-band conditions hold. |
| `BandPostFilter.LowOutputWidth` | nnsvs/postfilters.py:520 | On an accepted stream the low band filter runs and returns s0 bins. |
| `BandPostFilter.MidOutputWidth` | nnsvs/postfilters.py:521-530 | On an accepted stream the mid band filter runs and returns s1 bins. |
| `BandPostFilter.HighOutputWidth` | nnsvs/postfilters.py:531-533 | On an accepted stream the high band filter runs and returns s2 bins. |
| `BandPostFilter.BandsForwardSpec` | nnsvs/postfilters.py:513-538 | The three-band filter runs exactly on the inputs `BandsAccept` names. It then keeps the stream's width and frame count. |
| `BandPostFilter.PadBandOut` | nnsvs/postfilters.py:451-461 | A band filter that runs returns, for every frame of its input, bin c equal to input bin `TrimStart + c` plus its residual. |
| `BandPostFilter.LowSliceAligned` | nnsvs/postfilters.py:520 | On an accepted stream, `x[:, :, :s0 + p]` is s0 + p bins wide and holds stream bin c < s0 at c. |
| `BandPostFilter.MidSliceAligned` | nnsvs/postfilters.py:521-530 | On an accepted stream, the mid slice is s1 + 2p bins wide and holds mid-band stream bin c at c - s0 + p. |
| `BandPostFilter.HighSliceAligned` | nnsvs/postfilters.py:531-533 | On an accepted stream, the high slice is s2 + p bins wide and holds high-band stream bin c at c - s0 - s1 + p. |
| `BandPostFilter.LowCell` | nnsvs/postfilters.py:520-536 | Channel c < s0 of the concatenated band outputs is stream bin c plus the low band's residual on its input at c. |
| `BandPostFilter.MidCell` | nnsvs/postfilters.py:521-536 | A mid-band channel c of the concatenated outputs is stream bin c plus the mid band's residual on its input at c - s0. |
| `BandPostFilter.HighCell` | nnsvs/postfilters.py:531-536 | A high-band channel c of the concatenated outputs is stream bin c plus the high band's residual on its input at c - s0 - s1. |
| `BandPostFilter.BandsOutputs` | nnsvs/postfilters.py:517-536 | A successful forward pass is the concatenation of the three band outputs, on the per-frame noise it drew. |
| `BandPostFilter.BandsCellOf` | nnsvs/postfilters.py:536 | Each cell of the concatenated band outputs is the stream cell plus the residual of the band owning that channel. |
| `BandPostFilter.BandsAlignment` | nnsvs/postfilters.py:513-538 | The overlaps are undone exactly: every output channel is the input channel at the same position plus its own band's residual. Nothing is dropped, duplicated or shifted. |
| `BandPostFilter.BandsZeroResidualIsIdentity` | nnsvs/postfilters.py:513-538 | When all three band filters' learned stacks are zero, the three-band filter returns every accepted stream unchanged: the overlaps are cropped away and the bands join back seamlessly. |
| `BandPostFilter.DefaultBands` | nnsvs/postfilters.py:476-538 | The default sizes (8, 20, 30) with kernel 5 cut a 58-bin stream into slices of 10, 24 and 32 bins. This configuration runs on every stream of at least 3 frames. |
| `BandPostFilter.BandsShapePreserving` | nnsvs/postfilters.py:513-538 | Used as a stream filter, the three-band filter keeps every accepted stream's shape. |
| `Multistream.Forward` | nnsvs/postfilters.py:325-377 | An unknown stream count is `ValueError`. Five streams always fail. A successful pass keeps the frame count. |
| `Multistream.ForwardFixed` | nnsvs/postfilters.py:325-377 | The same without the five-stream failure. |
| `Multistream.ForwardAgreesWithFixed` | nnsvs/postfilters.py:338-375 | The written pass equals the intended one except on five streams. There it fails with the unbound name whenever the filters themselves succeed. |
| `Multistream.NoFiltersProcess` | nnsvs/postfilters.py:347-368 | Without post-filters every stream passes through unchanged. |
| `Multistream.NoFiltersIdentity` | nnsvs/postfilters.py:325-377 | Without post-filters the output is the channels the sizes cover. That is the input itself exactly when the sizes cover its width. The written pass does the same on four and six streams. |
| `Multistream.FiveStreamsCounterexample` | nnsvs/postfilters.py:341-373 | Five one-channel streams with no filters: the written pass fails and the intended pass returns the input. |
| `Multistream.ApplyWithOffset` | nnsvs/postfilters.py:347-365 | With a filter and a positive offset, the stream passes exactly when the filter runs on the channels after the offset and keeps their frame count. |
| `Multistream.ProcessStreams` | nnsvs/postfilters.py:347-375 | Filtering succeeds exactly when the mel-cepstrum, aperiodicity and log-F0 filters all succeed. It keeps the stream count, the voiced/unvoiced flag and every stream after the fourth. |
| `Multistream.ApplyWithOffsetIdentity` | nnsvs/postfilters.py:347-365 | A filter that returns its input wherever it runs, applied after an offset, returns the whole stream: the held-back channels and the filtered ones join back into it. |
| `Multistream.ProcessStreamsIdentity` | nnsvs/postfilters.py:347-375 | When every filter returns its input, successful filtering returns the streams unchanged. |
| `Multistream.IdentityFiltersForward` | nnsvs/postfilters.py:325-377 | With filters that return their input, a successful pass returns the channels the sizes cover, which is the whole input when the sizes cover its width. |
| `Multistream.ApplyWithOffsetSpec` | nnsvs/postfilters.py:347-365 | A filter with the first `offset` channels held back keeps the stream's shape. The held-back channels come back unchanged, and the rest is the filter applied to the channels from `offset` on. |
| `Multistream.ApplySpec` | nnsvs/postfilters.py:367-368 | A shape-preserving filter applied to a stream keeps its shape. |
| `Multistream.ProcessStreamsShape` | nnsvs/postfilters.py:347-375 | Filtering keeps every stream's shape, and leaves the voiced/unvoiced flag and any stream after the fourth unchanged. |
| `Multistream.ForwardFixedStreams` | nnsvs/postfilters.py:337-375 | For sizes covering the width, the pass succeeds exactly when the filters do. It keeps the width, and splitting the output gives the filtered streams. |
| `Multistream.UnfilteredStreamsUnchanged` | nnsvs/postfilters.py:370-375 | The voiced/unvoiced flag and the vibrato streams of the output equal those of the input. |
| `Multistream.MgcOffsetKept` | nnsvs/postfilters.py:347-355 | The output's first `mgc_offset` mel-cepstrum channels equal the input's. The rest is the filter's output on exactly the input's channels from `mgc_offset` on. |
| `Multistream.BapOffsetKept` | nnsvs/postfilters.py:357-365 | The same for `bap_offset` and the aperiodicity stream. |
| `Multistream.ForwardStreams` | nnsvs/postfilters.py:325-377 | The written pass on four or six streams: it succeeds exactly when the filters do, keeps the width, and splits back into the filtered streams. |
| `Pipeline.AssembledKeepsStreams` | nnsvs/postfilters.py:325-538 | The three-band, 2-d and 1-d filters plugged into the wrapper keep the input's width. They leave the voiced/unvoiced flag and the vibrato streams unchanged. |
| `Pipeline.Assembled` | nnsvs/postfilters.py:308-323 | The wrapper built from the three concrete filters keeps the given stream sizes, has all three filters, and each of them keeps the shape of every stream it runs on. |
| `Pipeline.AssembledZeroResidualIsIdentity` | nnsvs/postfilters.py:325-538 | With all five learned stacks zero and a residual aperiodicity filter, a successful pass of the assembled wrapper over sizes covering the input returns the input unchanged. |

## Left out

- `variance_scaling`: left out. It is a NumPy floating-point rescaling outside the post-filter classes.
- The numeric values of every convolution, ReLU, linear layer and `SimplifiedTADN` gain: each filter's learned stack is the uninterpreted `Residual` parameter. Only the shapes of these layers are computed.
- `init_weights` and the `BaseModel` base class are not part of this model: they set weights and do not change shapes.
- The `lengths` argument: left out, since every forward pass ignores it.
- `torch.randn`/`randn_like`: modelled as the `Noise` parameter, one draw per forward call. Device placement is left out.
- The batch axis: modelled one item at a time, since no operation mixes batch items.
- `split_streams` (in `nnsvs/multistream.py`) is not part of this model. It is modelled as consecutive channel slices of the given sizes, in order.
- torch's own checks: modelled only as far as the shapes need.
  - A kernel extent of at least 1 is assumed (the `Extent` type).
  - The padding modes are assumed to follow torch: reflection needs padding below the axis length, and circular padding at most the length.
  - A bad `padding_mode` string is not modelled, because modes are a datatype.
- `ConvPostFilters.NewConv2d`: the kernel is a sequence of extents, so the `np.asarray` conversion of other iterables is not modelled.
- `PadPostFilter.NewPadFilter`: `assert not isinstance(kernel_size, list)` holds by the parameter's type.
- `BandPostFilter.NewBands`: the `in_dim` argument of `MultistreamConv2dPostFilter` is left out; the source never uses it.
- `SimplifiedTADN`: the sigmoid gate is not modelled, only the shape check its depthwise convolution imposes.
- `ConvPostFilters.NewConv1d`, `ConvPostFilters.NewConv2d`: a modulator with `in_dim` 0 is accepted at construction and fails only at the forward pass, where torch already rejects building a convolution with zero channels.
- The tests in `tests/test_svs.py` reach the post-filters only end to end, through a pretrained model (`post_filter_type` of "merlin", "gv" or "nnsvs" passed to `engine.svs`), and check nothing about them; they are not modelled.

## Findings

| source | as written | input that shows it | evidently intended | confidence | as-written member | corrected member |
|---|---|---|---|---|---|---|
| nnsvs/postfilters.py:341-373 | With five streams the unpacking binds `vuv` twice and never binds `vib`, so building the output reads an unbound local and raises. | `stream_sizes = [1, 1, 1, 1, 1]`, no post-filters, a 5-channel input | The fifth stream is the vibrato stream, passed through like the other unfiltered streams. | not executed | `Multistream.FiveStreamsCounterexample` | `Multistream.ForwardFixed` |
