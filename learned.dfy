/** What the model leaves uninterpreted: random noise and the values computed by
    learned weights. Both are parameters, so every property proved about a
    post-filter holds for every draw of the noise and every set of weights. */
module Learned {
  import opened Errors
  import opened Frames

  /** One draw of the random source: the value at (frame, channel). A fresh
      field stands for each forward call (`torch.randn` is called per call). */
  type Noise = (nat, nat) -> real

  /** The value a filter's stack of learned layers (convolutions, ReLUs, the
      noise projection and the noise modulator) contributes at (frame t,
      channel c), given the filter's input and the noise it injects, if any. */
  type Residual = (Frames<real>, Option<Frames<real>>, nat, nat) -> real

  /** A learned stack that contributes nothing anywhere (all-zero final weights). */
  ghost predicate IsZero(net: Residual)
  {
    forall x, z, t, c :: net(x, z, t, c) == 0.0
  }

  /** "bin_wise" noise: one value per (frame, channel) cell, `randn_like(x) * scale`. */
  function BinNoise(noise: Noise, frames: nat, width: nat, scale: real): (z: Frames<real>)
    ensures z.width == width && |z.rows| == frames
  {
    Grid(width, seq(frames, (t: nat) => seq(width, (c: nat) => noise(t, c) * scale)))
  }

  /** "frame_wise" noise: one value per frame, `randn(B, T, 1) * scale`. */
  function FrameNoise(noise: Noise, frames: nat, scale: real): (z: Frames<real>)
    ensures z.width == 1 && |z.rows| == frames
  {
    Grid(1, seq(frames, (t: nat) => [noise(t, 0) * scale]))
  }

  /** `base + residual`, where the residual is the learned stack's value on
      input x with noise z, laid over base cell by cell. */
  function AddResidual(base: Frames<real>, net: Residual, x: Frames<real>, z: Option<Frames<real>>): (r: Frames<real>)
    ensures r.width == base.width && |r.rows| == |base.rows|
    ensures forall t, c | 0 <= t < |base.rows| && 0 <= c < base.width ::
              r.rows[t][c] == base.rows[t][c] + net(x, z, t, c)
  {
    Grid(base.width, seq(|base.rows|, (t: nat) requires t < |base.rows| =>
                       seq(base.width, (c: nat) requires c < base.width => base.rows[t][c] + net(x, z, t, c))))
  }
}
