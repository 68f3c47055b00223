/** Frame sequences and the channel-axis slicing and concatenation the
    post-filters are built from. A tensor of shape (B, T, C) is modelled one
    batch item at a time: `rows[t]` is the C-channel feature vector of frame t. */
module Frames {
  import opened Errors

  datatype Grid<E> = Grid(width: nat, rows: seq<seq<E>>)

  /** A well-formed (T, C) frame sequence: every row has `width` channels. The
      width is kept apart from the rows so that it survives T = 0. */
  type Frames<E> = g: Grid<E> | forall t | 0 <= t < |g.rows| :: |g.rows[t]| == g.width
    witness Grid(0, [])

  /** A post-filter seen from outside: any module called on a frame sequence,
      which either returns one or raises. */
  type Filter<!E> = Frames<E> -> Result<Frames<E>>

  /** The filter never changes the (T, C) shape of a stream it accepts. */
  ghost predicate ShapePreserving<E(!new)>(f: Filter<E>)
  {
    forall s: Frames<E> {:trigger f(s)} ::
      f(s).Ok? ==> f(s).value.width == s.width && |f(s).value.rows| == |s.rows|
  }

  /** Two frame sequences of the same shape with the same cells are equal. */
  lemma SameCells<E>(a: Frames<E>, b: Frames<E>)
    requires |a.rows| == |b.rows| && a.width == b.width
    requires forall t, c | 0 <= t < |a.rows| && 0 <= c < a.width :: a.rows[t][c] == b.rows[t][c]
    ensures a == b
  {
    forall t | 0 <= t < |a.rows| ensures a.rows[t] == b.rows[t] {
    }
    assert a.rows == b.rows;
  }

  /** Python's normalisation of one bound of a step-1 slice over a sequence of
      length n: a negative bound counts from the end, then the bound is clamped
      into [0, n]. */
  function PyBound(i: int, n: nat): (r: nat)
    ensures r <= n
  {
    if i < 0 then (if i + n < 0 then 0 else i + n)
    else if i > n then n
    else i
  }

  /** The number of channels `x[:, :, start:stop]` keeps from a width-n axis. */
  function SliceWidth(n: nat, start: int, stop: int): (r: nat)
    ensures r <= n
  {
    var lo := PyBound(start, n);
    var hi := PyBound(stop, n);
    if hi < lo then 0 else hi - lo
  }

  /** `x[:, :, start:stop]`, with Python's slice semantics (`x[:, :, :k]` is
      `start = 0`, `x[:, :, k:]` is `stop = x.width`). */
  function Slice<E>(x: Frames<E>, start: int, stop: int): (r: Frames<E>)
    ensures |r.rows| == |x.rows|
    ensures r.width == SliceWidth(x.width, start, stop)
  {
    var lo := PyBound(start, x.width);
    var hi := PyBound(stop, x.width);
    var hi' := if hi < lo then lo else hi;
    Grid(hi' - lo, seq(|x.rows|, t requires 0 <= t < |x.rows| => x.rows[t][lo..hi']))
  }

  /** `torch.cat([a, b], dim=-1)`: the time extents must agree. */
  function Cat<E>(a: Frames<E>, b: Frames<E>): (r: Result<Frames<E>>)
    ensures r.Ok? <==> |a.rows| == |b.rows|
    ensures r.Ok? ==> r.value.width == a.width + b.width && |r.value.rows| == |a.rows|
    ensures r.Ok? ==> forall t | 0 <= t < |a.rows| :: r.value.rows[t] == a.rows[t] + b.rows[t]
  {
    if |a.rows| != |b.rows| then Err(ShapeMismatch)
    else Ok(Grid(a.width + b.width, seq(|a.rows|, t requires 0 <= t < |a.rows| => a.rows[t] + b.rows[t])))
  }

  function Widths<E>(parts: seq<Frames<E>>): nat
  {
    if parts == [] then 0 else parts[0].width + Widths(parts[1..])
  }

  /** `torch.cat(parts, dim=-1)` over a non-empty list. */
  function CatAll<E>(parts: seq<Frames<E>>): (r: Result<Frames<E>>)
    requires |parts| >= 1
    ensures r.Ok? <==> forall i | 0 <= i < |parts| :: |parts[i].rows| == |parts[0].rows|
    ensures r.Ok? ==> r.value.width == Widths(parts) && |r.value.rows| == |parts[0].rows|
    decreases |parts|
  {
    if |parts| == 1 then Ok(parts[0])
    else
      var rest :- CatAll(parts[1..]);
      Cat(parts[0], rest)
  }

  function Sum(sizes: seq<nat>): nat
  {
    if sizes == [] then 0 else sizes[0] + Sum(sizes[1..])
  }

  /** `split_streams(x, sizes)` from nnsvs/multistream.py, which is not part of
      this model: its behaviour is taken to be consecutive slicing, stream i
      being `x[:, :, start_i : start_i + sizes[i]]` with start_i the sum of
      the sizes before it. */
  function Split<E>(x: Frames<E>, sizes: seq<nat>): (r: seq<Frames<E>>)
    ensures |r| == |sizes|
  {
    SplitFrom(x, 0, sizes)
  }

  function SplitFrom<E>(x: Frames<E>, start: nat, sizes: seq<nat>): (r: seq<Frames<E>>)
    ensures |r| == |sizes|
    ensures forall i | 0 <= i < |r| :: |r[i].rows| == |x.rows|
    decreases |sizes|
  {
    if sizes == [] then []
    else [Slice(x, start, start + sizes[0])] + SplitFrom(x, start + sizes[0], sizes[1..])
  }

  // ---------------------------------------------------------------------------
  // Slicing and concatenation are inverse to each other.

  /** One cell of a slice: the input cell `PyBound(start)` channels further right. */
  lemma SliceCell<E>(x: Frames<E>, start: int, stop: int, t: nat, i: nat)
    requires t < |x.rows| && i < SliceWidth(x.width, start, stop)
    ensures PyBound(start, x.width) + i < x.width
    ensures Slice(x, start, stop).rows[t][i] == x.rows[t][PyBound(start, x.width) + i]
  {
  }

  /** Every cell of a slice, as SliceCell states for one. */
  lemma SliceCells<E>(x: Frames<E>, start: int, stop: int)
    ensures forall t, i | 0 <= t < |x.rows| && 0 <= i < SliceWidth(x.width, start, stop) ::
              PyBound(start, x.width) + i < x.width &&
              Slice(x, start, stop).rows[t][i] == x.rows[t][PyBound(start, x.width) + i]
  {
    forall t, i | 0 <= t < |x.rows| && 0 <= i < SliceWidth(x.width, start, stop)
      ensures PyBound(start, x.width) + i < x.width
      ensures Slice(x, start, stop).rows[t][i] == x.rows[t][PyBound(start, x.width) + i]
    {
      SliceCell(x, start, stop, t, i);
    }
  }

  /** A slice inside the bounds holds channels a..b-1 of the input, shifted down by a. */
  lemma SliceWithin<E>(x: Frames<E>, a: nat, b: nat)
    requires a <= b <= x.width
    ensures Slice(x, a, b).width == b - a
    ensures forall t, c | 0 <= t < |x.rows| && a <= c < b :: Slice(x, a, b).rows[t][c - a] == x.rows[t][c]
  {
    forall t, c | 0 <= t < |x.rows| && a <= c < b
      ensures Slice(x, a, b).rows[t][c - a] == x.rows[t][c]
    {
      SliceCell(x, a, b, t, c - a);
    }
  }

  /** Two adjacent slices concatenate to the slice that spans both. */
  lemma SliceJoin<E>(x: Frames<E>, a: nat, b: nat, c: nat)
    requires a <= b <= c
    ensures Cat(Slice(x, a, b), Slice(x, b, c)) == Ok(Slice(x, a, c))
  {
    var l, m, r := Slice(x, a, b), Slice(x, b, c), Slice(x, a, c);
    var j := Cat(l, m).value;
    assert j.width == r.width;
    forall t | 0 <= t < |x.rows|
      ensures j.rows[t] == r.rows[t]
    {
      var lo, mid, hi := PyBound(a, x.width), PyBound(b, x.width), PyBound(c, x.width);
      assert l.rows[t] == x.rows[t][lo..mid];
      assert m.rows[t] == x.rows[t][mid..hi];
      assert r.rows[t] == x.rows[t][lo..hi];
      assert x.rows[t][lo..mid] + x.rows[t][mid..hi] == x.rows[t][lo..hi];
    }
    assert j.rows == r.rows;
  }

  /** The slice of everything from 0 on, at least as wide as the input, is the input. */
  lemma SliceWhole<E>(x: Frames<E>, stop: int)
    requires stop >= x.width
    ensures Slice(x, 0, stop) == x
  {
    var r := Slice(x, 0, stop);
    forall t | 0 <= t < |x.rows| ensures r.rows[t] == x.rows[t] {
      assert r.rows[t] == x.rows[t][0..x.width];
    }
    assert r.rows == x.rows;
  }

  /** Concatenating the streams of consecutive sizes gives back the channels they cover. */
  lemma {:induction false} CatAllSplitFrom<E>(x: Frames<E>, start: nat, sizes: seq<nat>)
    requires |sizes| >= 1
    ensures CatAll(SplitFrom(x, start, sizes)) == Ok(Slice(x, start, start + Sum(sizes)))
    decreases |sizes|
  {
    var parts := SplitFrom(x, start, sizes);
    var mid, stop := start + sizes[0], start + Sum(sizes);
    SplitFromCons(x, start, sizes);
    if |sizes| > 1 {
      CatAllSplitFrom(x, mid, sizes[1..]);
      CatAllCons(parts, Slice(x, mid, stop));
      SliceJoin(x, start, mid, stop);
    }
  }

  lemma SplitFromCons<E>(x: Frames<E>, start: nat, sizes: seq<nat>)
    requires |sizes| >= 1
    ensures SplitFrom(x, start, sizes)[0] == Slice(x, start, start + sizes[0])
    ensures SplitFrom(x, start, sizes)[1..] == SplitFrom(x, start + sizes[0], sizes[1..])
    ensures Sum(sizes) == sizes[0] + Sum(sizes[1..])
  {
  }

  lemma CatAllCons<E>(parts: seq<Frames<E>>, rest: Frames<E>)
    requires |parts| >= 2 && CatAll(parts[1..]) == Ok(rest)
    ensures CatAll(parts) == Cat(parts[0], rest)
  {
  }

  /** Split then re-concatenate: the input comes back exactly when the stream
      sizes cover its width (when they cover more, the slices clamp). */
  lemma {:induction false} CatAllSplit<E>(x: Frames<E>, sizes: seq<nat>)
    requires |sizes| >= 1
    ensures CatAll(Split(x, sizes)) == Ok(Slice(x, 0, Sum(sizes)))
    ensures CatAll(Split(x, sizes)) == Ok(x) <==> Sum(sizes) >= x.width
  {
    CatAllSplitFrom(x, 0, sizes);
    SliceIsWhole(x, Sum(sizes));
  }

  lemma SliceIsWhole<E>(x: Frames<E>, stop: nat)
    ensures Slice(x, 0, stop) == x <==> stop >= x.width
  {
    if stop >= x.width {
      SliceWhole(x, stop);
    } else {
      assert Slice(x, 0, stop).width < x.width;
    }
  }

  /** When the sizes fit inside the width, stream i has exactly sizes[i] channels. */
  lemma {:induction false} SplitFromWidths<E>(x: Frames<E>, start: nat, sizes: seq<nat>)
    requires start + Sum(sizes) <= x.width
    ensures forall i | 0 <= i < |sizes| :: SplitFrom(x, start, sizes)[i].width == sizes[i]
    decreases |sizes|
  {
    if sizes != [] {
      SplitFromWidths(x, start + sizes[0], sizes[1..]);
      var r := SplitFrom(x, start, sizes);
      forall i | 0 <= i < |sizes| ensures r[i].width == sizes[i] {
        if i > 0 {
          assert r[i] == SplitFrom(x, start + sizes[0], sizes[1..])[i - 1];
        }
      }
    }
  }

  /** Slicing the part of a concatenation that came from its right operand gives that operand's slice. */
  lemma SliceOfCatRight<E>(p: Frames<E>, q: Frames<E>, a: nat, b: nat)
    requires |p.rows| == |q.rows|
    ensures Slice(Cat(p, q).value, p.width + a, p.width + b) == Slice(q, a, b)
  {
    var j := Cat(p, q).value;
    var l, r := Slice(j, p.width + a, p.width + b), Slice(q, a, b);
    assert PyBound(p.width + a, j.width) == p.width + PyBound(a, q.width);
    assert PyBound(p.width + b, j.width) == p.width + PyBound(b, q.width);
    forall t | 0 <= t < |q.rows| ensures l.rows[t] == r.rows[t] {
      var lo, hi := PyBound(a, q.width), PyBound(b, q.width);
      var hi' := if hi < lo then lo else hi;
      assert l.rows[t] == j.rows[t][p.width + lo..p.width + hi'];
      assert j.rows[t] == p.rows[t] + q.rows[t];
      assert r.rows[t] == q.rows[t][lo..hi'];
    }
  }

  /** The left operand of a concatenation is its first p.width channels. */
  lemma SliceOfCatLeft<E>(p: Frames<E>, q: Frames<E>)
    requires |p.rows| == |q.rows|
    ensures Slice(Cat(p, q).value, 0, p.width) == p
  {
    var j := Cat(p, q).value;
    var l := Slice(j, 0, p.width);
    forall t | 0 <= t < |p.rows| ensures l.rows[t] == p.rows[t] {
      assert l.rows[t] == j.rows[t][0..p.width];
      assert j.rows[t] == p.rows[t] + q.rows[t];
    }
  }

  lemma {:induction false} SplitFromCatRight<E>(p: Frames<E>, q: Frames<E>, a: nat, sizes: seq<nat>)
    requires |p.rows| == |q.rows|
    ensures SplitFrom(Cat(p, q).value, p.width + a, sizes) == SplitFrom(q, a, sizes)
    decreases |sizes|
  {
    if sizes != [] {
      SliceOfCatRight(p, q, a, a + sizes[0]);
      SplitFromCatRight(p, q, a + sizes[0], sizes[1..]);
    }
  }

  /** Concatenate then split by the parts' own widths: the parts come back. */
  lemma {:induction false} SplitCatAll<E>(parts: seq<Frames<E>>, sizes: seq<nat>)
    requires |parts| == |sizes| >= 1
    requires forall i | 0 <= i < |parts| :: |parts[i].rows| == |parts[0].rows| && parts[i].width == sizes[i]
    ensures CatAll(parts).Ok? && Split(CatAll(parts).value, sizes) == parts
    decreases |parts|
  {
    var out := CatAll(parts).value;
    if |parts| == 1 {
      SliceWhole(parts[0], sizes[0]);
    } else {
      SplitCatAll(parts[1..], sizes[1..]);
      var rest := CatAll(parts[1..]).value;
      CatAllCons(parts, rest);
      SplitCat(parts[0], rest, sizes);
      assert parts == [parts[0]] + parts[1..];
    }
  }

  /** Splitting a concatenation whose left operand is as wide as the first size. */
  lemma SplitCat<E>(p: Frames<E>, rest: Frames<E>, sizes: seq<nat>)
    requires |sizes| >= 1 && |p.rows| == |rest.rows| && p.width == sizes[0]
    ensures Split(Cat(p, rest).value, sizes) == [p] + Split(rest, sizes[1..])
  {
    var out := Cat(p, rest).value;
    SplitFromCons(out, 0, sizes);
    SliceOfCatLeft(p, rest);
    SplitFromCatRight(p, rest, 0, sizes[1..]);
    var r := Split(out, sizes);
    assert r == [r[0]] + r[1..];
  }

  /** Concatenating three sequences with equal time extents puts each frame's
      channels side by side. */
  lemma CatAll3<E>(a: Frames<E>, b: Frames<E>, c: Frames<E>)
    requires |a.rows| == |b.rows| == |c.rows|
    ensures CatAll([a, b, c]).Ok?
    ensures CatAll([a, b, c]).value.width == a.width + b.width + c.width
    ensures |CatAll([a, b, c]).value.rows| == |a.rows|
    ensures forall t | 0 <= t < |a.rows| :: CatAll([a, b, c]).value.rows[t] == a.rows[t] + b.rows[t] + c.rows[t]
  {
    assert [a, b, c][1..] == [b, c];
    assert [b, c][1..] == [c];
    var bc := CatAll([b, c]);
    assert CatAll([c]) == Ok(c);
    assert bc == Cat(b, c);
    forall t | 0 <= t < |a.rows| ensures CatAll([a, b, c]).value.rows[t] == a.rows[t] + b.rows[t] + c.rows[t] {
      assert bc.value.rows[t] == b.rows[t] + c.rows[t];
    }
  }

  /** Which of three concatenated sequences a channel of the result comes from. */
  lemma CatAll3Cell<E>(a: Frames<E>, b: Frames<E>, c: Frames<E>, t: nat, j: nat)
    requires |a.rows| == |b.rows| == |c.rows| && t < |a.rows| && j < a.width + b.width + c.width
    ensures CatAll([a, b, c]).Ok? && t < |CatAll([a, b, c]).value.rows| && j < CatAll([a, b, c]).value.width
    ensures CatAll([a, b, c]).value.rows[t][j]
            == if j < a.width then a.rows[t][j]
               else if j < a.width + b.width then b.rows[t][j - a.width]
               else c.rows[t][j - a.width - b.width]
  {
    CatAll3(a, b, c);
  }

  /** Parts whose widths are the given sizes are as wide together as the sizes add up to. */
  lemma {:induction false} WidthsSum<E>(parts: seq<Frames<E>>, sizes: seq<nat>)
    requires |parts| == |sizes|
    requires forall i | 0 <= i < |parts| :: parts[i].width == sizes[i]
    ensures Widths(parts) == Sum(sizes)
    decreases |parts|
  {
    if parts != [] {
      WidthsSum(parts[1..], sizes[1..]);
    }
  }
}
