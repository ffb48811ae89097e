/** Flat RGBA addressing shared by both passes of applyNaturalBlur (main.js).
    A buffer of width * height pixels holds four channels per pixel, row by row;
    a sample whose coordinates fall outside the buffer is taken from the nearest
    edge pixel (clamp-to-edge). */
module Indexing {

  /** One channel value of a Uint8ClampedArray. */
  type Byte = v: int | 0 <= v < 256

  /** Number of channels per pixel: red, green, blue, alpha. */
  const Channels := 4

  /** Distance between two integers. */
  function Dist(a: int, b: int): nat {
    if a <= b then b - a else a - b
  }

  /** Math.min(Math.max(v, 0), n - 1): the clamp-to-edge coordinate. For an
      axis of n >= 1 positions it is the valid position nearest to v. */
  function Clamp(v: int, n: int): (r: int)
    ensures r <= n - 1
    ensures 1 <= n ==> 0 <= r
    ensures 0 <= v < n ==> r == v
    ensures 1 <= n ==> forall q :: 0 <= q < n ==> Dist(r, v) <= Dist(q, v)
  {
    var lowered := if v > 0 then v else 0;
    if lowered < n - 1 then lowered else n - 1
  }

  /** (y * width + x) * 4 + c: where channel c of pixel (x, y) is stored in a
      buffer of width * height pixels; it always lies inside the buffer. */
  function Idx(width: int, height: int, x: int, y: int, c: int): (i: int)
    requires 0 <= x < width && 0 <= y < height && 0 <= c < Channels
    ensures 0 <= i < width * height * Channels
  {
    MulMonotone(y + 1, height, width);
    MulMonotone(0, y, width);
    (y * width + x) * Channels + c
  }

  /** Row-major order: a pixel before (x, y) in scan order has all its channels
      stored before channel 0 of (x, y). */
  lemma IdxScanOrder(width: int, height: int, x1: int, y1: int, c1: int, x2: int, y2: int)
    requires 0 <= x1 < width && 0 <= x2 < width && 0 <= y1 < height && 0 <= y2 < height
    requires 0 <= c1 < Channels
    requires y1 < y2 || (y1 == y2 && x1 < x2)
    ensures Idx(width, height, x1, y1, c1) < Idx(width, height, x2, y2, 0)
  {
    if y1 < y2 {
      MulMonotone(y1 + 1, y2, width);
      assert (y1 + 1) * width == y1 * width + width;
    }
    assert y1 * width + x1 < y2 * width + x2;
  }

  /** Every position of a width * height * 4 buffer is channel c of some
      pixel (x, y) that the source's loops visit. */
  lemma IdxCovers(width: int, height: int, k: int)
    requires 1 <= width && 1 <= height && 0 <= k < width * height * Channels
    ensures exists x, y, c :: 0 <= x < width && 0 <= y < height && 0 <= c < Channels
                              && Idx(width, height, x, y, c) == k
  {
    var p, c := k / Channels, k % Channels;
    var y, x := p / width, p % width;
    assert p == y * width + x;
    if y >= height {
      MulMonotone(height, y, width);
      assert false;
    }
    assert Idx(width, height, x, y, c) == k;
  }

  /** Distinct pixels and channels are stored at distinct positions, so with
      IdxCovers each position belongs to exactly one pixel and channel. */
  lemma IdxInjective(width: int, height: int, x1: int, y1: int, c1: int, x2: int, y2: int, c2: int)
    requires 0 <= x1 < width && 0 <= y1 < height && 0 <= c1 < Channels
    requires 0 <= x2 < width && 0 <= y2 < height && 0 <= c2 < Channels
    requires Idx(width, height, x1, y1, c1) == Idx(width, height, x2, y2, c2)
    ensures x1 == x2 && y1 == y2 && c1 == c2
  {
    if y1 < y2 || (y1 == y2 && x1 < x2) {
      IdxScanOrder(width, height, x1, y1, c1, x2, y2);
      assert false;
    } else if y2 < y1 || (y2 == y1 && x2 < x1) {
      IdxScanOrder(width, height, x2, y2, c2, x1, y1);
      assert false;
    }
  }

  /** The channel number can be read back from a stored position. */
  lemma IdxChannel(width: int, height: int, x: int, y: int, c: int)
    requires 0 <= x < width && 0 <= y < height && 0 <= c < Channels
    ensures Idx(width, height, x, y, c) % Channels == c
  {
  }

  /** Where the sample at offset (dx, dy) from pixel (x, y) is read, with both
      coordinates clamped to the edge (main.js:24-26, and again at 53-55). */
  function SampleIndex(width: int, height: int, x: int, y: int, dx: int, dy: int, c: int): (i: int)
    requires 1 <= width && 1 <= height && 0 <= c < Channels
    ensures 0 <= i < width * height * Channels
    ensures i % Channels == c
  {
    var px := Clamp(x + dx, width);
    var py := Clamp(y + dy, height);
    IdxChannel(width, height, px, py, c);
    Idx(width, height, px, py, c)
  }

  lemma MulMonotone(a: int, b: int, k: int)
    requires a <= b && 0 <= k
    ensures a * k <= b * k
  {
  }
}
