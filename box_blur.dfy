/** The first pass of applyNaturalBlur (main.js:9-42): every channel of every
    pixel becomes the rounded mean of that channel over a 41 x 41 window
    centred on the pixel, with out-of-range samples clamped to the edge. The
    pass reads `pixels` and writes a separate, zero-filled Uint8ClampedArray. */
module BoxBlur {
  import opened Indexing
  import opened Uint8Clamp

  const Radius := 20
  /** Side of the window. */
  const Side := 2 * Radius + 1
  /** Samples per window. */
  const Area := Side * Side

  /** The window is 41 x 41, so it holds 1681 samples, an odd number. */
  lemma WindowSize()
    ensures Side == 41 && Area == 1681 && Area % 2 == 1
  {
  }

  /** A buffer of width * height RGBA pixels that a window can be read from. */
  predicate Layout(s: seq<Byte>, width: int, height: int) {
    1 <= width && 1 <= height && |s| == width * height * Channels
  }

  /** Channel c of the clamped sample at offset (dx, dy) from (x, y). */
  function Sample(s: seq<Byte>, width: int, height: int, x: int, y: int, dx: int, dy: int, c: int): Byte
    requires Layout(s, width, height) && 0 <= c < Channels
  {
    s[SampleIndex(width, height, x, y, dx, dy, c)]
  }

  /** Sum of channel c over the first n samples of window row dy. */
  function RowSum(s: seq<Byte>, width: int, height: int, x: int, y: int, c: int, dy: int, n: nat): int
    requires Layout(s, width, height) && 0 <= c < Channels
  {
    if n == 0 then 0
    else RowSum(s, width, height, x, y, c, dy, n - 1) + Sample(s, width, height, x, y, n - 1 - Radius, dy, c)
  }

  /** Sum of channel c over the first m full rows of the window. */
  function RowsSum(s: seq<Byte>, width: int, height: int, x: int, y: int, c: int, m: nat): int
    requires Layout(s, width, height) && 0 <= c < Channels
  {
    if m == 0 then 0
    else RowsSum(s, width, height, x, y, c, m - 1) + RowSum(s, width, height, x, y, c, m - 1 - Radius, Side)
  }

  /** Sum of channel c over the whole window around (x, y). */
  function WindowSum(s: seq<Byte>, width: int, height: int, x: int, y: int, c: int): int
    requires Layout(s, width, height) && 0 <= c < Channels
  {
    RowsSum(s, width, height, x, y, c, Side)
  }

  /** The window sum divided by Area and rounded to the nearest integer. Area
      is odd, so the quotient is never halfway between two integers. */
  function RoundedMean(sum: int): (m: int)
    ensures 2 * Area * m - Area <= 2 * sum < 2 * Area * m + Area
  {
    (2 * sum + Area) / (2 * Area)
  }

  /** What the pass stores for channel c of pixel (x, y). */
  function BoxBlurValue(s: seq<Byte>, width: int, height: int, x: int, y: int, c: int): int
    requires Layout(s, width, height) && 0 <= c < Channels
  {
    RoundedMean(WindowSum(s, width, height, x, y, c))
  }

  /** Storing sum / Area into a Uint8ClampedArray yields exactly RoundedMean(sum). */
  lemma StoreIsRoundedMean(sum: int)
    requires 0 <= sum <= 255 * Area
    ensures ToUint8Clamp(sum as real / Area as real) == RoundedMean(sum)
  {
  }

  /** Every sample of the window around (x, y) in channel c lies in [lo, hi]. */
  predicate WindowWithin(s: seq<Byte>, width: int, height: int, x: int, y: int, c: int, lo: int, hi: int)
    requires Layout(s, width, height) && 0 <= c < Channels
  {
    forall dx, dy :: -Radius <= dx <= Radius && -Radius <= dy <= Radius ==>
      lo <= Sample(s, width, height, x, y, dx, dy, c) <= hi
  }

  lemma {:induction false} RowSumWithin(s: seq<Byte>, width: int, height: int, x: int, y: int, c: int, dy: int, n: nat, lo: int, hi: int)
    requires Layout(s, width, height) && 0 <= c < Channels
    requires WindowWithin(s, width, height, x, y, c, lo, hi)
    requires -Radius <= dy <= Radius && n <= Side
    ensures n * lo <= RowSum(s, width, height, x, y, c, dy, n) <= n * hi
  {
    if n > 0 {
      RowSumWithin(s, width, height, x, y, c, dy, n - 1, lo, hi);
      assert lo <= Sample(s, width, height, x, y, n - 1 - Radius, dy, c) <= hi;
      MulSucc(n, lo);
      MulSucc(n, hi);
    }
  }

  lemma {:induction false} RowsSumWithin(s: seq<Byte>, width: int, height: int, x: int, y: int, c: int, m: nat, lo: int, hi: int)
    requires Layout(s, width, height) && 0 <= c < Channels
    requires WindowWithin(s, width, height, x, y, c, lo, hi)
    requires m <= Side
    ensures m * (Side * lo) <= RowsSum(s, width, height, x, y, c, m) <= m * (Side * hi)
  {
    if m > 0 {
      RowsSumWithin(s, width, height, x, y, c, m - 1, lo, hi);
      RowSumWithin(s, width, height, x, y, c, m - 1 - Radius, Side, lo, hi);
      MulSucc(m, Side * lo);
      MulSucc(m, Side * hi);
    }
  }

  lemma MulSucc(n: int, k: int)
    ensures n * k == (n - 1) * k + k
  {
  }

  /** The stored value lies between the least and the greatest sample of its
      window, so in particular within [0, 255]. */
  lemma BoxBlurValueWithin(s: seq<Byte>, width: int, height: int, x: int, y: int, c: int, lo: int, hi: int)
    requires Layout(s, width, height) && 0 <= c < Channels
    requires WindowWithin(s, width, height, x, y, c, lo, hi)
    ensures lo <= BoxBlurValue(s, width, height, x, y, c) <= hi
  {
    WindowSize();
    RowsSumWithin(s, width, height, x, y, c, Side, lo, hi);
  }

  /** Every pixel of the buffer has the same RGBA value. */
  predicate Uniform(s: seq<Byte>) {
    forall k :: 0 <= k < |s| ==> s[k] == s[k % Channels]
  }

  /** A uniform buffer is a fixed point of the pass, position by position. */
  lemma UniformIsFixed(s: seq<Byte>, width: int, height: int, x: int, y: int, c: int)
    requires Layout(s, width, height) && Uniform(s)
    requires 0 <= x < width && 0 <= y < height && 0 <= c < Channels
    ensures BoxBlurValue(s, width, height, x, y, c) == s[Idx(width, height, x, y, c)]
  {
    var v := s[c];
    assert s[Idx(width, height, x, y, c)] == v by {
      IdxChannel(width, height, x, y, c);
      var k := Idx(width, height, x, y, c);
      assert s[k] == s[k % Channels];
    }
    assert WindowWithin(s, width, height, x, y, c, v, v) by {
      forall dx, dy | -Radius <= dx <= Radius && -Radius <= dy <= Radius
        ensures v <= Sample(s, width, height, x, y, dx, dy, c) <= v
      {
        var i := SampleIndex(width, height, x, y, dx, dy, c);
        assert s[i] == s[i % Channels];
      }
    }
    BoxBlurValueWithin(s, width, height, x, y, c, v, v);
  }

  /** Two buffers hold the same values in channel c. */
  predicate SameChannel(s: seq<Byte>, t: seq<Byte>, c: int) {
    |s| == |t| && forall k :: 0 <= k < |s| && k % Channels == c ==> s[k] == t[k]
  }

  lemma {:induction false} RowSumSameChannel(s: seq<Byte>, t: seq<Byte>, width: int, height: int, x: int, y: int, c: int, dy: int, n: nat)
    requires Layout(s, width, height) && 0 <= c < Channels && SameChannel(s, t, c)
    ensures RowSum(s, width, height, x, y, c, dy, n) == RowSum(t, width, height, x, y, c, dy, n)
  {
    if n > 0 {
      RowSumSameChannel(s, t, width, height, x, y, c, dy, n - 1);
      var i := SampleIndex(width, height, x, y, n - 1 - Radius, dy, c);
      assert s[i] == t[i];
    }
  }

  lemma {:induction false} RowsSumSameChannel(s: seq<Byte>, t: seq<Byte>, width: int, height: int, x: int, y: int, c: int, m: nat)
    requires Layout(s, width, height) && 0 <= c < Channels && SameChannel(s, t, c)
    ensures RowsSum(s, width, height, x, y, c, m) == RowsSum(t, width, height, x, y, c, m)
  {
    if m > 0 {
      RowsSumSameChannel(s, t, width, height, x, y, c, m - 1);
      RowSumSameChannel(s, t, width, height, x, y, c, m - 1 - Radius, Side);
    }
  }

  /** Each output channel depends only on the same channel of the input. */
  lemma ChannelsIndependent(s: seq<Byte>, t: seq<Byte>, width: int, height: int, x: int, y: int, c: int)
    requires Layout(s, width, height) && 0 <= c < Channels && SameChannel(s, t, c)
    ensures BoxBlurValue(s, width, height, x, y, c) == BoxBlurValue(t, width, height, x, y, c)
  {
    RowsSumSameChannel(s, t, width, height, x, y, c, Side);
  }

  /** The four channel sums and the sample count over the window around (x, y)
      (main.js:19-34). */
  method AccumulateWindow(pixels: array<Byte>, width: int, height: int, x: int, y: int)
    returns (r: int, g: int, b: int, a: int, count: int)
    requires Layout(pixels[..], width, height)
    ensures count == (2 * Radius + 1) * (2 * Radius + 1)
    ensures r == WindowSum(pixels[..], width, height, x, y, 0)
    ensures g == WindowSum(pixels[..], width, height, x, y, 1)
    ensures b == WindowSum(pixels[..], width, height, x, y, 2)
    ensures a == WindowSum(pixels[..], width, height, x, y, 3)
  {
    WindowSize();
    ghost var s := pixels[..];
    r, g, b, a := 0, 0, 0, 0;
    count := 0;
    for dy := -Radius to Radius + 1
      invariant count == (dy + Radius) * Side
      invariant r == RowsSum(s, width, height, x, y, 0, dy + Radius)
      invariant g == RowsSum(s, width, height, x, y, 1, dy + Radius)
      invariant b == RowsSum(s, width, height, x, y, 2, dy + Radius)
      invariant a == RowsSum(s, width, height, x, y, 3, dy + Radius)
    {
      ghost var r0, g0, b0, a0 := r, g, b, a;
      for dx := -Radius to Radius + 1
        invariant count == (dy + Radius) * Side + (dx + Radius)
        invariant r == r0 + RowSum(s, width, height, x, y, 0, dy, dx + Radius)
        invariant g == g0 + RowSum(s, width, height, x, y, 1, dy, dx + Radius)
        invariant b == b0 + RowSum(s, width, height, x, y, 2, dy, dx + Radius)
        invariant a == a0 + RowSum(s, width, height, x, y, 3, dy, dx + Radius)
      {
        var px := Clamp(x + dx, width);
        var py := Clamp(y + dy, height);
        var i := Idx(width, height, px, py, 0);
        r := r + pixels[i];
        g := g + pixels[i + 1];
        b := b + pixels[i + 2];
        a := a + pixels[i + 3];
        count := count + 1;
      }
    }
  }

  /** The first pass: a fresh buffer holding, for every pixel and channel, the
      rounded window mean of `pixels` (main.js:13-42). `pixels` is only read. */
  method BoxBlurPass(pixels: array<Byte>, width: nat, height: nat) returns (temp: array<Byte>)
    requires pixels.Length == width * height * Channels
    ensures temp != pixels && temp.Length == pixels.Length
    ensures forall x, y, c :: 0 <= x < width && 0 <= y < height && 0 <= c < Channels ==>
              temp[Idx(width, height, x, y, c)] == BoxBlurValue(pixels[..], width, height, x, y, c)
    ensures Uniform(pixels[..]) ==> temp[..] == pixels[..]
  {
    ghost var s := pixels[..];
    temp := new Byte[pixels.Length](_ => 0);
    for y := 0 to height
      invariant forall yy, xx, c :: 0 <= xx < width && 0 <= yy < y && 0 <= c < Channels ==>
                  temp[Idx(width, height, xx, yy, c)] == BoxBlurValue(s, width, height, xx, yy, c)
    {
      for x := 0 to width
        invariant forall yy, xx, c :: ScannedBefore(width, xx, yy, x, y) && 0 <= c < Channels ==>
                    temp[Idx(width, height, xx, yy, c)] == BoxBlurValue(s, width, height, xx, yy, c)
      {
        var r, g, b, a, count := AccumulateWindow(pixels, width, height, x, y);
        assert count == Area;
        StoreValues(s, width, height, x, y, r, g, b, a);
        ghost var before := temp[..];
        var i := Idx(width, height, x, y, 0);
        assert Idx(width, height, x, y, 3) == i + 3;
        temp[i] := ToUint8Clamp(r as real / count as real);
        temp[i + 1] := ToUint8Clamp(g as real / count as real);
        temp[i + 2] := ToUint8Clamp(b as real / count as real);
        temp[i + 3] := ToUint8Clamp(a as real / count as real);
        assert temp[i] == BoxBlurValue(s, width, height, x, y, 0);
        assert temp[i + 1] == BoxBlurValue(s, width, height, x, y, 1);
        assert temp[i + 2] == BoxBlurValue(s, width, height, x, y, 2);
        assert temp[i + 3] == BoxBlurValue(s, width, height, x, y, 3);
        forall yy, xx, c | ScannedBefore(width, xx, yy, x + 1, y) && 0 <= c < Channels
          ensures temp[Idx(width, height, xx, yy, c)] == BoxBlurValue(s, width, height, xx, yy, c)
        {
          if yy == y && xx == x {
            assert Idx(width, height, xx, yy, c) == i + c;
            assert c == 0 || c == 1 || c == 2 || c == 3;
          } else {
            IdxScanOrder(width, height, xx, yy, c, x, y);
            assert temp[Idx(width, height, xx, yy, c)] == before[Idx(width, height, xx, yy, c)];
          }
        }
      }
    }
    if Uniform(s) {
      UniformPassIsIdentity(s, temp[..], width, height);
    }
  }

  /** Pixel (xx, yy) comes before pixel (x, y) of row y in the scan order of
      the source's loops. */
  predicate ScannedBefore(width: int, xx: int, yy: int, x: int, y: int) {
    0 <= xx < width && (0 <= yy < y || (yy == y && xx < x))
  }

  /** The four stores of main.js:37-40 put the rounded means into the buffer. */
  lemma StoreValues(s: seq<Byte>, width: int, height: int, x: int, y: int, r: int, g: int, b: int, a: int)
    requires Layout(s, width, height)
    requires r == WindowSum(s, width, height, x, y, 0)
    requires g == WindowSum(s, width, height, x, y, 1)
    requires b == WindowSum(s, width, height, x, y, 2)
    requires a == WindowSum(s, width, height, x, y, 3)
    ensures ToUint8Clamp(r as real / Area as real) == BoxBlurValue(s, width, height, x, y, 0)
    ensures ToUint8Clamp(g as real / Area as real) == BoxBlurValue(s, width, height, x, y, 1)
    ensures ToUint8Clamp(b as real / Area as real) == BoxBlurValue(s, width, height, x, y, 2)
    ensures ToUint8Clamp(a as real / Area as real) == BoxBlurValue(s, width, height, x, y, 3)
  {
    forall c | 0 <= c < Channels
      ensures 0 <= WindowSum(s, width, height, x, y, c) <= 255 * Area
      ensures ToUint8Clamp(WindowSum(s, width, height, x, y, c) as real / Area as real)
              == BoxBlurValue(s, width, height, x, y, c)
    {
      RowsSumWithin(s, width, height, x, y, c, Side, 0, 255);
      StoreIsRoundedMean(WindowSum(s, width, height, x, y, c));
    }
  }

  /** On a uniform buffer the pass returns a copy of its input. */
  lemma UniformPassIsIdentity(s: seq<Byte>, t: seq<Byte>, width: nat, height: nat)
    requires |s| == width * height * Channels && |t| == |s| && Uniform(s)
    requires forall x, y, c :: 0 <= x < width && 0 <= y < height && 0 <= c < Channels ==>
               t[Idx(width, height, x, y, c)] == BoxBlurValue(s, width, height, x, y, c)
    ensures t == s
  {
    forall k | 0 <= k < |s|
      ensures t[k] == s[k]
    {
      IdxCovers(width, height, k);
      var x, y, c :| 0 <= x < width && 0 <= y < height && 0 <= c < Channels && Idx(width, height, x, y, c) == k;
      UniformIsFixed(s, width, height, x, y, c);
    }
  }
}
