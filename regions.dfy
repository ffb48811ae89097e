/** Turning an OCR word's bounding box into the integer rectangle that
    processImage extracts, blurs and writes back (main.js:105-109).
    Coordinates are JavaScript numbers, modelled as reals. */
module Regions {

  /** The fixed margin added on every side of a detected word. */
  const Padding := 15

  /** A detected word's box, in image coordinates. */
  datatype BBox = BBox(x0: real, y0: real, x1: real, y1: real)

  /** The rectangle handed to getImageData / putImageData. */
  datatype Region = Region(x: int, y: int, width: int, height: int)

  /** Math.floor. */
  function Floor(v: real): (f: int)
    ensures f as real <= v < f as real + 1.0
  {
    v.Floor
  }

  /** Math.ceil. */
  function Ceil(v: real): (c: int)
    ensures c as real - 1.0 < v <= c as real
  {
    -((-v).Floor)
  }

  /** Math.max and Math.min on integers. */
  function Max(a: int, b: int): int { if a >= b then a else b }
  function Min(a: int, b: int): int { if a <= b then a else b }

  /** The region for one box on a canvas of canvasWidth * canvasHeight pixels.
      Only the lower edge of x and y and the upper edge of width and height are
      clamped; nothing else is. */
  function Resolve(box: BBox, canvasWidth: nat, canvasHeight: nat): (r: Region)
    ensures 0 <= r.x && 0 <= r.y
    ensures r.x + r.width <= canvasWidth && r.y + r.height <= canvasHeight
    ensures r.x <= Max(0, Floor(box.x0))
    ensures r.y <= Max(0, Floor(box.y0))
  {
    var x := Max(0, Floor(box.x0 - Padding as real));
    var y := Max(0, Floor(box.y0 - Padding as real));
    var width := Min(canvasWidth - x, Ceil(box.x1 - box.x0 + (Padding * 2) as real));
    var height := Min(canvasHeight - y, Ceil(box.y1 - box.y0 + (Padding * 2) as real));
    Region(x, y, width, height)
  }

  /** An interval [lo, hi] of one axis lies inside an image axis of n pixels. */
  predicate InsideAxis(lo: real, hi: real, n: nat) {
    0.0 <= lo <= hi <= n as real
  }

  /** For a box inside the image the region has a non-negative size and
      covers the detected box on both axes. */
  lemma ResolveCoversBox(box: BBox, canvasWidth: nat, canvasHeight: nat)
    requires InsideAxis(box.x0, box.x1, canvasWidth)
    requires InsideAxis(box.y0, box.y1, canvasHeight)
    ensures var r := Resolve(box, canvasWidth, canvasHeight);
            && 0 <= r.width && 0 <= r.height
            && r.x as real <= box.x0 && box.x1 <= (r.x + r.width) as real
            && r.y as real <= box.y0 && box.y1 <= (r.y + r.height) as real
  {
  }

  /** A box is integral when its corners are whole pixels, as Tesseract reports them. */
  predicate Integral(box: BBox) {
    box.x0 == box.x0.Floor as real && box.y0 == box.y0.Floor as real &&
    box.x1 == box.x1.Floor as real && box.y1 == box.y1.Floor as real
  }

  /** For an integral box inside the image the region covers the whole
      15-pixel margin on every side, cut off only by the image's edges. */
  lemma ResolveCoversPaddedBox(box: BBox, canvasWidth: nat, canvasHeight: nat)
    requires Integral(box)
    requires InsideAxis(box.x0, box.x1, canvasWidth)
    requires InsideAxis(box.y0, box.y1, canvasHeight)
    ensures var r := Resolve(box, canvasWidth, canvasHeight);
            && r.x == Max(0, box.x0.Floor - Padding)
            && r.y == Max(0, box.y0.Floor - Padding)
            && Min(canvasWidth, box.x1.Floor + Padding) <= r.x + r.width
            && Min(canvasHeight, box.y1.Floor + Padding) <= r.y + r.height
  {
  }

  /** For any box inside the image the far edge of the region is either the
      image's edge or more than 14 pixels past the box: the margin can fall
      short of 15 pixels, but by less than one. */
  lemma ResolveFarMargin(box: BBox, canvasWidth: nat, canvasHeight: nat)
    requires InsideAxis(box.x0, box.x1, canvasWidth)
    requires InsideAxis(box.y0, box.y1, canvasHeight)
    ensures var r := Resolve(box, canvasWidth, canvasHeight);
            && (r.x + r.width == canvasWidth || (r.x + r.width) as real > box.x1 + (Padding - 1) as real)
            && (r.y + r.height == canvasHeight || (r.y + r.height) as real > box.y1 + (Padding - 1) as real)
  {
  }

  /** The shortfall really happens with fractional corners: floor on x and
      ceil on the width do not compensate. */
  lemma ResolveFractionalMargin()
    ensures var r := Resolve(BBox(20.5, 0.0, 20.5, 0.0), 100, 100);
            r == Region(5, 0, 30, 30) && ((r.x + r.width) as real) < 20.5 + Padding as real
  {
  }

  /** Nothing keeps x below the canvas width: a box starting 16 or more pixels
      right of the image yields x beyond the canvas and a negative width. */
  lemma ResolveBeyondRightEdge(box: BBox, canvasWidth: nat, canvasHeight: nat)
    requires box.x0 >= canvasWidth as real + 16.0
    ensures var r := Resolve(box, canvasWidth, canvasHeight);
            r.x > canvasWidth && r.width < 0
  {
  }

  /** A 10 x 10 image with a box at its top-left corner is blurred whole. */
  lemma ResolveCornerScenario()
    ensures Resolve(BBox(0.0, 0.0, 1.0, 1.0), 10, 10) == Region(0, 0, 10, 10)
  {
  }
}
