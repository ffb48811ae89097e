# text-blur: region blur core in Dafny

text-blur is a browser page. It runs OCR on an uploaded image and blurs every
detected word in place. The page has two parts with real logic, both in
`main.js`, and this project models them:

- **Region resolution** (`main.js:105-109`). Each word's bounding box gets a
  fixed 15-pixel margin. It then becomes the integer rectangle that is
  extracted, blurred and written back.
  `x = max(0, floor(x0 - 15))` and `width = min(canvasWidth - x, ceil(x1 - x0 + 30))`.
  `y` and `height` are computed the same way.
- **The first, box-blur pass of `applyNaturalBlur`** (`main.js:9-42`). Each
  channel of each pixel becomes the mean of that channel over a 41 x 41
  window. Window coordinates are clamped to the edge. The result is stored
  into a separate `Uint8ClampedArray`. The store applies ToUint8Clamp
  (section 7.1.12 of ECMA-262): round to nearest, ties to even, then clamp to
  [0, 255]. The window always holds 1681 samples, an odd number. So
  `sum / 1681` is never halfway between two integers. The stored value is
  therefore exactly `(2 * sum + 1681) / (3362)` in integer division, and the
  model proves this.

Files:

- `indexing.dfy` (module `Indexing`): the `Byte` channel type, the
  clamp-to-edge coordinate `Clamp`, the flat RGBA position `Idx`, and
  `SampleIndex`. Both passes share this indexing (`main.js:24-26` and
  `main.js:53-55`).
- `regions.dfy` (module `Regions`): bounding boxes as reals, since JavaScript
  numbers are used. It defines `Resolve` and its coverage lemmas.
- `uint8_clamp.dfy` (module `Uint8Clamp`): ToUint8Clamp on reals.
- `box_blur.dfy` (module `BoxBlur`): the window sums as specification
  functions. It has the imperative pass (`AccumulateWindow`, `BoxBlurPass`
  over `array<Byte>`, with the source's four nested loops) and the lemmas
  about what the pass stores.

Three points of main.js:105-109 matter for the bounds below. The model
follows the code as written:

- `x` and `y` are clamped below at 0 only. Nothing clamps them to `width - 1`
  or `height - 1`.
- `width` and `height` are clamped above only. Nothing clamps them at 0.
  A box that starts 16 or more pixels right of the canvas gives a negative
  width (`Regions.ResolveBeyondRightEdge`).
- The padding is the constant 15. It is not a parameter.

## Model

| member | source | states |
|---|---|---|
| `Indexing.Clamp` | main.js:24-25 | `Math.min(Math.max(v, 0), n - 1)` is at most `n - 1`. For `n >= 1` it lies in `[0, n)`, is `v` itself when `v` is in range, and is the valid position nearest to `v`. |
| `Indexing.Idx` | main.js:26 | `(y * width + x) * 4 + c` lies in `[0, width * height * 4)` for every in-bounds pixel and channel. |
| `Indexing.SampleIndex` | main.js:24-26 | The clamped sample position lies in `[0, width * height * 4)` for every offset `(dx, dy)`, whenever `width, height >= 1`. Its remainder mod 4 is the channel. The second pass (main.js:53-55) uses the same expression with `dx, dy` in `[-2, 2]`, so this covers it too. |
| `Indexing.IdxScanOrder` | main.js:17-18 | The pixels visited before `(x, y)` by the row-then-column loops have all their channels stored before channel 0 of `(x, y)`. So the pass never overwrites a finished pixel. |
| `Indexing.IdxCovers` | main.js:17-18 | Every position of a `width * height * 4` buffer is channel `c` of some pixel `(x, y)` that the loops visit. |
| `Indexing.IdxInjective` | main.js:36 | Two in-bounds (pixel, channel) pairs stored at the same position are the same pair. With `IdxCovers`, every position of the buffer belongs to exactly one pixel and channel. |
| `Regions.Floor` | main.js:106-107 | `Math.floor`: the result is at most `v` and more than `v - 1`. |
| `Regions.Ceil` | main.js:108-109 | `Math.ceil`, written `-floor(-v)`: the result is at least `v` and less than `v + 1`. |
| `Regions.Resolve` | main.js:105-109 | For every box, the resolved `x` and `y` are non-negative, and `x + width <= canvas.width` and `y + height <= canvas.height`. The region never starts right of `max(0, floor(x0))` or below `max(0, floor(y0))`. |
| `Regions.ResolveCoversBox` | main.js:105-109 | For a box inside the image, width and height are non-negative, `x <= x0`, `x1 <= x + width`, `y <= y0` and `y1 <= y + height`. The region covers the detected box. |
| `Regions.ResolveCoversPaddedBox` | main.js:105-109 | For a box with whole-pixel corners inside the image, `x = max(0, x0 - 15)`, and `x + width` reaches at least `min(canvas.width, x1 + 15)`; the same holds for y. The full 15-pixel margin is covered, cut only by the image edge. |
| `Regions.ResolveFarMargin` | main.js:106-109 | For every box inside the image, `x + width` is either `canvas.width` or more than `x1 + 14`, and the same holds for y. The far margin can fall short of 15 pixels, but by less than one. |
| `Regions.ResolveFractionalMargin` | main.js:106-108 | The shortfall really happens. The box (20.5, 0, 20.5, 0) gives x = 5 and width = 30, which ends at 35 < 35.5. |
| `Regions.ResolveBeyondRightEdge` | main.js:106-108 | A box with `x0 >= canvas.width + 16` resolves to `x > canvas.width` and a negative width. Nothing clamps either value. |
| `Regions.ResolveCornerScenario` | main.js:105-109 | On a 10 x 10 canvas, the box (0, 0, 1, 1) resolves to the whole image (0, 0, 10, 10). |
| `Uint8Clamp.ToUint8Clamp` | main.js:37-40 | Storing a number into the `Uint8ClampedArray` gives 0 for values <= 0 and 255 for values >= 255. In between it gives an integer within 0.5 of the value. |
| `Uint8Clamp.TiesToEven` | main.js:37-40 | A value exactly halfway between two integers is stored as the even one. |
| `BoxBlur.RoundedMean` | main.js:37-40 | `(2 * sum + 1681) / 3362` is the integer nearest to `sum / 1681`: `2 * 1681 * m - 1681 <= 2 * sum < 2 * 1681 * m + 1681`. |
| `BoxBlur.StoreIsRoundedMean` | main.js:37-40 | For every window sum in `[0, 255 * 1681]`, `ToUint8Clamp(sum / 1681)` equals `RoundedMean(sum)`. The rounding of the stored quotient is thus bit-exact in integers. |
| `BoxBlur.AccumulateWindow` | main.js:19-34 | After the two window loops, `count` is `(2 * 20 + 1)^2 = 1681`, whatever the pixel position. `r, g, b, a` are the window sums of channels 0-3 over the clamped 41 x 41 window. |
| `BoxBlur.StoreValues` | main.js:36-40 | The four stores `tempPixels[i + c] = sum_c / count` put exactly the rounded window mean of channel `c` into the buffer. |
| `BoxBlur.BoxBlurPass` | main.js:13-42 | Returns a separate buffer (`temp != pixels`) of the same length. For every pixel `(x, y)` and channel `c`, it holds the rounded mean of channel `c` over the clamped window of `pixels`. If every pixel of `pixels` has the same RGBA value, `temp` equals `pixels` exactly. The method has no `modifies` clause, so `pixels` is unchanged. |
| `BoxBlur.BoxBlurValueWithin` | main.js:28-40 | If every sample of the window lies in `[lo, hi]`, so does the stored value. So the value lies between the window's minimum and maximum, and in particular within [0, 255]. |
| `BoxBlur.ChannelsIndependent` | main.js:28-40 | Two inputs that agree on channel `c` give the same output in channel `c`. Each output channel depends only on the same input channel. |
| `BoxBlur.UniformIsFixed` | main.js:37-40 | If every pixel has the same RGBA value, the value stored for each pixel and channel equals the input value there. |
| `BoxBlur.UniformPassIsIdentity` | main.js:13-42 | If every pixel has the same RGBA value, any buffer that holds the pass's values at every pixel and channel equals `pixels` exactly. `BoxBlurPass` uses it to state that its result equals `pixels` on uniform input. |

## Left out

- Second pass of `applyNaturalBlur` (main.js:44-73): its weights come from
  `Math.exp` with sigma 30, and its sums and divisions are IEEE doubles. This
  floating-point arithmetic is not modelled. Only its clamp-to-edge indexing
  is modelled, through `Indexing.SampleIndex`.
- The write-back of the second pass into `imageData.data` is left out with
  the second pass. So the in-place update of the region is not modelled.
- `BoxBlur.BoxBlurPass`: models `r / count` as exact real division. JavaScript
  computes it as a double. The exact quotient is at least 1/3362 away from
  any half-integer, and the double's rounding error is far smaller. So the
  stored byte is the same, but this argument is not part of the proofs.
- `Regions.Resolve`: coordinates are exact reals, not IEEE doubles. NaN and
  infinities are not modelled.
- Canvas API (`getContext`, `drawImage`, `getImageData`, `putImageData`,
  main.js:6, 90, 112, 118): browser calls whose semantics are not part of this
  model. This covers the extraction and write-back of each region, and the
  exception `getImageData` raises for a zero width or height.
- The per-word loop of `processImage` (main.js:101-119) only chains
  `Resolve`, the canvas calls and `applyNaturalBlur`. With the canvas calls
  left out, it is not modelled. The order in which overlapping regions are
  processed is therefore not captured.
- The OCR call `Tesseract.recognize` (main.js:96-98): a foreign asynchronous
  library. Bounding boxes are parameters of the model.
- DOM and UI wiring, file loading through `Image` and `URL.createObjectURL`,
  the loading indicator, `alert`, and the async control flow (main.js:1-7,
  79-93, 121-156): these have no algorithmic content.
