/** The conversion applied when a number is stored into a Uint8ClampedArray:
    ToUint8Clamp of section 7.1.12 of ECMA-262. The number is taken to be a
    real (never NaN): round to the nearest integer, ties to even, then clamp
    to [0, 255]. */
module Uint8Clamp {
  import opened Indexing

  function ToUint8Clamp(v: real): (r: Byte)
    ensures v <= 0.0 ==> r == 0
    ensures 255.0 <= v ==> r == 255
    ensures 0.0 <= v <= 255.0 ==> v - 0.5 <= r as real <= v + 0.5
  {
    if v <= 0.0 then 0
    else if 255.0 <= v then 255
    else
      var f := v.Floor;
      if f as real + 0.5 < v then f + 1
      else if v < f as real + 0.5 then f
      else if f % 2 == 1 then f + 1
      else f
  }

  /** Ties go to the even neighbour. */
  lemma TiesToEven(k: int)
    requires 0 <= k < 255
    ensures ToUint8Clamp(k as real + 0.5) % 2 == 0
  {
  }
}
