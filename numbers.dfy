/** `Math.min` and `Math.max` on integers, shared by the carousel
    clamps and the scroll mapping. */
module Numbers {
  function Min(a: int, b: int): int { if a <= b then a else b }
  function Max(a: int, b: int): int { if a >= b then a else b }
}
