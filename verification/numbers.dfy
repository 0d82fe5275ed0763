/** Integer minimum and maximum, used for slice lengths and retry bounds. */
module Numbers {

  function Min(a: int, b: int): int
  {
    if a <= b then a else b
  }

  function Max(a: int, b: int): int
  {
    if a >= b then a else b
  }
}
