/** Integer helpers shared by the scoring and pacing rules. */
module Numbers {

  function Max(a: int, b: int): (m: int) { if a >= b then a else b }

  function Min(a: int, b: int): (m: int) { if a <= b then a else b }
}
