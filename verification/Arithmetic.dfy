/** std::min on integers. */
module Arithmetic {
  function Min(a: int, b: int): (least: int)
    ensures least <= a && least <= b && (least == a || least == b)
  {
    if a <= b then a else b
  }
}
