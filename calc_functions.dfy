/** The integer and float helpers of goDASH's utils package. */
module CalcFunctions {

  /** utils.Max */
  function Max(x: int, y: int): (r: int)
    ensures r >= x && r >= y
    ensures r == x || r == y
  {
    if x < y then y else x
  }

  /** utils.MaxFloat (NaN operands are not modelled) */
  function MaxFloat(x: real, y: real): (r: real)
    ensures r >= x && r >= y
    ensures r == x || r == y
  {
    if x < y then y else x
  }

  /** utils.Min */
  function Min(x: int, y: int): (r: int)
    ensures r <= x && r <= y
    ensures r == x || r == y
  {
    if x > y then y else x
  }

  /** utils.Abs */
  function Abs(x: int): (r: int)
    ensures r >= 0
    ensures x >= 0 ==> r == x
    ensures x < 0 ==> r == -x
  {
    if x < 0 then -x else x
  }
}
