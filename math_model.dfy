/**
  The numeric environment of the visualiser. The browser's Math.sin, Math.cos
  and Math.asin and the mathjs `evaluate` function are not modelled: they are
  the fields of a MathLib value that every computation receives, so nothing is
  assumed about them beyond what a lemma states as a hypothesis.
*/
module MathModel {
  import opened Wrappers

  /** Math.PI, written as the decimal literal JavaScript prints for it. */
  const Pi: real := 3.141592653589793

  /** The foreign functions the animation calls. `evaluate(formula, x)` is
      mathjs evaluating `formula` with the scope { x }, None when it throws. */
  datatype MathLib = MathLib(
    sin: real -> real,
    cos: real -> real,
    asin: real -> real,
    evaluate: (string, real) -> Option<real>)

  /** Math.cos as a call from the animation loop. Applying the field `lib.cos`
      inside a method reads it through the heap; this wrapper lets the loop's
      cosine and the one in the chain's specification be the same term. */
  function Cos(lib: MathLib, x: real): real {
    lib.cos(x)
  }

  function Min(a: int, b: int): int {
    if a <= b then a else b
  }

  function Max(a: int, b: int): int {
    if a >= b then a else b
  }

  /** Math.sign on a real (no NaN and no negative zero). */
  function Sign(x: real): (r: real)
    ensures r == -1.0 || r == 0.0 || r == 1.0
    ensures r > 0.0 <==> x > 0.0
    ensures r < 0.0 <==> x < 0.0
  {
    if x > 0.0 then 1.0 else if x < 0.0 then -1.0 else 0.0
  }
}
