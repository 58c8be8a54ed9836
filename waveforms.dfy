/**
  The waveform generator: the per-harmonic vertical amplitude under one of the
  selectable modes, and the value and error state of the custom formula.
*/
module Waveforms {
  import opened Wrappers
  import opened MathModel

  /** The message the custom formula's error state holds after a failure. */
  const InvalidFormulaMessage: string := "Invalid formula. Please check your input."

  /** The mode names the dispatch recognises; every other name behaves as "sine". */
  predicate IsKnownMode(mode: string) {
    mode == "sine" || mode == "square" || mode == "triangle" || mode == "sawtooth" || mode == "custom"
  }

  /** The argument every mode works on: the harmonic index times the angular time. */
  function Phase(n: int, t: real): real {
    n as real * t
  }

  /** The phase measured in periods, u = t·n/(2π). */
  function Periods(n: int, t: real): real {
    t * (n as real) / (2.0 * Pi)
  }

  /** The sawtooth ramp 2·(u − floor(0.5 + u)): it reaches −1 at half periods and stays below 1. */
  function Sawtooth(n: int, t: real): (r: real)
    ensures -1.0 <= r < 1.0
  {
    var u := Periods(n, t);
    var f := (0.5 + u).Floor;
    assert f as real <= 0.5 + u < f as real + 1.0;
    2.0 * (u - f as real)
  }

  /** The lower end of the range is reached: half a period in, the ramp is at −1. */
  lemma SawtoothAtHalfPeriod(n: int)
    requires n != 0
    ensures Sawtooth(n, Pi / (n as real)) == -1.0
  {
    var m := n as real;
    assert Pi / m * m == Pi;
    assert Periods(n, Pi / m) == 0.5;
  }

  /** Advancing t by 2π/n moves u up by exactly one period. */
  lemma PeriodsShift(n: int, t: real)
    requires n != 0
    ensures Periods(n, t + 2.0 * Pi / (n as real)) == Periods(n, t) + 1.0
  {
    var m := n as real;
    assert 2.0 * Pi / m * m == 2.0 * Pi;
    calc {
      Periods(n, t + 2.0 * Pi / m);
      (t + 2.0 * Pi / m) * m / (2.0 * Pi);
      (t * m + 2.0 * Pi / m * m) / (2.0 * Pi);
      (t * m + 2.0 * Pi) / (2.0 * Pi);
      t * m / (2.0 * Pi) + 1.0;
    }
  }

  /** The sawtooth repeats with period 2π/n. */
  lemma SawtoothPeriodic(n: int, t: real)
    requires n != 0
    ensures Sawtooth(n, t + 2.0 * Pi / (n as real)) == Sawtooth(n, t)
  {
    var u := Periods(n, t);
    PeriodsShift(n, t);
    var f := (0.5 + u).Floor;
    assert (0.5 + (u + 1.0)).Floor == f + 1 by {
      assert f as real <= 0.5 + u < f as real + 1.0;
      assert (f + 1) as real <= 0.5 + (u + 1.0) < (f + 1) as real + 1.0;
    }
  }

  /** The value the formula wrapper returns: the evaluator's result, or 0 when it throws. */
  function FormulaValue(lib: MathLib, formula: string, x: real): (r: real)
    ensures lib.evaluate(formula, x).Some? ==> r == lib.evaluate(formula, x).value
    ensures lib.evaluate(formula, x).None? ==> r == 0.0
  {
    match lib.evaluate(formula, x)
    case Some(v) => v
    case None => 0.0
  }

  /** The error state the formula wrapper leaves: cleared on success, the message on failure. */
  function FormulaError(lib: MathLib, formula: string, x: real): (e: Option<string>)
    ensures e.None? <==> lib.evaluate(formula, x).Some?
    ensures e.Some? ==> e.value == InvalidFormulaMessage
  {
    if lib.evaluate(formula, x).Some? then None else Some(InvalidFormulaMessage)
  }

  /** The amplitude of harmonic n at angular time t under the named mode. */
  function Value(lib: MathLib, mode: string, formula: string, n: int, t: real): (r: real)
    ensures mode == "square" ==> r == -1.0 || r == 0.0 || r == 1.0
    ensures mode == "sawtooth" ==> -1.0 <= r < 1.0
    ensures !IsKnownMode(mode) ==> r == lib.sin(Phase(n, t))
  {
    var x := Phase(n, t);
    if mode == "sine" then lib.sin(x)
    else if mode == "square" then Sign(lib.sin(x))
    else if mode == "triangle" then lib.asin(lib.sin(x)) * (2.0 / Pi)
    else if mode == "sawtooth" then Sawtooth(n, t)
    else if mode == "custom" then FormulaValue(lib, formula, x)
    else lib.sin(x)
  }

  /** Sine mode is sin(n·t), and every unrecognised mode gives the same value as sine. */
  lemma FallbackIsSine(lib: MathLib, mode: string, formula: string, n: int, t: real)
    ensures Value(lib, "sine", formula, n, t) == lib.sin(n as real * t)
    ensures !IsKnownMode(mode) ==> Value(lib, mode, formula, n, t) == Value(lib, "sine", formula, n, t)
  {
  }

  /** Square mode is the sign of sin(n·t): positive, negative or zero exactly when the sine is. */
  lemma SquareFollowsSine(lib: MathLib, formula: string, n: int, t: real)
    ensures var r := Value(lib, "square", formula, n, t);
      (r == 1.0 <==> lib.sin(n as real * t) > 0.0) &&
      (r == -1.0 <==> lib.sin(n as real * t) < 0.0) &&
      (r == 0.0 <==> lib.sin(n as real * t) == 0.0)
  {
  }

  /** Custom mode evaluates the formula at x = n·t, falling back to 0 on failure. */
  lemma CustomEvaluatesAtPhase(lib: MathLib, formula: string, n: int, t: real)
    ensures var r := Value(lib, "custom", formula, n, t);
      match lib.evaluate(formula, n as real * t)
      case Some(v) => r == v
      case None => r == 0.0
  {
  }

  /** Triangle mode stays in [−1, 1] when asin keeps to its principal range [−π/2, π/2]. */
  lemma TriangleBounded(lib: MathLib, formula: string, n: int, t: real)
    requires -Pi / 2.0 <= lib.asin(lib.sin(n as real * t)) <= Pi / 2.0
    ensures -1.0 <= Value(lib, "triangle", formula, n, t) <= 1.0
  {
  }
}
