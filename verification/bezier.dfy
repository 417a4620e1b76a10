/**
 * The cubic-bezier easing of the engine (the `BezierEasing` factory and its
 * helpers). A curve starts at (0, 0), ends at (1, 1) and has the two control
 * points (x1, y1) and (x2, y2). An easing maps a time fraction x to a
 * progress y: it inverts x(t) with a sample table, Newton-Raphson steps or
 * bisection, and then evaluates y(t).
 *
 * Numbers are exact reals: floating-point rounding is not modelled.
 */
module Bezier {
  import opened Wrappers

  const NewtonIterations: nat := 4
  const NewtonMinSlope: real := 0.001
  const SubdivisionPrecision: real := 0.0000001
  const SubdivisionMaxIterations: nat := 10

  const SplineTableSize: nat := 11
  const SampleStepSize: real := 0.1  // 1 / (SplineTableSize - 1)

  datatype Controls = Controls(x1: real, y1: real, x2: real, y2: real)

  /** The x values of both control points lie in [0, 1]: x(t) then behaves like time. */
  predicate TimeLike(c: Controls) {
    0.0 <= c.x1 <= 1.0 && 0.0 <= c.x2 <= 1.0
  }

  type ValidControls = c: Controls | TimeLike(c) witness Controls(0.0, 0.0, 1.0, 1.0)

  /** Control points on the diagonal: the easing is the identity. */
  predicate IsLinear(c: Controls) {
    c.x1 == c.y1 && c.x2 == c.y2
  }

  function Abs(x: real): real {
    if x < 0.0 then -x else x
  }

  // Polynomial coefficients of one coordinate of the curve.
  function A(aA1: real, aA2: real): real { 1.0 - 3.0 * aA2 + 3.0 * aA1 }
  function B(aA1: real, aA2: real): real { 3.0 * aA2 - 6.0 * aA1 }
  function C(aA1: real): real { 3.0 * aA1 }

  /** One coordinate of the curve at parameter aT, given that coordinate of both control points. */
  function CalcBezier(aT: real, aA1: real, aA2: real): (r: real)
    ensures aT == 0.0 ==> r == 0.0
    ensures aT == 1.0 ==> r == 1.0
  {
    ((A(aA1, aA2) * aT + B(aA1, aA2)) * aT + C(aA1)) * aT
  }

  /** The derivative of CalcBezier with respect to aT. */
  function GetSlope(aT: real, aA1: real, aA2: real): real {
    3.0 * A(aA1, aA2) * aT * aT + 2.0 * B(aA1, aA2) * aT + C(aA1)
  }

  /**
   * The polynomial form is the Bernstein form of the cubic Bezier curve from
   * 0 to 1 with inner control values aA1 and aA2, and GetSlope its derivative.
   */
  lemma BernsteinForm(aT: real, aA1: real, aA2: real)
    ensures CalcBezier(aT, aA1, aA2)
            == 3.0 * (1.0 - aT) * (1.0 - aT) * aT * aA1 + 3.0 * (1.0 - aT) * aT * aT * aA2 + aT * aT * aT
    ensures GetSlope(aT, aA1, aA2)
            == 3.0 * (1.0 - aT) * (1.0 - aT) * aA1 + 6.0 * (1.0 - aT) * aT * (aA2 - aA1)
               + 3.0 * aT * aT * (1.0 - aA2)
  {
  }

  /**
   * The coefficients of the power form: they sum to 1, so the curve ends
   * at 1; C is the slope at 0 and 3A + 2B + C the slope at 1, so the curve
   * leaves 0 towards the first control value and reaches 1 from the second.
   */
  lemma CoefficientsAtEnds(aA1: real, aA2: real)
    ensures A(aA1, aA2) + B(aA1, aA2) + C(aA1) == 1.0
    ensures C(aA1) == GetSlope(0.0, aA1, aA2) == 3.0 * aA1
    ensures 3.0 * A(aA1, aA2) + 2.0 * B(aA1, aA2) + C(aA1) == GetSlope(1.0, aA1, aA2) == 3.0 * (1.0 - aA2)
  {
  }

  /** The divided difference of CalcBezier between s and t. */
  function Secant(s: real, t: real, aA1: real, aA2: real): real {
    A(aA1, aA2) * (t * t + t * s + s * s) + B(aA1, aA2) * (t + s) + C(aA1)
  }

  /** GetSlope is the derivative of CalcBezier: the divided difference tends to it. */
  lemma SlopeIsDerivative(s: real, t: real, aA1: real, aA2: real)
    ensures CalcBezier(t, aA1, aA2) - CalcBezier(s, aA1, aA2) == (t - s) * Secant(s, t, aA1, aA2)
    ensures Secant(t, t, aA1, aA2) == GetSlope(t, aA1, aA2)
  {
  }

  // ---------------------------------------------------------------------------
  // The sample table

  /** Entry i of the sample table: x at the parameter i * SampleStepSize. */
  function SampleValue(i: nat, x1: real, x2: real): real {
    CalcBezier(i as real * SampleStepSize, x1, x2)
  }

  /** For time-like controls the sample table is strictly increasing, from 0 to 1. */
  lemma SampleTableIncreasing(k: nat, x1: real, x2: real)
    requires k < SplineTableSize - 1
    requires 0.0 <= x1 <= 1.0 && 0.0 <= x2 <= 1.0
    ensures SampleValue(k, x1, x2) < SampleValue(k + 1, x1, x2)
    ensures SampleValue(0, x1, x2) == 0.0 && SampleValue(SplineTableSize - 1, x1, x2) == 1.0
  {
    assert SampleStepSize == 0.1;
    StepIncreasing(k as real * 0.1, (k + 1) as real * 0.1, x1, x2);
  }

  // The ten table steps, each of them linear in the control values.
  lemma StepIncreasing(s: real, t: real, x1: real, x2: real)
    requires 0.0 <= x1 <= 1.0 && 0.0 <= x2 <= 1.0
    requires (s, t) in {(0.0, 0.1), (0.1, 0.2), (0.2, 0.3), (0.3, 0.4), (0.4, 0.5),
                        (0.5, 0.6), (0.6, 0.7), (0.7, 0.8), (0.8, 0.9), (0.9, 1.0)}
    ensures CalcBezier(s, x1, x2) < CalcBezier(t, x1, x2)
  {
  }

  /**
   * The scan of `getTForX`: starting at sample k, the index just before the
   * first sample above aX, or the last interval when there is none.
   */
  function IntervalIndex(aX: real, x1: real, x2: real, k: nat): (c: nat)
    requires 1 <= k <= SplineTableSize - 1
    ensures k - 1 <= c <= SplineTableSize - 2
    ensures forall j :: k <= j <= c ==> SampleValue(j, x1, x2) <= aX
    ensures c < SplineTableSize - 2 ==> SampleValue(c + 1, x1, x2) > aX
    decreases SplineTableSize - k
  {
    if k == SplineTableSize - 1 || SampleValue(k, x1, x2) > aX then k - 1
    else IntervalIndex(aX, x1, x2, k + 1)
  }

  /** On [0, 1) the scan finds the table interval that contains aX. */
  lemma IntervalBrackets(aX: real, x1: real, x2: real)
    requires 0.0 <= x1 <= 1.0 && 0.0 <= x2 <= 1.0
    requires 0.0 <= aX < 1.0
    ensures var c := IntervalIndex(aX, x1, x2, 1);
            SampleValue(c, x1, x2) <= aX < SampleValue(c + 1, x1, x2)
  {
    var c := IntervalIndex(aX, x1, x2, 1);
    SampleTableIncreasing(0, x1, x2);
  }

  lemma QuotientInUnit(num: real, den: real)
    requires 0.0 <= num < den
    ensures 0.0 <= num / den < 1.0
  {
  }

  /** The start of the table interval that the scan picks. */
  function IntervalStart(c: ValidControls, aX: real): (r: real)
    ensures 0.0 <= r <= 1.0 - SampleStepSize
  {
    IntervalIndex(aX, c.x1, c.x2, 1) as real * SampleStepSize
  }

  /** Linear interpolation of aX between the table values lo and hi of an interval starting at start. */
  function Interpolate(start: real, lo: real, hi: real, aX: real): (r: real)
    requires lo < hi
    ensures lo <= aX < hi ==> start <= r < start + SampleStepSize
  {
    var q := (aX - lo) / (hi - lo);
    assert lo <= aX < hi ==> 0.0 <= q < 1.0 by {
      if lo <= aX < hi {
        QuotientInUnit(aX - lo, hi - lo);
      }
    }
    start + q * SampleStepSize
  }

  /** The first guess for t: interpolation inside the picked interval. */
  function InitialGuess(c: ValidControls, aX: real): real {
    var k := IntervalIndex(aX, c.x1, c.x2, 1);
    SampleTableIncreasing(k, c.x1, c.x2);
    Interpolate(IntervalStart(c, aX), SampleValue(k, c.x1, c.x2), SampleValue(k + 1, c.x1, c.x2), aX)
  }

  /** On [0, 1) the first guess lies in the picked interval, so in [0, 1). */
  lemma InitialGuessInInterval(c: ValidControls, aX: real)
    requires 0.0 <= aX < 1.0
    ensures IntervalStart(c, aX) <= InitialGuess(c, aX) < IntervalStart(c, aX) + SampleStepSize
    ensures 0.0 <= InitialGuess(c, aX) < 1.0
  {
    IntervalBrackets(aX, c.x1, c.x2);
  }

  // ---------------------------------------------------------------------------
  // Refining the guess

  /** n Newton-Raphson steps for x(t) == aX from guess, stopping at a zero slope. */
  function NewtonRaphson(aX: real, guess: real, x1: real, x2: real, n: nat): real
    decreases n
  {
    if n == 0 then guess
    else
      var slope := GetSlope(guess, x1, x2);
      if slope == 0.0 then guess
      else NewtonRaphson(aX, guess - (CalcBezier(guess, x1, x2) - aX) / slope, x1, x2, n - 1)
  }

  /** A guess that already solves x(t) == aX is returned unchanged. */
  lemma {:induction false} NewtonKeepsRoot(aX: real, guess: real, x1: real, x2: real, n: nat)
    requires CalcBezier(guess, x1, x2) == aX
    ensures NewtonRaphson(aX, guess, x1, x2, n) == guess
  {
    if n > 0 && GetSlope(guess, x1, x2) != 0.0 {
      var slope := GetSlope(guess, x1, x2);
      assert guess - (CalcBezier(guess, x1, x2) - aX) / slope == guess;
      NewtonKeepsRoot(aX, guess, x1, x2, n - 1);
    }
  }

  /**
   * Bisection of [a, b] for x(t) == aX, as the i-th step of `binarySubdivide`:
   * halve, keep the half whose x-range holds aX, stop on precision or count.
   */
  function Subdivide(aX: real, a: real, b: real, x1: real, x2: real, i: nat): real
    requires i < SubdivisionMaxIterations
    decreases SubdivisionMaxIterations - i
  {
    var t := a + (b - a) / 2.0;
    var currentX := CalcBezier(t, x1, x2) - aX;
    if Abs(currentX) > SubdivisionPrecision && i + 1 < SubdivisionMaxIterations then
      if currentX > 0.0 then Subdivide(aX, a, t, x1, x2, i + 1) else Subdivide(aX, t, b, x1, x2, i + 1)
    else t
  }

  /** Bisection never leaves the bracket it starts from. */
  lemma {:induction false} SubdivideInBracket(aX: real, a: real, b: real, x1: real, x2: real, i: nat)
    requires i < SubdivisionMaxIterations
    requires a <= b
    ensures a <= Subdivide(aX, a, b, x1, x2, i) <= b
    decreases SubdivisionMaxIterations - i
  {
    var t := a + (b - a) / 2.0;
    var currentX := CalcBezier(t, x1, x2) - aX;
    if Abs(currentX) > SubdivisionPrecision && i + 1 < SubdivisionMaxIterations {
      if currentX > 0.0 {
        SubdivideInBracket(aX, a, t, x1, x2, i + 1);
      } else {
        SubdivideInBracket(aX, t, b, x1, x2, i + 1);
      }
    }
  }

  /**
   * The refinement `getTForX` applies to a guess in the interval starting at
   * start: Newton-Raphson on a steep slope, otherwise Fallback.
   */
  function Refine(c: ValidControls, aX: real, start: real, guess: real): real {
    var slope := GetSlope(guess, c.x1, c.x2);
    if slope >= NewtonMinSlope then NewtonRaphson(aX, guess, c.x1, c.x2, NewtonIterations)
    else Fallback(aX, start, guess, slope, c.x1, c.x2)
  }

  /** On a shallow slope: the guess itself when the slope is flat, bisection of the interval otherwise. */
  function Fallback(aX: real, start: real, guess: real, slope: real, x1: real, x2: real): real {
    if slope == 0.0 then guess else Subdivide(aX, start, start + SampleStepSize, x1, x2, 0)
  }

  /** The fallback never leaves the interval the guess comes from. */
  lemma FallbackInInterval(aX: real, start: real, guess: real, slope: real, x1: real, x2: real)
    requires start <= guess <= start + SampleStepSize
    ensures start <= Fallback(aX, start, guess, slope, x1, x2) <= start + SampleStepSize
  {
    if slope != 0.0 {
      SubdivideInBracket(aX, start, start + SampleStepSize, x1, x2, 0);
    }
  }

  /** The parameter t with x(t) close to aX, as `getTForX` computes it. */
  function TForX(c: ValidControls, aX: real): real {
    Refine(c, aX, IntervalStart(c, aX), InitialGuess(c, aX))
  }

  /** Unless Newton-Raphson is chosen, the solved t for x in [0, 1) stays in the picked interval. */
  lemma TForXInUnitWithoutNewton(c: ValidControls, aX: real)
    requires 0.0 <= aX < 1.0
    requires GetSlope(InitialGuess(c, aX), c.x1, c.x2) < NewtonMinSlope
    ensures IntervalStart(c, aX) <= TForX(c, aX) <= IntervalStart(c, aX) + SampleStepSize
    ensures 0.0 <= TForX(c, aX) <= 1.0
  {
    var start, guess := IntervalStart(c, aX), InitialGuess(c, aX);
    InitialGuessInInterval(c, aX);
    FallbackInInterval(aX, start, guess, GetSlope(guess, c.x1, c.x2), c.x1, c.x2);
  }

  /** The easing function returned by the factory, applied to x. */
  function Eased(c: ValidControls, x: real): real {
    if IsLinear(c) then x
    else if x == 0.0 then 0.0
    else if x == 1.0 then 1.0
    else CalcBezier(TForX(c, x), c.y1, c.y2)
  }

  /** Every easing maps 0 to 0 and 1 to 1 exactly, and linear controls give the identity. */
  lemma EasedEndpoints(c: ValidControls, x: real)
    ensures Eased(c, 0.0) == 0.0 && Eased(c, 1.0) == 1.0
    ensures IsLinear(c) ==> Eased(c, x) == x
  {
  }

  // ---------------------------------------------------------------------------
  // The executable solver

  /** `newtonRaphsonIterate`: at most NewtonIterations steps, returning early on a zero slope. */
  method NewtonRaphsonIterate(aX: real, aGuessT: real, mX1: real, mX2: real) returns (t: real)
    ensures t == NewtonRaphson(aX, aGuessT, mX1, mX2, NewtonIterations)
    ensures CalcBezier(aGuessT, mX1, mX2) == aX ==> t == aGuessT
  {
    if CalcBezier(aGuessT, mX1, mX2) == aX {
      NewtonKeepsRoot(aX, aGuessT, mX1, mX2, NewtonIterations);
    }
    t := aGuessT;
    for i := 0 to NewtonIterations
      invariant NewtonRaphson(aX, t, mX1, mX2, NewtonIterations - i)
             == NewtonRaphson(aX, aGuessT, mX1, mX2, NewtonIterations)
    {
      var currentSlope := GetSlope(t, mX1, mX2);
      if currentSlope == 0.0 {
        return;
      }
      var currentX := CalcBezier(t, mX1, mX2) - aX;
      t := t - currentX / currentSlope;
    }
  }

  /** `binarySubdivide`: a do-while loop of at most SubdivisionMaxIterations halvings. */
  method BinarySubdivide(aX: real, aA: real, aB: real, mX1: real, mX2: real) returns (t: real, ghost steps: nat)
    ensures t == Subdivide(aX, aA, aB, mX1, mX2, 0)
    ensures 1 <= steps <= SubdivisionMaxIterations
    ensures aA <= aB ==> aA <= t <= aB
  {
    var a, b := aA, aB;
    var i := 0;
    while true
      invariant 0 <= i < SubdivisionMaxIterations
      invariant Subdivide(aX, a, b, mX1, mX2, i) == Subdivide(aX, aA, aB, mX1, mX2, 0)
      invariant aA <= aB ==> aA <= a <= b <= aB
      decreases SubdivisionMaxIterations - i
    {
      t := a + (b - a) / 2.0;
      var currentX := CalcBezier(t, mX1, mX2) - aX;
      if currentX > 0.0 {
        b := t;
      } else {
        a := t;
      }
      if !(Abs(currentX) > SubdivisionPrecision && i + 1 < SubdivisionMaxIterations) {
        steps := i + 1;
        return;
      }
      i := i + 1;
    }
  }

  /**
   * The closure returned by the factory: its controls and the sample table
   * it precomputes (left unfilled for linear controls, which never read it).
   */
  class BezierEasing {
    const controls: ValidControls
    const sampleValues: array<real>

    ghost predicate Valid()
      reads sampleValues
    {
      && sampleValues.Length == SplineTableSize
      && (!IsLinear(controls) ==>
            forall i :: 0 <= i < SplineTableSize ==> sampleValues[i] == SampleValue(i, controls.x1, controls.x2))
    }

    constructor (c: ValidControls)
      ensures Valid() && controls == c && fresh(sampleValues)
    {
      var table := new real[SplineTableSize];
      if !IsLinear(c) {
        for i := 0 to SplineTableSize
          invariant forall j :: 0 <= j < i ==> table[j] == SampleValue(j, c.x1, c.x2)
        {
          table[i] := CalcBezier(i as real * SampleStepSize, c.x1, c.x2);
        }
      }
      controls := c;
      sampleValues := table;
    }

    /** `getTForX`: scan the table, interpolate a guess, then refine it. */
    method GetTForX(aX: real) returns (t: real)
      requires Valid() && !IsLinear(controls)
      ensures t == TForX(controls, aX)
    {
      var currentSample, intervalStart := ScanTable(aX);
      var guessForT := GuessInInterval(aX, currentSample, intervalStart);
      t := RefineGuess(aX, intervalStart, guessForT);
    }

    /** The interpolation of `getTForX` between the two table values around aX. */
    method GuessInInterval(aX: real, k: nat, start: real) returns (guess: real)
      requires Valid() && !IsLinear(controls)
      requires k == IntervalIndex(aX, controls.x1, controls.x2, 1) && k < SplineTableSize - 1
      requires start == IntervalStart(controls, aX)
      ensures guess == InitialGuess(controls, aX)
    {
      SampleTableIncreasing(k, controls.x1, controls.x2);
      var lo, hi := sampleValues[k], sampleValues[k + 1];
      guess := Interpolate(start, lo, hi, aX);
    }

    /** The scan of `getTForX` over the table: the picked interval and where it starts. */
    method ScanTable(aX: real) returns (k: nat, start: real)
      requires Valid() && !IsLinear(controls)
      ensures k == IntervalIndex(aX, controls.x1, controls.x2, 1) && k < SplineTableSize - 1
      ensures start == IntervalStart(controls, aX)
    {
      var x1, x2 := controls.x1, controls.x2;
      start := 0.0;
      var currentSample := 1;
      var lastSample := SplineTableSize - 1;
      while currentSample != lastSample && sampleValues[currentSample] <= aX
        invariant 1 <= currentSample <= lastSample
        invariant start == (currentSample - 1) as real * SampleStepSize
        invariant IntervalIndex(aX, x1, x2, currentSample) == IntervalIndex(aX, x1, x2, 1)
        decreases lastSample - currentSample
      {
        start := start + SampleStepSize;
        currentSample := currentSample + 1;
      }
      k := currentSample - 1;
    }

    /** The last stage of `getTForX`: pick Newton-Raphson, the guess or bisection by the slope. */
    method RefineGuess(aX: real, start: real, guess: real) returns (t: real)
      ensures t == Refine(controls, aX, start, guess)
    {
      var initialSlope := GetSlope(guess, controls.x1, controls.x2);
      if initialSlope >= NewtonMinSlope {
        t := NewtonRaphsonIterate(aX, guess, controls.x1, controls.x2);
      } else if initialSlope == 0.0 {
        t := guess;
      } else {
        ghost var steps;
        t, steps := BinarySubdivide(aX, start, start + SampleStepSize, controls.x1, controls.x2);
      }
    }

    /** The returned `BezierEasing(x)` function. */
    method Apply(x: real) returns (y: real)
      requires Valid()
      ensures y == Eased(controls, x)
      ensures IsLinear(controls) ==> y == x
      ensures x == 0.0 ==> y == 0.0
      ensures x == 1.0 ==> y == 1.0
    {
      if controls.x1 == controls.y1 && controls.x2 == controls.y2 {
        return x;
      }
      if x == 0.0 {
        return 0.0;
      }
      if x == 1.0 {
        return 1.0;
      }
      var t := GetTForX(x);
      y := CalcBezier(t, controls.y1, controls.y2);
    }
  }

  /** The factory `bezier(mX1, mY1, mX2, mY2)`: rejects x values outside [0, 1]. */
  method NewBezierEasing(mX1: real, mY1: real, mX2: real, mY2: real) returns (r: Result<BezierEasing, string>)
    ensures r.Failure? <==> !(0.0 <= mX1 <= 1.0 && 0.0 <= mX2 <= 1.0)
    ensures r.Success? ==> fresh(r.value) && fresh(r.value.sampleValues) && r.value.Valid()
                           && r.value.controls == Controls(mX1, mY1, mX2, mY2)
  {
    if !(0.0 <= mX1 && mX1 <= 1.0 && 0.0 <= mX2 && mX2 <= 1.0) {
      return Failure("bezier x values must be in [0, 1] range");
    }
    var e := new BezierEasing(Controls(mX1, mY1, mX2, mY2));
    r := Success(e);
  }
}
