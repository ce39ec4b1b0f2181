/** Vocabulary shared by every part of the nutrition engine: optional values,
    results that carry one of the engine's error kinds, and small helpers over
    `real` (the engine's floating-point numbers are modelled as exact reals). */
module Base {

  datatype Option<T> = None | Some(value: T) {
    /** The value, or `default` when there is none (Python's `getattr(x, name, default)`). */
    function GetOr(default: T): T {
      match this
      case Some(v) => v
      case None => default
    }
  }

  /** Every way a computation of the engine can fail. In the source each one is a
      `ValidationError` (or an exception the engine's `except` clauses turn into one);
      the message text is not modelled, only which check failed. */
  datatype Error =
    | WeightBelowMinimum | WeightAboveMaximum
    | HeightBelowMinimum | HeightAboveMaximum
    | AgeBelowMinimum | AgeAboveMaximum
    | InvalidUnit | InvalidActivityLevel
    | NonPositiveBmr | NonPositiveTdee | NonPositiveActualTdee
    | UnsafeCalories(calories: real, minimum: real)
    | ZeroInitialRate         // ZeroDivisionError: mean of the first four weekly rates is 0
    | MissingIntensity        // AttributeError: the profile has no intensity attribute
    | UnknownIntensity        // KeyError: intensity is neither 'moderate' nor 'aggressive'
    | TooFewValuesToUnpack    // ValueError: a 2-tuple unpacked into three names
    | MissingWeight           // a new weight entry without a weight

  datatype Result<T> = Ok(value: T) | Err(error: Error)

  /** The result of a check that returns nothing useful or raises. */
  datatype Outcome = Pass | Fail(error: Error)

  function Abs(x: real): real {
    if x < 0.0 then -x else x
  }

  function Min(a: real, b: real): real {
    if a <= b then a else b
  }

  function Max(a: real, b: real): real {
    if a >= b then a else b
  }

  /** Python's `sum` over a list of numbers. */
  function Sum(s: seq<real>): real {
    if s == [] then 0.0 else s[0] + Sum(s[1..])
  }

  /** `sum(s) / len(s)`. */
  function Mean(s: seq<real>): real
    requires |s| > 0
  {
    Sum(s) / |s| as real
  }

  lemma {:induction false} SumAppend(a: seq<real>, b: seq<real>)
    ensures Sum(a + b) == Sum(a) + Sum(b)
  {
    if a != [] {
      assert (a + b)[0] == a[0];
      assert (a + b)[1..] == a[1..] + b;
      SumAppend(a[1..], b);
    } else {
      assert a + b == b;
    }
  }

  lemma MulLeftMono(x: real, y: real, c: real)
    requires x <= y && c >= 0.0
    ensures c * x <= c * y
  {
    assert c * y - c * x == c * (y - x);
  }

  lemma SquareNonNegative(x: real)
    ensures x * x >= 0.0
  {
    if x < 0.0 {
      MulLeftMono(x, 0.0, -x);
    } else {
      MulLeftMono(0.0, x, x);
    }
  }

  lemma {:induction false} SumNonNegative(s: seq<real>)
    requires forall i :: 0 <= i < |s| ==> s[i] >= 0.0
    ensures Sum(s) >= 0.0
  {
    if s != [] {
      SumNonNegative(s[1..]);
    }
  }

  /** `[(w - m) ** 2 for w in s]` */
  function SquaredDeviations(s: seq<real>, m: real): (r: seq<real>)
    ensures |r| == |s|
    ensures forall i :: 0 <= i < |s| ==> r[i] == (s[i] - m) * (s[i] - m)
  {
    if s == [] then [] else [(s[0] - m) * (s[0] - m)] + SquaredDeviations(s[1..], m)
  }

  /** The population variance `sum((w - mean) ** 2 for w in s) / len(s)`; never negative. */
  function Variance(s: seq<real>): (r: real)
    requires |s| > 0
    ensures r >= 0.0
  {
    var d := SquaredDeviations(s, Mean(s));
    forall i | 0 <= i < |d| ensures d[i] >= 0.0 {
      SquareNonNegative(s[i] - Mean(s));
    }
    SumNonNegative(d);
    Sum(d) / |s| as real
  }

  lemma {:induction false} SumConstant(s: seq<real>, c: real)
    requires forall i :: 0 <= i < |s| ==> s[i] == c
    ensures Sum(s) == |s| as real * c
  {
    if s != [] {
      SumConstant(s[1..], c);
    }
  }

  /** A sequence of equal values has mean that value and variance zero. */
  lemma ConstantVariance(s: seq<real>, c: real)
    requires |s| > 0 && forall i :: 0 <= i < |s| ==> s[i] == c
    ensures Mean(s) == c
    ensures Variance(s) == 0.0
  {
    SumConstant(s, c);
    var n := |s| as real;
    assert n > 0.0;
    assert (n * c) / n == c;
    assert Mean(s) == c;
    var d := SquaredDeviations(s, Mean(s));
    assert forall i :: 0 <= i < |d| ==> d[i] == (c - c) * (c - c);
    SumConstant(d, 0.0);
  }
}
