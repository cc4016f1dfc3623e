/**
 * The trained logistic-regression classifier: the clipped sigmoid and the
 * decision rule `predict_logic` (the same text in app.py and app2.py).
 */
module Logistic {
  import opened Outcomes
  import opened Host

  /**
   * The pickled model: weight vector `w`, bias `b`, and the fitted scaler,
   * whose `transform` is opaque here.
   */
  datatype Artifact = Artifact(w: seq<real>, b: real, transform: seq<real> -> seq<real>) {
    /** Weights for the eleven features, and a scaler that keeps eleven features eleven. */
    ghost predicate WellFormed() {
      && |w| == 11
      && forall v: seq<real> :: |v| == 11 ==> |transform(v)| == 11
    }
  }

  /** `np.clip(z, -500, 500)`. */
  function Clip(z: real): (c: real)
    ensures -500.0 <= c <= 500.0
    ensures -500.0 <= z <= 500.0 ==> c == z
    ensures c >= 0.0 <==> z >= 0.0
  {
    if z < -500.0 then -500.0 else if z > 500.0 then 500.0 else z
  }

  lemma ClipMonotone(z1: real, z2: real)
    requires z1 <= z2
    ensures Clip(z1) <= Clip(z2)
  {
  }

  /** `sigmoid(z) = 1 / (1 + exp(-clip(z)))`. */
  function Sigmoid(exp: real -> real, z: real): (p: real)
    requires ExpPositive(exp)
    ensures 0.0 < p < 1.0
  {
    var e := exp(-Clip(z));
    assert e > 0.0;
    1.0 / (1.0 + e)
  }

  lemma SigmoidAtZero(exp: real -> real)
    requires ExpLaws(exp)
    ensures Sigmoid(exp, 0.0) == 0.5
  {
  }

  /** Taking reciprocals of positive reals reverses their order. */
  lemma Reciprocal(a: real, b: real)
    requires 0.0 < a && 0.0 < b
    ensures a <= b <==> 1.0 / b <= 1.0 / a
    ensures a < b <==> 1.0 / b < 1.0 / a
  {
    assert 1.0 / a * a == 1.0 && 1.0 / b * b == 1.0;
    assert 1.0 / b - 1.0 / a == (a - b) / (a * b);
  }

  /** A larger score never gives a smaller probability. */
  lemma SigmoidMonotone(exp: real -> real, z1: real, z2: real)
    requires ExpLaws(exp)
    requires z1 <= z2
    ensures Sigmoid(exp, z1) <= Sigmoid(exp, z2)
  {
    ClipMonotone(z1, z2);
    var e1, e2 := exp(-Clip(z1)), exp(-Clip(z2));
    assert e2 <= e1;
    Reciprocal(1.0 + e2, 1.0 + e1);
  }

  /** The probability reaches one half exactly when the score is not negative. */
  lemma SigmoidAtLeastHalf(exp: real -> real, z: real)
    requires ExpLaws(exp)
    ensures Sigmoid(exp, z) >= 0.5 <==> z >= 0.0
  {
    var c := Clip(z);
    var e := exp(-c);
    if z >= 0.0 {
      assert e <= 1.0 by {
        if c > 0.0 { assert exp(-c) < exp(0.0); }
      }
    } else {
      assert exp(0.0) < exp(-c);
    }
    Reciprocal(1.0 + e, 2.0);
  }

  /**
   * `np.dot` of two vectors of the same length, over the reals: the sum of
   * `x[i] * w[i]`. A zero feature vector scores 0 whatever the weights.
   */
  function Dot(x: seq<real>, w: seq<real>): (s: real)
    requires |x| == |w|
    ensures (forall i :: 0 <= i < |x| ==> x[i] == 0.0) ==> s == 0.0
  {
    if |x| == 0 then 0.0 else x[0] * w[0] + Dot(x[1..], w[1..])
  }

  lemma {:induction false} DotZeroWeights(x: seq<real>, w: seq<real>)
    requires |x| == |w|
    requires forall i :: 0 <= i < |w| ==> w[i] == 0.0
    ensures Dot(x, w) == 0.0
  {
    if |x| > 0 {
      DotZeroWeights(x[1..], w[1..]);
    }
  }

  /** `(A >= 0.5).astype(int)`. */
  function Threshold(p: real): (cls: nat)
    ensures cls <= 1
    ensures cls == 1 <==> p >= 0.5
  {
    if p >= 0.5 then 1 else 0
  }

  datatype Prediction = Prediction(cls: nat, p: real)

  /**
   * `predict_logic(X, W, b)`: the class and the probability of class 1, or
   * the ValueError `np.dot` raises when the lengths differ.
   */
  function PredictLogic(exp: real -> real, x: seq<real>, w: seq<real>, b: real): (r: Result<Prediction>)
    requires ExpPositive(exp)
    ensures r.Ok? <==> |x| == |w|
    ensures r.Err? ==> r.failure == ShapeMismatch(|x|, |w|)
    ensures r.Ok? ==> 0.0 < r.value.p < 1.0 && r.value.cls <= 1
    ensures r.Ok? ==> (r.value.cls == 1 <==> r.value.p >= 0.5)
  {
    if |x| != |w| then Err(ShapeMismatch(|x|, |w|))
    else
      var p := Sigmoid(exp, Dot(x, w) + b);
      Ok(Prediction(Threshold(p), p))
  }

  /** The class is 1 exactly when the linear score `x . w + b` is not negative. */
  lemma ClassIsSignOfScore(exp: real -> real, x: seq<real>, w: seq<real>, b: real)
    requires ExpLaws(exp)
    requires |x| == |w|
    ensures PredictLogic(exp, x, w, b).value.cls == 1 <==> Dot(x, w) + b >= 0.0
  {
    SigmoidAtLeastHalf(exp, Dot(x, w) + b);
  }

  /** With all weights and the bias zero every input sits on the tie: p is one half and the class is 1. */
  lemma ZeroModelTies(exp: real -> real, x: seq<real>, w: seq<real>)
    requires ExpLaws(exp)
    requires |x| == |w|
    requires forall i :: 0 <= i < |w| ==> w[i] == 0.0
    ensures PredictLogic(exp, x, w, 0.0) == Ok(Prediction(1, 0.5))
  {
    DotZeroWeights(x, w);
    SigmoidAtZero(exp);
  }
}
