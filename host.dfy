/**
 * The pieces of Python and numpy the service leans on but does not define:
 * `int()` and `float()` on text, and `np.exp`. They are passed in as function
 * values; what the proofs need of them is stated as explicit laws.
 */
module Host {
  import opened Outcomes

  /**
   * `parseInt` and `parseFloat` are `int(text)` and `float(text)`: `None`
   * stands for the ValueError they raise on text they do not accept.
   * `exp` is `np.exp`, idealised over the reals.
   */
  datatype Runtime = Runtime(
    parseInt: string -> Option<int>,
    parseFloat: string -> Option<real>,
    exp: real -> real)

  /** The exponential never returns zero or less, so `1 / (1 + exp(-z))` is defined. */
  ghost predicate ExpPositive(exp: real -> real) {
    forall x :: exp(x) > 0.0
  }

  /** The properties of the exponential that the decision rule relies on. */
  ghost predicate ExpLaws(exp: real -> real) {
    && ExpPositive(exp)
    && exp(0.0) == 1.0
    && forall x, y :: x < y ==> exp(x) < exp(y)
  }
}
