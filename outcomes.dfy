/**
 * Values that flow through one `/predict` request: optional values, the
 * failure that sends a request to the error page, the decision label and the
 * page the service renders.
 */
module Outcomes {

  datatype Option<+T> = None | Some(value: T)

  /** Why a form field could not be turned into a feature. */
  datatype Reason =
    | Missing        // `form[key]` on an absent key raises KeyError
    | NotAnInteger   // `int(text)` raises ValueError
    | NotANumber     // `float(text)` raises ValueError

  /** The exception that ends a request on the error page. */
  datatype Failure =
    | BadField(key: string, reason: Reason)
    | ShapeMismatch(features: nat, weights: nat)  // `np.dot` on vectors of different lengths

  /** A value, or the exception raised while computing it. */
  datatype Result<+T> = Ok(value: T) | Err(failure: Failure) {
    predicate IsFailure() { Err? }

    function PropagateFailure<U>(): Result<U>
      requires Err?
    {
      Err(failure)
    }

    function Extract(): T
      requires Ok?
    {
      value
    }
  }

  datatype Label = Approved | Rejected {
    /** The text shown on the result page. */
    function Text(): string {
      match this
      case Approved => "Approved"
      case Rejected => "Rejected"
    }
  }

  /** What the service hands to the decision step: a label and a confidence in percent. */
  datatype Decision = Decision(verdict: Label, confidence: real)

  /**
   * The rendered response: the result page carries the decision and an echo
   * of the submitted form; the error page carries only the exception.
   */
  datatype Page =
    | ResultPage(result: Label, confidence: real, applicant: map<string, string>)
    | ErrorPage(error: Failure)

  function Get(form: map<string, string>, key: string): (r: Option<string>)
    ensures r.Some? <==> key in form
    ensures r.Some? ==> r.value == form[key]
  {
    if key in form then Some(form[key]) else None
  }
}
