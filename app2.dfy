/**
 * The `/predict` handler of app2.py: every field is required, the
 * dependents text goes straight through `int()`, class 1 is "Approved" and
 * the confidence is always the probability of class 1.
 */
module App2 {
  import opened Outcomes
  import opened Host
  import opened Logistic

  /** The form keys app2.py reads, in feature-vector order. */
  const Columns: seq<string> := [
    "Dependents", "Education", "Self_Employed", "Annual_Income", "Loan_Amount",
    "Loan_Period", "Credit_Score", "Residential_Assets", "Commercial_Assets",
    "Luxury_Assets", "Bank_Assets"]

  /** `form[key]`, which raises KeyError when the key is absent. */
  function Field(form: map<string, string>, key: string): (r: Result<string>)
    ensures r.Ok? <==> key in form
    ensures r.Ok? ==> r.value == form[key]
    ensures r.Err? ==> r.failure == BadField(key, Missing)
  {
    if key in form then Ok(form[key]) else Err(BadField(key, Missing))
  }

  /** A yes/no field: 1 exactly when its text is `token`; absent is an error. */
  function Flag(form: map<string, string>, key: string, token: string): (r: Result<real>)
    ensures r.Ok? <==> key in form
    ensures r.Ok? ==> (r.value == 0.0 || r.value == 1.0) && (r.value == 1.0 <==> form[key] == token)
    ensures r.Err? ==> r.failure == BadField(key, Missing)
  {
    var text :- Field(form, key);
    Ok(if text == token then 1.0 else 0.0)
  }

  /** `int(form[key])`. */
  function Count(rt: Runtime, form: map<string, string>, key: string): (r: Result<int>)
    ensures r.Ok? <==> key in form && rt.parseInt(form[key]).Some?
    ensures r.Ok? ==> rt.parseInt(form[key]) == Some(r.value)
    ensures r.Err? ==> r.failure == BadField(key, if key in form then NotAnInteger else Missing)
  {
    var text :- Field(form, key);
    match rt.parseInt(text)
    case Some(n) => Ok(n)
    case None => Err(BadField(key, NotAnInteger))
  }

  /** `float(form[key])`. */
  function Amount(rt: Runtime, form: map<string, string>, key: string): (r: Result<real>)
    ensures r.Ok? <==> key in form && rt.parseFloat(form[key]).Some?
    ensures r.Ok? ==> rt.parseFloat(form[key]) == Some(r.value)
    ensures r.Err? ==> r.failure == BadField(key, if key in form then NotANumber else Missing)
  {
    var text :- Field(form, key);
    match rt.parseFloat(text)
    case Some(x) => Ok(x)
    case None => Err(BadField(key, NotANumber))
  }

  /** Every key in `Columns` is present. */
  predicate HasAllFields(form: map<string, string>) {
    forall i | 0 <= i < |Columns| :: Columns[i] in form
  }

  /**
   * The feature vector of a form: entry i is read from the key `Columns[i]`.
   * The request fails exactly when a key is missing or the dependents or a
   * numeric text does not parse; a missing "Education" is reported first.
   */
  function Encode(rt: Runtime, form: map<string, string>): (r: Result<seq<real>>)
    ensures r.Ok? <==>
      && Flag(form, Columns[1], "Graduate").Ok? && Flag(form, Columns[2], "Yes").Ok?
      && Count(rt, form, Columns[0]).Ok?
      && forall i | 3 <= i < |Columns| :: Amount(rt, form, Columns[i]).Ok?
    ensures Columns[1] !in form ==> r == Err(BadField(Columns[1], Missing))
    ensures r.Err? ==> r.failure.BadField? && r.failure.key in Columns
    ensures r.Ok? ==> |r.value| == |Columns| == 11
    ensures r.Ok? ==> r.value[0] == Count(rt, form, Columns[0]).value as real
    ensures r.Ok? ==> r.value[1] == Flag(form, Columns[1], "Graduate").value
    ensures r.Ok? ==> r.value[2] == Flag(form, Columns[2], "Yes").value
    ensures r.Ok? ==> forall i | 3 <= i < |Columns| :: Amount(rt, form, Columns[i]) == Ok(r.value[i])
  {
    assert Columns[0] == "Dependents" && Columns[1] == "Education" && Columns[2] == "Self_Employed";
    assert Columns[3] == "Annual_Income" && Columns[4] == "Loan_Amount" && Columns[5] == "Loan_Period";
    assert Columns[6] == "Credit_Score" && Columns[7] == "Residential_Assets" && Columns[8] == "Commercial_Assets";
    assert Columns[9] == "Luxury_Assets" && Columns[10] == "Bank_Assets";
    var education :- Flag(form, "Education", "Graduate");
    var selfEmployed :- Flag(form, "Self_Employed", "Yes");
    var dependents :- Count(rt, form, "Dependents");
    var income :- Amount(rt, form, "Annual_Income");
    var loanAmount :- Amount(rt, form, "Loan_Amount");
    var loanPeriod :- Amount(rt, form, "Loan_Period");
    var creditScore :- Amount(rt, form, "Credit_Score");
    var residential :- Amount(rt, form, "Residential_Assets");
    var commercial :- Amount(rt, form, "Commercial_Assets");
    var luxury :- Amount(rt, form, "Luxury_Assets");
    var bank :- Amount(rt, form, "Bank_Assets");
    Ok([dependents as real, education, selfEmployed, income, loanAmount, loanPeriod,
        creditScore, residential, commercial, luxury, bank])
  }

  /**
   * A form encodes exactly when all eleven keys are present, the dependents
   * text is an integer and every numeric text is a number.
   */
  lemma EncodeSucceedsIff(rt: Runtime, form: map<string, string>)
    ensures Encode(rt, form).Ok? <==>
      && HasAllFields(form)
      && rt.parseInt(form[Columns[0]]).Some?
      && forall i | 3 <= i < |Columns| :: rt.parseFloat(form[Columns[i]]).Some?
  {
    if Encode(rt, form).Ok? {
      forall i | 0 <= i < |Columns| ensures Columns[i] in form {
        if i >= 3 { assert Amount(rt, form, Columns[i]).Ok?; }
      }
    }
  }

  /** Class 1 is an approved loan. */
  function Verdict(cls: nat): (l: Label)
    ensures l == Approved <==> cls == 1
    ensures l.Text() == if cls == 1 then "Approved" else "Rejected"
  {
    if cls == 1 then Approved else Rejected
  }

  /** Confidence in percent: the probability of class 1, whatever the verdict. */
  function Confidence(p: real): (c: real)
    ensures c == 100.0 * p
    ensures 0.0 < p < 1.0 ==> 0.0 < c < 100.0
    ensures c >= 50.0 <==> p >= 0.5
  {
    p * 100.0
  }

  /**
   * Scale, predict and label one feature vector. An approval reports at
   * least 50, a rejection less than 50.
   */
  function Decide(exp: real -> real, m: Artifact, features: seq<real>): (r: Result<Decision>)
    requires ExpPositive(exp)
    ensures r.Ok? <==> |m.transform(features)| == |m.w|
    ensures r.Err? ==> r.failure == ShapeMismatch(|m.transform(features)|, |m.w|)
    ensures r.Ok? ==>
      var p := PredictLogic(exp, m.transform(features), m.w, m.b).value.p;
      && (r.value.verdict == Approved <==> p >= 0.5)
      && r.value.confidence == 100.0 * p
      && (r.value.verdict == Approved ==> 50.0 <= r.value.confidence < 100.0)
      && (r.value.verdict == Rejected ==> 0.0 < r.value.confidence < 50.0)
  {
    var prediction :- PredictLogic(exp, m.transform(features), m.w, m.b);
    Ok(Decision(Verdict(prediction.cls), Confidence(prediction.p)))
  }

  /**
   * The whole handler: a result page with the decision and the submitted
   * form, or the error page when any step raised.
   */
  function Predict(rt: Runtime, m: Artifact, form: map<string, string>): (page: Page)
    requires ExpPositive(rt.exp)
    ensures page.ResultPage? <==>
      Encode(rt, form).Ok? && |m.transform(Encode(rt, form).value)| == |m.w|
    ensures page.ResultPage? ==>
      && page.applicant == form
      && Decide(rt.exp, m, Encode(rt, form).value) == Ok(Decision(page.result, page.confidence))
    ensures page.ErrorPage? && Encode(rt, form).Err? ==> page.error == Encode(rt, form).failure
    ensures page.ErrorPage? && Encode(rt, form).Ok? ==>
      page.error == ShapeMismatch(|m.transform(Encode(rt, form).value)|, |m.w|)
  {
    match Encode(rt, form)
    case Err(e) => ErrorPage(e)
    case Ok(features) =>
      match Decide(rt.exp, m, features)
      case Err(e) => ErrorPage(e)
      case Ok(d) => ResultPage(d.verdict, d.confidence, form)
  }

  /** A form without one of the eleven keys always ends on the error page. */
  lemma MissingFieldFails(rt: Runtime, m: Artifact, form: map<string, string>, i: nat)
    requires ExpPositive(rt.exp)
    requires i < |Columns| && Columns[i] !in form
    ensures Predict(rt, m, form).ErrorPage?
  {
  }

  /**
   * There is no "3+" case: since `int("3+")` raises, a form whose dependents
   * text is "3+" always ends on the error page.
   */
  lemma ThreePlusFails(rt: Runtime, m: Artifact, form: map<string, string>)
    requires ExpPositive(rt.exp)
    requires rt.parseInt("3+") == None
    requires Get(form, Columns[0]) == Some("3+")
    ensures Predict(rt, m, form).ErrorPage?
  {
  }

  /** With a well-formed model the error page comes only from the form. */
  lemma ErrorOnlyFromForm(rt: Runtime, m: Artifact, form: map<string, string>)
    requires ExpPositive(rt.exp)
    requires m.WellFormed()
    ensures Predict(rt, m, form).ErrorPage? <==> Encode(rt, form).Err?
  {
  }

  /** An application is approved exactly when its linear score is not negative. */
  lemma ApprovedIffNonNegativeScore(rt: Runtime, m: Artifact, form: map<string, string>)
    requires ExpLaws(rt.exp)
    requires Predict(rt, m, form).ResultPage?
    ensures
      var x := m.transform(Encode(rt, form).value);
      Predict(rt, m, form).result == Approved <==> Dot(x, m.w) + m.b >= 0.0
  {
    var x := m.transform(Encode(rt, form).value);
    ClassIsSignOfScore(rt.exp, x, m.w, m.b);
  }

  /** With zero weights and bias every encodable form is approved at 50% (the tie goes to class 1). */
  lemma ZeroModelApproves(rt: Runtime, m: Artifact, form: map<string, string>)
    requires ExpLaws(rt.exp)
    requires m.WellFormed() && m.b == 0.0
    requires forall i :: 0 <= i < |m.w| ==> m.w[i] == 0.0
    requires Encode(rt, form).Ok?
    ensures Predict(rt, m, form) == ResultPage(Approved, 50.0, form)
  {
    ZeroModelTies(rt.exp, m.transform(Encode(rt, form).value), m.w);
  }
}
