/**
 * The `/predict` handler of app.py: missing fields take defaults, the
 * dependents field accepts the token "3+", class 0 is "Approved" and the
 * confidence is the probability of the predicted class.
 */
module App {
  import opened Outcomes
  import opened Host
  import opened Logistic

  /**
   * The form keys app.py reads, in feature-vector order. The spellings are
   * the handler's own: "Dependants_namber" and "Annula_Income".
   */
  const Columns: seq<string> := [
    "Dependants_namber", "Education", "Self_Employed", "Annula_Income", "Loan_Amount",
    "Loan_Period_Months", "Credit_Score", "Residential_Assets", "Commercial_Assets",
    "Luxury_Assets", "Bank_Assets"]

  /** The dependents text, "0" when the key is absent. */
  function DependentsText(form: map<string, string>): (t: string)
    ensures Columns[0] in form ==> t == form[Columns[0]]
    ensures Columns[0] !in form ==> t == "0"
  {
    if Columns[0] in form then form[Columns[0]] else "0"
  }

  /** The number of dependents: "3+" is 3, any other text goes through `int()`. */
  function Dependents(rt: Runtime, form: map<string, string>): (r: Result<int>)
    ensures DependentsText(form) == "3+" ==> r == Ok(3)
    ensures DependentsText(form) != "3+" ==>
      (r.Ok? <==> rt.parseInt(DependentsText(form)).Some?) &&
      (r.Ok? ==> rt.parseInt(DependentsText(form)) == Some(r.value))
    ensures r.Err? ==> r.failure == BadField(Columns[0], NotAnInteger)
  {
    var text := DependentsText(form);
    if text == "3+" then Ok(3)
    else match rt.parseInt(text)
      case Some(n) => Ok(n)
      case None => Err(BadField(Columns[0], NotAnInteger))
  }

  /** A yes/no field: 1 exactly when the key is present with the text `token`. */
  function Flag(form: map<string, string>, key: string, token: string): (v: real)
    ensures v == 0.0 || v == 1.0
    ensures v == 1.0 <==> Get(form, key) == Some(token)
  {
    if Get(form, key) == Some(token) then 1.0 else 0.0
  }

  /** A numeric field: 0 when the key is absent, otherwise its text through `float()`. */
  function Amount(rt: Runtime, form: map<string, string>, key: string): (r: Result<real>)
    ensures key !in form ==> r == Ok(0.0)
    ensures key in form ==>
      (r.Ok? <==> rt.parseFloat(form[key]).Some?) &&
      (r.Ok? ==> rt.parseFloat(form[key]) == Some(r.value))
    ensures r.Err? ==> r.failure == BadField(key, NotANumber)
  {
    if key !in form then Ok(0.0)
    else match rt.parseFloat(form[key])
      case Some(x) => Ok(x)
      case None => Err(BadField(key, NotANumber))
  }

  /**
   * The feature vector of a form: entry i is read from the key `Columns[i]`.
   * The request fails exactly when the dependents text or a present numeric
   * field does not parse; the error names the dependents field if its text
   * is bad, and otherwise the first numeric key, in column order, that fails.
   */
  function Encode(rt: Runtime, form: map<string, string>): (r: Result<seq<real>>)
    ensures r.Ok? <==>
      Dependents(rt, form).Ok? && forall i | 3 <= i < |Columns| :: Amount(rt, form, Columns[i]).Ok?
    ensures Dependents(rt, form).Err? ==> r == Err(Dependents(rt, form).failure)
    ensures forall i | 3 <= i < |Columns| ::
      Dependents(rt, form).Ok? && Amount(rt, form, Columns[i]).Err? &&
      (forall j | 3 <= j < i :: Amount(rt, form, Columns[j]).Ok?) ==>
      r == Err(BadField(Columns[i], NotANumber))
    ensures r.Err? ==> r.failure.BadField? && r.failure.key in Columns
    ensures r.Ok? ==> |r.value| == |Columns| == 11
    ensures r.Ok? ==> r.value[0] == Dependents(rt, form).value as real
    ensures r.Ok? ==> r.value[1] == Flag(form, Columns[1], "Graduate")
    ensures r.Ok? ==> r.value[2] == Flag(form, Columns[2], "Yes")
    ensures r.Ok? ==> forall i | 3 <= i < |Columns| :: Amount(rt, form, Columns[i]) == Ok(r.value[i])
  {
    assert Columns[3] == "Annula_Income" && Columns[4] == "Loan_Amount" && Columns[5] == "Loan_Period_Months";
    assert Columns[6] == "Credit_Score" && Columns[7] == "Residential_Assets" && Columns[8] == "Commercial_Assets";
    assert Columns[9] == "Luxury_Assets" && Columns[10] == "Bank_Assets";
    var dependents :- Dependents(rt, form);
    var education := Flag(form, "Education", "Graduate");
    var selfEmployed := Flag(form, "Self_Employed", "Yes");
    var income :- Amount(rt, form, "Annula_Income");
    var loanAmount :- Amount(rt, form, "Loan_Amount");
    var loanPeriod :- Amount(rt, form, "Loan_Period_Months");
    var creditScore :- Amount(rt, form, "Credit_Score");
    var residential :- Amount(rt, form, "Residential_Assets");
    var commercial :- Amount(rt, form, "Commercial_Assets");
    var luxury :- Amount(rt, form, "Luxury_Assets");
    var bank :- Amount(rt, form, "Bank_Assets");
    Ok([dependents as real, education, selfEmployed, income, loanAmount, loanPeriod,
        creditScore, residential, commercial, luxury, bank])
  }

  /** The model predicts 0 for an approved loan. */
  function Verdict(cls: nat): (l: Label)
    ensures l == Approved <==> cls == 0
    ensures l.Text() == if cls == 0 then "Approved" else "Rejected"
  {
    if cls == 0 then Approved else Rejected
  }

  /**
   * Confidence in percent: `1 - p` for an approval, `p` for a rejection, that
   * is the probability the model gives the class labelled by `verdict`.
   */
  function Confidence(verdict: Label, p: real): (c: real)
    ensures 0.0 <= p <= 1.0 ==> 0.0 <= c <= 100.0
    ensures verdict == Approved ==> c == 100.0 - 100.0 * p
    ensures verdict == Rejected ==> c == 100.0 * p
  {
    if verdict == Approved then (1.0 - p) * 100.0 else p * 100.0
  }

  function Max(a: real, b: real): (m: real)
    ensures m >= a && m >= b && (m == a || m == b)
  {
    if a >= b then a else b
  }

  /**
   * Scale, predict and label one feature vector. The confidence is the
   * probability of the predicted class, so it never falls below 50.
   */
  function Decide(exp: real -> real, m: Artifact, features: seq<real>): (r: Result<Decision>)
    requires ExpPositive(exp)
    ensures r.Ok? <==> |m.transform(features)| == |m.w|
    ensures r.Err? ==> r.failure == ShapeMismatch(|m.transform(features)|, |m.w|)
    ensures r.Ok? ==>
      var p := PredictLogic(exp, m.transform(features), m.w, m.b).value.p;
      && (r.value.verdict == Approved <==> p < 0.5)
      && r.value.confidence == 100.0 * Max(p, 1.0 - p)
      && 50.0 <= r.value.confidence < 100.0
  {
    var prediction :- PredictLogic(exp, m.transform(features), m.w, m.b);
    var verdict := Verdict(prediction.cls);
    Ok(Decision(verdict, Confidence(verdict, prediction.p)))
  }

  /**
   * The whole handler: a result page with the decision and the submitted
   * form, or the error page when any step raised.
   */
  function Predict(rt: Runtime, m: Artifact, form: map<string, string>): (page: Page)
    requires ExpPositive(rt.exp)
    ensures page.ResultPage? <==>
      Encode(rt, form).Ok? && |m.transform(Encode(rt, form).value)| == |m.w|
    ensures page.ResultPage? ==>
      && page.applicant == form
      && Decide(rt.exp, m, Encode(rt, form).value) == Ok(Decision(page.result, page.confidence))
    ensures page.ErrorPage? && Encode(rt, form).Err? ==> page.error == Encode(rt, form).failure
    ensures page.ErrorPage? && Encode(rt, form).Ok? ==>
      page.error == ShapeMismatch(|m.transform(Encode(rt, form).value)|, |m.w|)
  {
    match Encode(rt, form)
    case Err(e) => ErrorPage(e)
    case Ok(features) =>
      match Decide(rt.exp, m, features)
      case Err(e) => ErrorPage(e)
      case Ok(d) => ResultPage(d.verdict, d.confidence, form)
  }

  /** With a well-formed model the error page comes only from a field that does not parse. */
  lemma ErrorOnlyFromForm(rt: Runtime, m: Artifact, form: map<string, string>)
    requires ExpPositive(rt.exp)
    requires m.WellFormed()
    ensures Predict(rt, m, form).ErrorPage? <==> Encode(rt, form).Err?
  {
  }

  /** An application is approved exactly when its linear score is negative. */
  lemma ApprovedIffNegativeScore(rt: Runtime, m: Artifact, form: map<string, string>)
    requires ExpLaws(rt.exp)
    requires Predict(rt, m, form).ResultPage?
    ensures
      var x := m.transform(Encode(rt, form).value);
      Predict(rt, m, form).result == Approved <==> Dot(x, m.w) + m.b < 0.0
  {
    var x := m.transform(Encode(rt, form).value);
    ClassIsSignOfScore(rt.exp, x, m.w, m.b);
  }

  /** The encoding depends on nothing but the entries under the keys in `Columns`. */
  lemma EncodeReadsOnlyColumns(rt: Runtime, form1: map<string, string>, form2: map<string, string>)
    requires forall key | key in Columns :: Get(form1, key) == Get(form2, key)
    ensures Encode(rt, form1) == Encode(rt, form2)
  {
    assert Get(form1, Columns[0]) == Get(form2, Columns[0]);
    assert DependentsText(form1) == DependentsText(form2);
    forall i | 1 <= i < |Columns|
      ensures Flag(form1, Columns[i], "Graduate") == Flag(form2, Columns[i], "Graduate")
      ensures Flag(form1, Columns[i], "Yes") == Flag(form2, Columns[i], "Yes")
      ensures Amount(rt, form1, Columns[i]) == Amount(rt, form2, Columns[i])
    {
      assert Get(form1, Columns[i]) == Get(form2, Columns[i]);
    }
    assert Columns[1] == "Education" && Columns[2] == "Self_Employed" && Columns[3] == "Annula_Income";
    assert Columns[4] == "Loan_Amount" && Columns[5] == "Loan_Period_Months" && Columns[6] == "Credit_Score";
    assert Columns[7] == "Residential_Assets" && Columns[8] == "Commercial_Assets";
    assert Columns[9] == "Luxury_Assets" && Columns[10] == "Bank_Assets";
  }

  /**
   * A field keyed "Annual_Income" is never read: the handler looks up
   * "Annula_Income", so whatever "Annual_Income" holds leaves the result
   * unchanged, and without "Annula_Income" the income feature is 0.
   */
  lemma AnnualIncomeIgnored(rt: Runtime, form: map<string, string>, text: string)
    ensures Encode(rt, form["Annual_Income" := text]) == Encode(rt, form - {"Annual_Income"})
    ensures "Annula_Income" !in form && Encode(rt, form).Ok? ==> Encode(rt, form).value[3] == 0.0
  {
    var updated, removed := form["Annual_Income" := text], form - {"Annual_Income"};
    forall key | key in Columns
      ensures Get(updated, key) == Get(removed, key)
    {
      assert key != "Annual_Income";
    }
    EncodeReadsOnlyColumns(rt, updated, removed);
  }

  /** With zero weights and bias every encodable form is rejected at 50% (the tie goes to class 1). */
  lemma ZeroModelRejects(rt: Runtime, m: Artifact, form: map<string, string>)
    requires ExpLaws(rt.exp)
    requires m.WellFormed() && m.b == 0.0
    requires forall i :: 0 <= i < |m.w| ==> m.w[i] == 0.0
    requires Encode(rt, form).Ok?
    ensures Predict(rt, m, form) == ResultPage(Rejected, 50.0, form)
  {
    ZeroModelTies(rt.exp, m.transform(Encode(rt, form).value), m.w);
  }
}
