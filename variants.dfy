/**
 * The two handlers side by side: the worked sample applications, and how the
 * verdicts of app.py and app2.py relate on the same applicant.
 */
module Variants {
  import opened Outcomes
  import opened Host
  import opened Logistic
  import App
  import App2

  /**
   * A sample application as a browser might submit it. Its keys follow
   * app.py's dependents spelling but the correct "Annual_Income".
   */
  const Sample: map<string, string> := map[
    "Education" := "Graduate", "Self_Employed" := "No", "Dependants_namber" := "3+",
    "Annual_Income" := "50000", "Loan_Amount" := "20000", "Loan_Period_Months" := "360",
    "Credit_Score" := "720", "Residential_Assets" := "10000", "Commercial_Assets" := "0",
    "Luxury_Assets" := "5000", "Bank_Assets" := "15000"]

  /** `float()` reads the sample's numerals as their values, as Python's does. */
  ghost predicate ReadsSampleNumerals(rt: Runtime) {
    && rt.parseFloat("0") == Some(0.0)
    && rt.parseFloat("360") == Some(360.0)
    && rt.parseFloat("720") == Some(720.0)
    && rt.parseFloat("5000") == Some(5000.0)
    && rt.parseFloat("10000") == Some(10000.0)
    && rt.parseFloat("15000") == Some(15000.0)
    && rt.parseFloat("20000") == Some(20000.0)
  }

  /**
   * app.py encodes the sample with "3+" as 3 and, because it reads
   * "Annula_Income", with an income of 0 rather than 50000.
   */
  lemma SampleInApp(rt: Runtime)
    requires ReadsSampleNumerals(rt)
    ensures App.Encode(rt, Sample) ==
      Ok([3.0, 1.0, 0.0, 0.0, 20000.0, 360.0, 720.0, 10000.0, 0.0, 5000.0, 15000.0])
  {
    assert App.Dependents(rt, Sample) == Ok(3);
    assert App.Amount(rt, Sample, "Annula_Income") == Ok(0.0);
    assert App.Amount(rt, Sample, "Loan_Amount") == Ok(20000.0);
    assert App.Amount(rt, Sample, "Loan_Period_Months") == Ok(360.0);
    assert App.Amount(rt, Sample, "Credit_Score") == Ok(720.0);
    assert App.Amount(rt, Sample, "Residential_Assets") == Ok(10000.0);
    assert App.Amount(rt, Sample, "Commercial_Assets") == Ok(0.0);
    assert App.Amount(rt, Sample, "Luxury_Assets") == Ok(5000.0);
    assert App.Amount(rt, Sample, "Bank_Assets") == Ok(15000.0);
  }

  /** app2.py rejects the sample outright: it has no "Dependents" key. */
  lemma SampleInApp2(rt: Runtime)
    ensures App2.Encode(rt, Sample) == Err(BadField("Dependents", Missing))
  {
  }

  /**
   * app.py turns an empty form into eleven zeros (dependents through
   * `int("0")`) and, with a well-formed model, still reaches a decision.
   */
  lemma EmptyFormInApp(rt: Runtime, m: Artifact)
    requires ExpPositive(rt.exp) && m.WellFormed()
    requires rt.parseInt("0") == Some(0)
    ensures App.Encode(rt, map[]) == Ok([0.0, 0.0, 0.0, 0.0, 0.0, 0.0, 0.0, 0.0, 0.0, 0.0, 0.0])
    ensures App.Predict(rt, m, map[]).ResultPage?
  {
    App.ErrorOnlyFromForm(rt, m, map[]);
  }

  /** app2.py sends an empty form to the error page at its first lookup, "Education". */
  lemma EmptyFormInApp2(rt: Runtime, m: Artifact)
    requires ExpPositive(rt.exp)
    ensures App2.Predict(rt, m, map[]) == ErrorPage(BadField("Education", Missing))
  {
  }

  /**
   * On the same feature vector the two handlers never agree on the verdict,
   * and app.py's confidence is app2.py's when app2.py approves, its complement otherwise.
   */
  lemma OppositePolarity(exp: real -> real, m: Artifact, features: seq<real>)
    requires ExpPositive(exp)
    requires |m.transform(features)| == |m.w|
    ensures App.Decide(exp, m, features).Ok? && App2.Decide(exp, m, features).Ok?
    ensures
      var d1, d2 := App.Decide(exp, m, features).value, App2.Decide(exp, m, features).value;
      && d1.verdict != d2.verdict
      && d1.confidence == if d2.verdict == Approved then d2.confidence else 100.0 - d2.confidence
  {
  }

  /** An app2.py form with its keys renamed to the ones app.py reads. */
  function ForApp(form: map<string, string>): (f: map<string, string>)
    requires App2.HasAllFields(form)
    ensures forall i | 0 <= i < |App.Columns| :: Get(f, App.Columns[i]) == Some(form[App2.Columns[i]])
  {
    assert App2.Columns[0] == "Dependents" && App2.Columns[1] == "Education";
    assert App2.Columns[2] == "Self_Employed" && App2.Columns[3] == "Annual_Income";
    assert App2.Columns[4] == "Loan_Amount" && App2.Columns[5] == "Loan_Period";
    assert App2.Columns[6] == "Credit_Score" && App2.Columns[7] == "Residential_Assets";
    assert App2.Columns[8] == "Commercial_Assets" && App2.Columns[9] == "Luxury_Assets";
    assert App2.Columns[10] == "Bank_Assets";
    map[
      "Dependants_namber" := form["Dependents"], "Education" := form["Education"],
      "Self_Employed" := form["Self_Employed"], "Annula_Income" := form["Annual_Income"],
      "Loan_Amount" := form["Loan_Amount"], "Loan_Period_Months" := form["Loan_Period"],
      "Credit_Score" := form["Credit_Score"], "Residential_Assets" := form["Residential_Assets"],
      "Commercial_Assets" := form["Commercial_Assets"], "Luxury_Assets" := form["Luxury_Assets"],
      "Bank_Assets" := form["Bank_Assets"]]
  }

  /**
   * Up to the key names the two encoders agree: a form app2.py encodes,
   * renamed for app.py, encodes to the same vector, unless its dependents
   * text is "3+", which app.py reads as 3 without `int()`.
   */
  lemma SameApplicantSameFeatures(rt: Runtime, form: map<string, string>)
    requires App2.Encode(rt, form).Ok?
    requires form["Dependents"] != "3+"
    ensures App.Encode(rt, ForApp(form)) == App2.Encode(rt, form)
  {
    App2.EncodeSucceedsIff(rt, form);
    var f := ForApp(form);
    assert Get(f, App.Columns[0]) == Some(form[App2.Columns[0]]);
    assert App.DependentsText(f) == form["Dependents"];
    forall i | 1 <= i < |App.Columns|
      ensures Get(f, App.Columns[i]) == Some(form[App2.Columns[i]])
      ensures i >= 3 ==> App.Amount(rt, f, App.Columns[i]) == App2.Amount(rt, form, App2.Columns[i])
    {
    }
    var v1, v2 := App.Encode(rt, f), App2.Encode(rt, form);
    assert v1.Ok?;
    assert v1.value[1] == v2.value[1];
    assert v1.value[2] == v2.value[2];
    assert v1.value == v2.value;
  }

  /** The same applicant, sent to both services, gets opposite verdicts. */
  lemma SameApplicantOppositeVerdicts(rt: Runtime, m: Artifact, form: map<string, string>)
    requires ExpPositive(rt.exp)
    requires App2.Predict(rt, m, form).ResultPage?
    requires form["Dependents"] != "3+"
    ensures App.Predict(rt, m, ForApp(form)).ResultPage?
    ensures App.Predict(rt, m, ForApp(form)).result != App2.Predict(rt, m, form).result
  {
    SameApplicantSameFeatures(rt, form);
    OppositePolarity(rt.exp, m, App2.Encode(rt, form).value);
  }
}
