# Loan approval service: the `/predict` decision pipeline

The service takes a loan application as a web form (field name to text) and
answers "Approved" or "Rejected" with a confidence percentage. It does this with a
pre-trained logistic-regression model. The work happens in `predict()`, and the
repository has two diverging versions of it, app.py and app2.py. The model
covers both. Each one runs in three stages:

1. **Encoding**: the form becomes an 11-entry feature vector in a fixed
   order (dependents, education, self-employed, income, loan amount, loan
   period, credit score, residential, commercial, luxury and bank assets).
2. **Decision rule**: `predict()` applies the pickled scaler, then
   `predict_logic` computes the linear score `x . W + b`, the sigmoid of the
   score clipped to [-500, 500], and class 1 when the probability is at
   least 0.5.
3. **Labelling**: the class becomes a verdict and a confidence. The two
   versions use opposite polarity. In app.py class 0 is "Approved" and the
   confidence is the probability of the predicted class. In app2.py class 1 is
   "Approved" and the confidence is always the probability of class 1.

Any exception ends the request on the error page, which carries no verdict.

Files:

- `outcomes.dfy`: `Option`, `Result`, the `Failure` that reaches the error
  page, `Label`, `Decision` and `Page`.
- `host.dfy`: `Runtime`, which holds Python's `int()` and `float()` on text
  and numpy's `exp`, passed in as function values. It also states the laws of
  `exp` that the proofs use: it is positive, `exp(0) = 1`, and it is strictly
  increasing.
- `logistic.dfy`: the model artifact (weights, bias, an opaque scaler), plus
  `np.clip`, the sigmoid, the dot product and `predict_logic`. These are
  textually identical in app.py:25-32 and app2.py:25-32, so they are defined
  once.
- `app.dfy`: app.py's handler. Missing keys take defaults, "3+" means 3 and
  class 0 is "Approved".
- `app2.dfy`: app2.py's handler. Every key is required, there is no "3+"
  case and class 1 is "Approved".
- `variants.dfy`: worked sample forms and the relation between the two
  handlers. On the same feature vector their verdicts are always opposite.

Behaviour of the two handlers that is easy to miss:

- A present but unparseable numeric field fails the request in both
  versions. It does not default to 0.0.
- app.py reads income from the key "Annula_Income" and dependents from
  "Dependants_namber". A form that sends "Annual_Income" gets an income of 0.
  So the sample form `Variants.Sample`, with "Annual_Income" = "50000",
  encodes to an income of 0.0 in app.py (`Variants.SampleInApp`). app2.py rejects the same
  sample because it has no "Dependents" key (`Variants.SampleInApp2`).
- app2.py reports the probability of class 1 even for a rejection. A
  rejection there always shows a confidence below 50%. It does not show the
  probability of the predicted class (`App2.Decide`).
- An empty form reaches a decision only in app.py. app2.py fails at its
  first lookup, "Education".

## Model

| member | source | states |
|---|---|---|
| Logistic.Clip | app.py:26 | the clipped score lies in [-500, 500], equals the score when the score is already in range, and keeps the score's sign |
| Logistic.ClipMonotone | app.py:26 | clipping preserves the order of scores |
| Logistic.Sigmoid | app.py:25-27 | for any score the probability lies strictly between 0 and 1 (so clipping leaves no overflow case) |
| Logistic.SigmoidAtZero | app.py:27 | a zero score gives probability exactly 1/2 |
| Logistic.SigmoidMonotone | app.py:25-27 | a larger score never gives a smaller probability |
| Logistic.SigmoidAtLeastHalf | app.py:25-27 | the probability is at least 1/2 exactly when the score is not negative (the clip changes no decision) |
| Logistic.Dot | app.py:30 | the sum of `x[i] * w[i]` over the reals, defined only for vectors of equal length (`PredictLogic` reports a mismatch as the shape error); a zero feature vector scores 0 |
| Logistic.DotZeroWeights | app.py:30 | with all weights zero the dot product is 0 for any input |
| Logistic.Threshold | app.py:32 | the class is 0 or 1, and it is 1 exactly when p >= 0.5, so p = 0.5 gives class 1 |
| Logistic.PredictLogic | app.py:29-32 | lengths that differ raise the shape error; otherwise p is in (0, 1) and the class is 1 exactly when p >= 0.5 |
| Logistic.ClassIsSignOfScore | app.py:29-32 | the predicted class is 1 exactly when `x . W + b >= 0` |
| Logistic.ZeroModelTies | app.py:29-32 | zero weights and bias give p = 0.5 and class 1 for every input |
| App.DependentsText | app.py:51 | the dependents text is the form's value when the key is present and "0" when it is absent |
| App.Dependents | app.py:51-52 | "3+" is 3; a missing key is read as the text "0"; any other text is its `int()` value, and a text `int()` rejects fails the request instead of defaulting |
| App.Flag | app.py:55-58 | a yes/no feature is 0 or 1, and it is 1 exactly when the key is present with the exact text ("Graduate", "Yes"); a missing key gives 0 |
| App.Amount | app.py:61-68 | a numeric feature is 0.0 when its key is absent, its `float()` value when present, and a present unparseable text fails the request |
| App.Encode | app.py:50-86 | the request encodes exactly when the dependents text and every present numeric text parse; the vector has 11 entries, and entry i comes from key `Columns[i]` in the source's order; the reported error is the dependents field when its text is bad, otherwise the first failing numeric key in column order |
| App.EncodeReadsOnlyColumns | app.py:50-86 | forms that agree on the eleven keys encode identically, so no other key has any effect |
| App.AnnualIncomeIgnored | app.py:61 | the key "Annual_Income" never changes the encoding; without "Annula_Income" the income entry is 0 |
| App.Verdict | app.py:97-98 | class 0 is "Approved" and class 1 "Rejected", and the page shows exactly those texts |
| App.Confidence | app.py:100-104 | an approval reports 100 - 100p, a rejection 100p, and for p in [0, 1] the value lies in [0, 100] |
| App.Decide | app.py:89-104 | a scaler output of the wrong length raises the shape error; otherwise the verdict is "Approved" exactly when p < 0.5, and the confidence is 100 * max(p, 1 - p), the probability of the predicted class, in [50, 100) |
| App.Predict | app.py:40-117 | the result page appears exactly when encoding succeeds and the shapes match; it echoes the form and carries the decision; an encoding error is the error page's error, and after a successful encoding the error is the shape mismatch |
| App.ErrorOnlyFromForm | app.py:88-95 | with a well-formed model (11 weights, length-preserving scaler) the error page appears exactly when the form does not encode |
| App.ApprovedIffNegativeScore | app.py:95-98 | an application is approved exactly when its linear score is negative |
| App.ZeroModelRejects | app.py:95-104 | zero weights and bias reject every encodable form with confidence 50 |
| App2.Field | app2.py:48-63 | `form[key]` yields the value for a present key and a missing-key error otherwise |
| App2.Flag | app2.py:48-49 | a yes/no feature is 0 or 1, and it is 1 exactly when the text is "Graduate" or "Yes"; a missing key fails the request |
| App2.Count | app2.py:53 | the dependents feature is the `int()` value of a present key; a missing key or rejected text fails, with no "3+" case |
| App2.Amount | app2.py:56-63 | a numeric feature is the `float()` value of a present key; missing or unparseable fails |
| App2.Encode | app2.py:48-64 | the request encodes exactly when every reading succeeds; the vector has 11 entries in the same order as app.py, and entry i comes from key `Columns[i]`; a missing "Education" is the reported error |
| App2.EncodeSucceedsIff | app2.py:48-64 | a form encodes exactly when all eleven keys are present, the dependents text is an integer and every numeric text parses |
| App2.Verdict | app2.py:75 | class 1 is "Approved" and class 0 "Rejected", and the page shows exactly those texts |
| App2.Confidence | app2.py:76 | the confidence is 100p whatever the verdict: in (0, 100) for p in (0, 1), and at least 50 exactly when p >= 0.5 |
| App2.Decide | app2.py:66-76 | a scaler output of the wrong length raises the shape error; otherwise "Approved" exactly when p >= 0.5, and the confidence is 100 * p, at least 50 when approved and below 50 when rejected |
| App2.Predict | app2.py:40-85 | the result page appears exactly when encoding succeeds and the shapes match; it echoes the form; an encoding error is the error page's error, and after a successful encoding the error is the shape mismatch |
| App2.MissingFieldFails | app2.py:48-64 | a form missing any of the eleven keys always gets the error page |
| App2.ThreePlusFails | app2.py:53 | since `int("3+")` raises, a dependents text "3+" always gets the error page |
| App2.ErrorOnlyFromForm | app2.py:66-85 | with a well-formed model the error page appears exactly when the form does not encode |
| App2.ApprovedIffNonNegativeScore | app2.py:73-75 | an application is approved exactly when its linear score is not negative |
| App2.ZeroModelApproves | app2.py:73-76 | zero weights and bias approve every encodable form with confidence 50 |
| Variants.SampleInApp | app.py:50-86 | the sample form encodes to [3, 1, 0, 0, 20000, 360, 720, 10000, 0, 5000, 15000]; the income is 0 because of the "Annula_Income" key |
| Variants.SampleInApp2 | app2.py:48-53 | the sample form fails with the "Dependents" key missing |
| Variants.EmptyFormInApp | app.py:50-95 | an empty form encodes to eleven zeros and, with a well-formed model, reaches a decision |
| Variants.EmptyFormInApp2 | app2.py:48 | an empty form gets the error page for the missing "Education" |
| Variants.OppositePolarity | app.py:97-104 | on the same feature vector app.py and app2.py always give opposite verdicts; app.py's confidence equals app2.py's when app2.py approves and is 100 minus it otherwise |
| Variants.SameApplicantSameFeatures | app2.py:52-64 | a form app2.py encodes, with its keys renamed to app.py's, gets the same vector from app.py (unless the dependents text is "3+") |
| Variants.SameApplicantOppositeVerdicts | app2.py:75 | the same applicant sent to both services gets opposite verdicts |

## Left out

- Flask setup, the routes, `render_template` and the debug server are HTTP and
  UI plumbing. The rendered page is modelled as the `Page` value.
- Loading `W`, `b` and the scaler from the pickle, and `exit()` when the file
  is missing, are start-up file I/O. The model artifact is a parameter.
- The scaler's `transform` is an opaque fitted object. It is an arbitrary
  function on vectors, and an output of the wrong length surfaces as
  `np.dot`'s shape error. Its own errors and its actual normalisation are not
  modelled.
- The grammar of Python's `int()` and `float()` (whitespace, signs,
  underscores, exponents, "inf" and "nan") is not modelled. They are
  arbitrary partial functions. A property that depends on how a particular
  text is read says so in its `requires`.
- Floating-point behaviour is idealised over the reals. This covers `np.exp`
  (abstract, with positivity, `exp(0) = 1` and monotonicity as laws), the
  rounding of `np.dot`, and conversions of large integers to float.
- NumPy array shapes (`reshape(1, -1)`, the `[0]` indexing of the outputs)
  are treated as scalars and vectors.
- The `.2f%` formatting of the confidence is left out. The confidence is a real
  number of percent.
- The text of the exception shown on the error page, and the
  `print`/`traceback` logging, are left out. The error page carries a
  failing field and reason, or the shape mismatch. For app.py the field is the
  one the source reports first; for app2.py only a missing "Education" is pinned
  down as the reported field.
- Repeated keys in the form (Flask's multi-dict) are left out. The form is a
  map, and `.get` yields its value.
- Logistic.Sigmoid: the clip's purpose of avoiding overflow in `np.exp` is a
  floating-point matter. Over the reals only the range of the result is stated.
- App.Decide: the confidence bound "below 100" holds over the reals. In float64,
  `1 / (1 + exp(-z))` rounds to exactly 1.0 once the score is above about 37,
  so app.py can show "100.00%" for a rejection (and app2.py for an approval).
- Logistic.SigmoidAtLeastHalf: "p >= 0.5 exactly when the score is not negative"
  holds over the reals. In float64 a score in roughly (-1.1e-16, 0) also gives
  p = 0.5 and class 1, so App.ApprovedIffNegativeScore and
  App2.ApprovedIffNonNegativeScore can differ from the service on such scores.
- NaN is not modelled. Python's `float()` accepts "nan"; if the scaler passes it
  through, `NaN >= 0.5` is false and the class is 0, so app.py shows "Approved"
  with "nan%" and app2.py shows "Rejected" with "nan%".
