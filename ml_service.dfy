/** The prediction service (ChickenShield-ML/app.py): `preprocess_input` turns
    a report into the five model features, and `predict` wraps it with its two
    error paths. The loaded artifacts are an `Option` (None: the pickle file
    was missing); the label encoders are maps from label to code; the trained
    models and Python's `int()` are function parameters. */
module MlService {
  import opened Wrappers
  import opened Reports

  const DefaultContentType: string := "website"
  const DefaultReputation: string := "unknown"
  const ModelsNotLoaded: string := "Models not loaded"
  const ModelSetupFailed: string := "Model setup failed"
  /** The message of the `ValueError` a label encoder raises for an unseen label. */
  const UnseenLabel: string := "y contains previously unseen labels"
  /** The message of the `TypeError` that `len(None)` raises. */
  const NoLength: string := "object of type 'NoneType' has no len()"

  /** What `model_data.pkl` provides to preprocessing: the two `LabelEncoder`s. */
  datatype Artifacts = Artifacts(leReputation: map<string, int>, leContentType: map<string, int>)

  /** The one-row feature frame, with its five named columns. */
  datatype Features = Features(
    contentTypeEncoded: int,
    domainAgeDays: int,
    senderReputationEncoded: int,
    numSocialEngIndicators: nat,
    numTechIndicators: nat)

  /** `le.transform([name])[0]`, and on `ValueError` `le.transform([fallback])[0]`;
      a fallback the encoder does not know raises from inside the handler. */
  function EncodeLabel(le: map<string, int>, name: string, fallback: string): (r: Result<int>)
    ensures r.Success? <==> name in le || fallback in le
    ensures name in le ==> r == Success(le[name])
    ensures name !in le && fallback in le ==> r == Success(le[fallback])
  {
    if name in le then Success(le[name])
    else if fallback in le then Success(le[fallback])
    else Failure(UnseenLabel)
  }

  /** `len(data.get(key, []))`: a missing key counts as the empty list, a
      JSON `null` reaches `len` as `None` and raises. */
  function CountOf(items: Field<seq<string>>): (n: Result<nat>)
    ensures items.Absent? ==> n == Success(0)
    ensures items.Null? ==> n == Failure(NoLength)
    ensures items.Value? ==> n == Success(|items.value|)
  {
    match items
    case Absent => Success(0)
    case Null => Failure(NoLength)
    case Value(l) => Success(|l|)
  }

  /** The domain-age rule: 0 when the value is absent, JSON null, the string
      "null" or not convertible by `int()`; otherwise `int(age)`. */
  function DomainAge(age: Option<Scalar>, pyInt: Scalar -> Option<int>): (a: int)
    ensures age.None? || age == Some(JNull) || age == Some(JString("null")) ==> a == 0
    ensures age.Some? && age != Some(JNull) && age != Some(JString("null")) ==>
      a == pyInt(age.value).GetOr(0)
  {
    if age.None? || age == Some(JNull) || age == Some(JString("null")) then 0
    else pyInt(age.value).GetOr(0)
  }

  /** `preprocess_input`. A JSON `null` label is an unseen label for the
      encoder (its `ValueError` is caught and the default is encoded), which is
      the result a missing key gives, so the labels need no `null` case. */
  function PreprocessInput(artifacts: Option<Artifacts>, data: Report, pyInt: Scalar -> Option<int>)
    : (r: Result<Features>)
    ensures artifacts.None? ==> r == Failure(ModelsNotLoaded)
    ensures artifacts.Some? ==>
      var ct := data.contentType.GetOr(DefaultContentType);
      var rep := data.senderReputation.GetOr(DefaultReputation);
      (r.Success? <==>
        (ct in artifacts.value.leContentType || DefaultContentType in artifacts.value.leContentType) &&
        (rep in artifacts.value.leReputation || DefaultReputation in artifacts.value.leReputation) &&
        !data.socialIndicators.Null? && !data.technicalIndicators.Null?)
    ensures r.Failure? ==> r.error in {ModelsNotLoaded, UnseenLabel, NoLength}
    ensures r.Success? ==>
      var ct := data.contentType.GetOr(DefaultContentType);
      var rep := data.senderReputation.GetOr(DefaultReputation);
      Success(r.value.contentTypeEncoded) == EncodeLabel(artifacts.value.leContentType, ct, DefaultContentType) &&
      Success(r.value.senderReputationEncoded) == EncodeLabel(artifacts.value.leReputation, rep, DefaultReputation) &&
      Success(r.value.numSocialEngIndicators) == CountOf(data.socialIndicators) &&
      Success(r.value.numTechIndicators) == CountOf(data.technicalIndicators) &&
      r.value.domainAgeDays == DomainAge(data.domainAgeDays, pyInt)
  {
    match artifacts
    case None => Failure(ModelsNotLoaded)
    case Some(a) =>
      var cType := EncodeLabel(a.leContentType, data.contentType.GetOr(DefaultContentType), DefaultContentType);
      if cType.Failure? then Failure(cType.error)
      else
        var rep := EncodeLabel(a.leReputation, data.senderReputation.GetOr(DefaultReputation), DefaultReputation);
        if rep.Failure? then Failure(rep.error)
        else
          var social := CountOf(data.socialIndicators);
          if social.Failure? then Failure(social.error)
          else
            var tech := CountOf(data.technicalIndicators);
            if tech.Failure? then Failure(tech.error)
            else
              Success(Features(cType.value, DomainAge(data.domainAgeDays, pyInt), rep.value,
                               social.value, tech.value))
  }

  /** With encoders trained on data that contains "website" and "unknown",
      only a `null` indicator list makes preprocessing fail: every other report
      yields features, unknown labels are coded as those defaults, and missing
      fields take their defaults. */
  lemma PreprocessTotalWithDefaults(a: Artifacts, data: Report, pyInt: Scalar -> Option<int>)
    requires DefaultContentType in a.leContentType && DefaultReputation in a.leReputation
    ensures PreprocessInput(Some(a), data, pyInt).Success? <==>
      !data.socialIndicators.Null? && !data.technicalIndicators.Null?
    ensures PreprocessInput(Some(a), data, pyInt).Success? ==>
      var f := PreprocessInput(Some(a), data, pyInt).value;
      (data.contentType.None? || data.contentType.value !in a.leContentType ==>
        f.contentTypeEncoded == a.leContentType[DefaultContentType]) &&
      (data.senderReputation.None? || data.senderReputation.value !in a.leReputation ==>
        f.senderReputationEncoded == a.leReputation[DefaultReputation]) &&
      (data.socialIndicators.Absent? ==> f.numSocialEngIndicators == 0) &&
      (data.technicalIndicators.Absent? ==> f.numTechIndicators == 0)
  {
  }

  /** What the trained score and verdict models give for a feature row. */
  datatype Prediction = Prediction(riskScore: int, verdict: string)

  /** An HTTP response of the service: status and JSON body fields. */
  datatype PredictResponse = PredictResponse(
    status: int, error: Option<string>, riskScore: Option<int>, verdict: Option<string>)

  /** `predict`: no artifacts gives 500 with only an error; any exception while
      preprocessing or predicting gives 500 with score 0 and verdict "unknown";
      otherwise 200 with the models' score and verdict. `infer` stands for the
      two `predict` calls and the `float`/`round`/`str` conversions, a Failure
      being an exception they raise. */
  function Predict(artifacts: Option<Artifacts>, data: Report, pyInt: Scalar -> Option<int>,
                   infer: Features -> Result<Prediction>): (resp: PredictResponse)
    ensures artifacts.None? ==> resp == PredictResponse(500, Some(ModelSetupFailed), None, None)
    ensures resp.status == 200 || resp.status == 500
    ensures resp.status == 500 && artifacts.Some? ==>
      resp.error.Some? && resp.riskScore == Some(0) && resp.verdict == Some("unknown")
    ensures resp.status == 200 <==>
      artifacts.Some? && PreprocessInput(artifacts, data, pyInt).Success? &&
      infer(PreprocessInput(artifacts, data, pyInt).value).Success?
    ensures resp.status == 200 ==>
      var p := infer(PreprocessInput(artifacts, data, pyInt).value).value;
      resp == PredictResponse(200, None, Some(p.riskScore), Some(p.verdict))
  {
    if artifacts.None? then PredictResponse(500, Some(ModelSetupFailed), None, None)
    else
      var features := PreprocessInput(artifacts, data, pyInt);
      if features.Failure? then PredictResponse(500, Some(features.error), Some(0), Some("unknown"))
      else
        var p := infer(features.value);
        if p.Failure? then PredictResponse(500, Some(p.error), Some(0), Some("unknown"))
        else PredictResponse(200, None, Some(p.value.riskScore), Some(p.value.verdict))
  }

  /** `predict` checks for artifacts first, so the "Models not loaded" error of
      `preprocess_input` never reaches a client: a request that fails in
      preprocessing reports the unseen-label error or, for a `null` indicator
      list, the `len` error, with score 0 and verdict "unknown". */
  lemma PreprocessErrorReported(artifacts: Option<Artifacts>, data: Report, pyInt: Scalar -> Option<int>,
                                infer: Features -> Result<Prediction>)
    requires artifacts.Some? && PreprocessInput(artifacts, data, pyInt).Failure?
    ensures var resp := Predict(artifacts, data, pyInt, infer);
      resp.status == 500 && resp.riskScore == Some(0) && resp.verdict == Some("unknown") &&
      resp.error == Some(PreprocessInput(artifacts, data, pyInt).error) &&
      resp.error.value in {UnseenLabel, NoLength}
  {
  }
}
