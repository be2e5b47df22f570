/**
 * What the two endpoints promise, stated over all requests and all
 * classifiers.
 */
module ApiProperties {
  import opened Wrappers
  import opened Python
  import opened Api

  /** `GET /` answers 200 "ok" exactly when startup found and loaded the artifact. */
  lemma HomeReflectsStartup(fileExists: bool, load: LoadOutcome)
    ensures Home(LoadAtStartup(fileExists, load)) ==
      if fileExists && load.Loaded? then Response(200, StatusBody("ok"))
      else Response(500, StatusBody("model-missing"))
  {
  }

  /** Without a model every prediction request is refused, whatever it holds. */
  lemma UnavailableRejectsEveryRequest(req: Request)
    ensures Predict(None, req) == Response(500, ErrorBody("Modelo no disponible"))
  {
  }

  /** With a model, a request not declared as JSON is refused before its body is read. */
  lemma NonJsonRejected(classify: Classifier, body: Body)
    ensures Predict(Some(classify), Request(false, body)) ==
      Response(400, ErrorBody("Content-Type debe ser application/json"))
  {
  }

  /**
   * A JSON body without the "features" key is refused with 400.  Python's `in`
   * also reads a list body as "has an element equal to the string" and a str
   * body as "has it as a substring".
   */
  lemma MissingFeaturesRejected(classify: Classifier, data: Json)
    requires
      || (data.Object? && "features" !in data.fields)
      || (data.Array? && Str("features") !in data.items)
      || (data.Str? && forall i :: !OccursAt("features", data.s, i))
    ensures Predict(Some(classify), Request(true, Parsed(data))) ==
      Response(400, ErrorBody("Falta la clave \"features\" en los datos de entrada"))
  {
  }

  /** A "features" list of the wrong length, or holding a non-number, is refused with 400. */
  lemma BadFeatureListRejected(classify: Classifier, fields: map<string, Json>, xs: seq<Json>)
    requires "features" in fields && fields["features"] == Array(xs)
    requires |xs| != 30 || exists i :: 0 <= i < |xs| && !IsNumber(xs[i])
    ensures Predict(Some(classify), Request(true, Parsed(Object(fields)))) ==
      Response(400, ErrorBody("Favor revisar que hayan 30 números reales en features."))
  {
  }

  /**
   * A "features" str or dict is refused with 400 as well: `len` accepts it,
   * but what iterating it yields (characters, keys) is never a number.
   */
  lemma NonListFeaturesRejected(classify: Classifier, fields: map<string, Json>)
    requires "features" in fields && (fields["features"].Str? || fields["features"].Object?)
    ensures Predict(Some(classify), Request(true, Parsed(Object(fields)))) ==
      Response(400, ErrorBody("Favor revisar que hayan 30 números reales en features."))
  {
  }

  /**
   * A list of 30 booleans passes the length-and-type check and reaches the
   * classifier, since Python's bool is a subclass of int.
   */
  lemma BooleanFeaturesAccepted(classify: Classifier, row: seq<Json>)
    requires |row| == 30 && forall i :: 0 <= i < 30 ==> row[i].Bool?
    ensures Predict(Some(classify), Request(true, Parsed(Object(map["features" := Array(row)])))) ==
      match classify(row)
      case Success(predicted) => Response(200, PredictionBody(predicted))
      case Failure(message) => Response(500, ErrorBody(message))
  {
  }

  /** The smoke test's two-element list `[10, 2.5]` is refused with 400. */
  lemma TwoFeaturesRejected(classify: Classifier)
    ensures Predict(Some(classify), Request(true, Parsed(Object(map["features" := Array([Int(10), Float(Finite(2.5))])])))).code == 400
  {
  }

  /**
   * An accepted request hands its 30 values, unchanged and in order, to the
   * classifier as one row, and answers with the label it returns, or with 500
   * and the text of what it raised.
   */
  lemma ValidRequestPredicts(classify: Classifier, req: Request)
    requires req.isJson && ValidBody(req.body)
    ensures |FeatureRow(req.body)| == 30
    ensures FeatureRow(req.body) == req.body.data.fields["features"].items
    ensures Predict(Some(classify), req) ==
      match classify(FeatureRow(req.body))
      case Success(predicted) => Response(200, PredictionBody(predicted))
      case Failure(message) => Response(500, ErrorBody(message))
  {
  }

  /**
   * The classifier is consulted only after every check has passed, and only
   * on the request's row: two classifiers that agree on that row (or a request
   * that fails a check) give the same response.
   */
  lemma ClassifierSeesOnlyTheRow(c1: Classifier, c2: Classifier, req: Request)
    requires req.isJson && ValidBody(req.body) ==> c1(FeatureRow(req.body)) == c2(FeatureRow(req.body))
    ensures Predict(Some(c1), req) == Predict(Some(c2), req)
  {
  }

  /** Whatever Python raises along the chain is answered with 500 and `str(e)`. */
  lemma ExceptionsAnswered500(classify: Classifier, req: Request)
    requires req.isJson
    ensures req.body.Malformed? ==>
      Predict(Some(classify), req) == Response(500, ErrorBody(req.body.message))
    ensures req.body.Parsed? && !Sized(req.body.data) ==>
      Predict(Some(classify), req) ==
        Response(500, ErrorBody("argument of type '" + TypeName(req.body.data) + "' is not iterable"))
    ensures req.body.Parsed? && req.body.data.Array? && Str("features") in req.body.data.items ==>
      Predict(Some(classify), req) ==
        Response(500, ErrorBody("list indices must be integers or slices, not str"))
    ensures req.body.Parsed? && req.body.data.Str? && Occurs("features", req.body.data.s) ==>
      Predict(Some(classify), req) ==
        Response(500, ErrorBody("string indices must be integers, not 'str'"))
    ensures
      (req.body.Parsed? && req.body.data.Object? && "features" in req.body.data.fields
       && !Sized(req.body.data.fields["features"])) ==>
      Predict(Some(classify), req) ==
        Response(500, ErrorBody("object of type '" + TypeName(req.body.data.fields["features"]) + "' has no len()"))
  {
  }

  /** A `null` body, for one, gets Python's own message. */
  lemma NullBodyAnswered500(classify: Classifier)
    ensures Predict(Some(classify), Request(true, Parsed(Null))) ==
      Response(500, ErrorBody("argument of type 'NoneType' is not iterable"))
  {
    assert Message(NotContainer("NoneType")) == "argument of type 'NoneType' is not iterable";
  }

  /** The 30 values of the smoke test's request are accepted and reach the classifier. */
  lemma SmokeTestAccepted(classify: Classifier)
    ensures
      var row := SmokeTestRow();
      var req := Request(true, Parsed(Object(map["features" := Array(row)])));
      classify(row).Success? ==>
        Predict(Some(classify), req) == Response(200, PredictionBody(classify(row).value))
  {
  }

  /** The feature values of the smoke test's request, as floats. */
  function SmokeTestRow(): (row: seq<Json>)
    ensures |row| == 30 && forall i :: 0 <= i < |row| ==> row[i].Float?
  {
    var values: seq<real> :=
      [17.99, 10.38, 122.8, 1001.0, 0.1184, 0.2776, 0.3001, 0.1471, 0.2419, 0.07871,
       1.095, 0.9053, 8.589, 153.4, 0.006399, 0.04904, 0.05373, 0.01587, 0.03003, 0.006193,
       25.38, 17.33, 184.6, 2019.0, 0.1622, 0.6656, 0.7119, 0.2654, 0.4601, 0.1189];
    seq(|values|, i requires 0 <= i < |values| => Float(Finite(values[i])))
  }
}
