/**
 * The inference service: the classifier loaded once at startup, the health
 * probe `GET /` and the prediction endpoint `POST /predict`.
 */
module Api {
  import opened Wrappers
  import opened Python

  /** The fixed schema: the key and the number of features per request. */
  const FEATURES_KEY: string := "features"
  const FEATURE_COUNT: nat := 30

  /** The error texts the handler answers with. */
  const MODEL_UNAVAILABLE: string := "Modelo no disponible"
  const NOT_JSON: string := "Content-Type debe ser application/json"
  const MISSING_FEATURES: string := "Falta la clave \"features\" en los datos de entrada"
  const BAD_FEATURES: string := "Favor revisar que hayan 30 números reales en features."

  /**
   * The loaded artifact: `model.predict` on the single row followed by
   * `int(prediction[0])`.  It receives the feature values exactly as they
   * appeared in the request; a `Failure` carries `str(e)` of whatever it raised.
   */
  type Classifier = seq<Json> -> Result<int, string>

  /**
   * What `joblib.load` does with the artifact file when it exists: return an
   * object other than `None`, return `None`, or raise.
   */
  datatype LoadOutcome =
    | Loaded(classifier: Classifier)
    | LoadedNone
    | LoadRaised(message: string)

  /** A request to `POST /predict` as the handler sees it. */
  datatype Body = Parsed(data: Json) | Malformed(message: string)
  datatype Request = Request(isJson: bool, body: Body)

  /** A JSON response body and its HTTP status code. */
  datatype Payload =
    | StatusBody(status: string)
    | ErrorBody(error: string)
    | PredictionBody(prediction: int)
  datatype Response = Response(code: nat, payload: Payload)

  /** The model the process holds after startup. */
  function LoadAtStartup(fileExists: bool, load: LoadOutcome): (model: Option<Classifier>)
  {
    if fileExists && load.Loaded? then Some(load.classifier) else None
  }

  /**
   * The process-wide state: `model` is set once, when the process starts, and
   * never reassigned afterwards.
   */
  class Server {
    const model: Option<Classifier>

    /**
     * Startup: the artifact is loaded only when its file exists; a load that
     * raises is logged, and both it and a load that returns `None` leave the
     * server without a model.
     */
    constructor Start(fileExists: bool, load: LoadOutcome)
      ensures model.Some? <==> fileExists && load.Loaded?
      ensures model.Some? ==> model.value == load.classifier
      ensures model == LoadAtStartup(fileExists, load)
    {
      var loaded: Option<Classifier> := None;
      if fileExists {
        match load {
          case Loaded(c) =>
            loaded := Some(c);
          case LoadedNone =>
          case LoadRaised(_) =>
        }
      }
      model := loaded;
    }
  }

  /** `GET /`: the service status and whether a model is held. */
  function Home(model: Option<Classifier>): (r: Response)
    ensures r.code == 200 <==> model.Some?
    ensures r.code == 200 || r.code == 500
    ensures r.payload.StatusBody?
    ensures r.payload.status == "ok" <==> model.Some?
    ensures model.None? ==> r.payload.status == "model-missing"
  {
    if model.Some? then Response(200, StatusBody("ok"))
    else Response(500, StatusBody("model-missing"))
  }

  /**
   * The request bodies `POST /predict` accepts: a JSON object whose "features"
   * value is a list of exactly 30 numbers (bool, int or float).
   */
  predicate ValidBody(body: Body)
  {
    && body.Parsed?
    && body.data.Object?
    && FEATURES_KEY in body.data.fields
    && body.data.fields[FEATURES_KEY].Array?
    && |body.data.fields[FEATURES_KEY].items| == FEATURE_COUNT
    && forall i :: 0 <= i < FEATURE_COUNT ==> IsNumber(body.data.fields[FEATURES_KEY].items[i])
  }

  /** The row an accepted body hands to the classifier. */
  function FeatureRow(body: Body): seq<Json>
    requires ValidBody(body)
  {
    body.data.fields[FEATURES_KEY].items
  }

  function Rejected(code: nat, message: string): Response
  {
    Response(code, ErrorBody(message))
  }

  /** The catch-all: an exception becomes a 500 carrying its text. */
  function Crashed(e: PyError): Response
  {
    Rejected(500, Message(e))
  }

  /** The prediction: the classifier's label, or the text of what it raised. */
  function Answer(outcome: Result<int, string>): Response
  {
    match outcome
    case Success(predicted) => Response(200, PredictionBody(predicted))
    case Failure(message) => Rejected(500, message)
  }

  /** The "features" key check, the length-and-type check and the prediction, on a decoded body. */
  function CheckFeatures(classify: Classifier, data: Json): Response
  {
    match Contains(data, FEATURES_KEY)
    case Failure(e) => Crashed(e)
    case Success(present) =>
      if !present then Rejected(400, MISSING_FEATURES)
      else
        match GetItem(data, FEATURES_KEY)
        case Failure(e) => Crashed(e)
        case Success(features) =>
          match Len(features)
          case Failure(e) => Crashed(e)
          case Success(n) =>
            if n != FEATURE_COUNT || !AllNumbersIn(features) then Rejected(400, BAD_FEATURES)
            else
              OnlyListsHoldNumbers(features);
              Answer(classify(features.items))
  }

  /**
   * `POST /predict`: readiness, then content type, then the "features" key,
   * then its length and element types; the first check that fails decides
   * the response.
   */
  function Predict(model: Option<Classifier>, req: Request): (r: Response)
    ensures model.None? ==> r == Rejected(500, MODEL_UNAVAILABLE)
    ensures r.code == 200 <==>
      model.Some? && req.isJson && ValidBody(req.body) && model.value(FeatureRow(req.body)).Success?
    ensures r.code == 200 ==> r.payload == PredictionBody(model.value(FeatureRow(req.body)).value)
    ensures r.code == 200 || r.code == 400 || r.code == 500
    ensures r.code == 400 ==> r.payload in {ErrorBody(NOT_JSON), ErrorBody(MISSING_FEATURES), ErrorBody(BAD_FEATURES)}
  {
    if model.None? then Rejected(500, MODEL_UNAVAILABLE)
    else if !req.isJson then Rejected(400, NOT_JSON)
    else
      match req.body
      case Malformed(message) => Rejected(500, message)
      case Parsed(data) => CheckFeatures(model.value, data)
  }
}
