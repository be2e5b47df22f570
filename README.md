# Breast-cancer classifier API, modelled in Dafny

The service loads a pre-trained binary classifier once when the process
starts and serves it over HTTP:

- `GET /` reports whether a model is held (200 `{"status": "ok"}`) or not
  (500 `{"status": "model-missing"}`).
- `POST /predict` takes `{"features": [30 numbers]}` and answers with
  `{"prediction": <int>}`. It refuses a request through an ordered chain:
  model loaded, then JSON content type, then the `"features"` key, then
  exactly 30 elements that are each `int` or `float`. The first failing
  check decides the answer. Any exception raised along the way becomes a
  500 carrying the exception's text.

Files:

- `wrappers.dfy`: `Option` and `Result`.
- `python.dfy` (module `Python`): the Python objects a JSON body decodes to,
  and the Python semantics the handler relies on. This covers `key in x` on
  a dict, list, str or scalar, `x[key]`, `len(x)`, `isinstance(x, (int,
  float))` (true of `bool`, since `bool` is a subclass of `int`) and
  `all(...)` over a list, a str or a dict. Where Python raises, these
  operations return a `PyError` whose `Message` is `str(e)`.
- `api.dfy` (module `Api`): the `Server` class, whose constructor runs the
  startup load and sets the read-only `model` once. It also holds the
  handlers `Home` and `Predict`, written as pure functions of that model and
  the request.
- `api_properties.dfy` (module `ApiProperties`): one lemma per promise of
  the two endpoints.

The model uses these inputs:

- The startup environment: whether the artifact file exists, and what
  `joblib.load` does with it.
- `request.is_json`.
- The decoded body, or the text of the exception raised by the decoder.
- The classifier: a function from the row of feature values to an integer
  label or the text of what it raised.

Behaviour of api.py worth noting:

- A body that fails to decode makes `get_json` raise. The catch-all then
  answers 500, not 400.
- A `null` or numeric body makes `'features' in data` raise, which also
  gives 500. A list body without the element `"features"` passes that test
  as "absent" and gets 400 "missing key".
- The comment at api.py:61 speaks of four numbers, but the code checks 30.
- The handler passes on whatever integer the classifier returns. Nothing in
  it restricts the label to 0 or 1.
- The model is tested with `is not None`, so a `joblib.load` that returns
  `None` leaves the service without a model, just like one that raises.

## Model

| member | source | states |
|---|---|---|
| `Api.Server.Start` | api.py:16-25 | the model is held exactly when the artifact file exists and `joblib.load` returned an object other than `None` without raising, and it is then that object; `model` is a constant that no handler can reassign |
| `Api.Home` | api.py:28-33 | status 200 with "ok" exactly when a model is held, otherwise 500 with "model-missing" |
| `Api.Predict` | api.py:36-77 | no model gives 500 "Modelo no disponible"; the answer is 200 exactly when the request is JSON, its body is an object whose "features" is a list of 30 numbers, and the classifier returns a label on that list, and the payload is then that label; every other answer is 400 with one of the three validation messages or 500 |
| `Python.Contains` | api.py:54 | `"features" in data`: key membership for a dict, element equality for a list, substring for a str, and a TypeError naming the type for anything else |
| `Python.Occurs` | api.py:54 | str membership is true exactly when the needle occurs at some offset of the haystack |
| `Python.GetItem` | api.py:59 | on a dict, subscripting succeeds exactly when `in` reports the key, and yields its value; a dict without the key raises KeyError; a str or a list raises its own TypeError; any other value is not subscriptable |
| `Python.Len` | api.py:62 | `len` succeeds exactly on str, list and dict and then equals the number of items iterating the value yields; otherwise it raises a TypeError naming the type |
| `Python.Chars` | api.py:62 | iterating a str yields as many items as it has characters, each a one-character str and never a number |
| `Python.JoinChars` | api.py:62 | joining the characters that iterating a str yields gives the str back, so the iteration keeps every character in order |
| `Python.AllNumbers` | api.py:62 | `all(isinstance(x, (int, float)) ...)` over a list is true exactly when every element is a bool, int or float |
| `Python.AllNumbersIn` | api.py:62 | the `all(...)` test on a str, list or dict gives the same answer as the test over the items that iterating it yields: a list's elements, a str's characters, a dict's keys |
| `Python.OnlyListsHoldNumbers` | api.py:62-70 | a value with a non-zero length whose iteration yields only numbers is a list, so only a list can reach the classifier |
| `ApiProperties.HomeReflectsStartup` | api.py:16-33 | `GET /` answers 200 "ok" exactly when startup found and loaded the artifact, otherwise 500 "model-missing" |
| `ApiProperties.UnavailableRejectsEveryRequest` | api.py:41-44 | without a model every request gets 500 "Modelo no disponible", whatever its content type or body |
| `ApiProperties.NonJsonRejected` | api.py:47-50 | with a model, a request not declared JSON gets 400 with the content-type message whatever its body |
| `ApiProperties.MissingFeaturesRejected` | api.py:52-57 | a JSON object without "features", a list without that string as an element, or a str without it as a substring gets 400 with the missing-key message |
| `ApiProperties.BadFeatureListRejected` | api.py:59-65 | a "features" list whose length is not 30 or that holds a non-number gets 400 with the shape message |
| `ApiProperties.NonListFeaturesRejected` | api.py:59-65 | a "features" str or dict gets 400 with the shape message, whatever its length |
| `ApiProperties.BooleanFeaturesAccepted` | api.py:59-73 | a "features" list of 30 booleans passes the checks and reaches the classifier unchanged, answered with its label or with 500 and the text of what it raised |
| `ApiProperties.TwoFeaturesRejected` | test_api.py:49-62 | the request `{"features": [10, 2.5]}` gets 400 |
| `ApiProperties.ValidRequestPredicts` | api.py:59-73 | an accepted request hands its 30 values, unchanged and in order, to the classifier and answers 200 with its label, or 500 with the text of what it raised |
| `ApiProperties.ClassifierSeesOnlyTheRow` | api.py:41-73 | the classifier is consulted only once every check has passed and only on the request's row: classifiers that agree on it give identical responses, and a refused request gets the same response from any classifier |
| `ApiProperties.ExceptionsAnswered500` | api.py:52-77 | an undecodable body, a scalar body, a list body holding "features", a str body containing it, and a "features" value without a length each get 500 with Python's exception text |
| `ApiProperties.NullBodyAnswered500` | api.py:52-54 | a `null` body gets 500 "argument of type 'NoneType' is not iterable" |
| `ApiProperties.SmokeTestRow` | test_api.py:26 | the smoke test's row has 30 elements, all floats |
| `ApiProperties.SmokeTestAccepted` | test_api.py:25-38 | the smoke test's 30-value request reaches the classifier and gets 200 with its label whenever the classifier returns one |

## Left out

- Flask routing, `jsonify` and `app.run` (api.py:79-80) are left out. So are
  all logging calls, since they do not affect any response.
- `os.path.exists` and `joblib.load` become the `fileExists` and `load`
  inputs of `Server.Start`. Deserialization itself is not modelled.
- Werkzeug's `request.is_json` rule and the JSON decoder behind
  `get_json(force=True)` are not part of this model. Their outcomes are
  inputs: a flag, and a decoded value or the exception text. That text
  depends on the Flask and Werkzeug versions.
- `np.array(features).reshape(1, -1)`, `model.predict` and
  `int(prediction[0])` are the opaque `Classifier`. It receives the feature
  values exactly as decoded. The model does not show numpy's conversion to a
  float matrix.
- A dict's keys are iterated in no particular order, because the decoded
  object keeps no insertion order. The `all(...)` test does not depend on
  the order.
- Python's exception texts use CPython 3.11 to 3.13 wording. Other Python
  versions word some of them differently.
- Concurrency: the model is written once before any request, so handlers
  are pure functions of it.
- The training script (`entrenamiento.py`) and the HTTP smoke-test client
  (`test_api.py`) are not modelled. The client's two requests appear only as
  example lemmas.
