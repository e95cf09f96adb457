/**
 * The /predict request handler: the checks it makes, in the order it makes
 * them, the choice between the SVM path (scale, then classify) and the
 * XGBoost path (classify the raw features), and the response it builds.
 * Every collaborator (decoder, extractor stages, scaler, classifiers, label
 * encoder) is a function value; each answer of the handler comes with the
 * sequence of collaborator calls it made.
 */
module Predict {
  import opened Wrappers
  import opened Text
  import opened Features

  /** A fitted scaler's `transform` on one row; None when it raises. */
  type Scaler = seq<real> -> Option<seq<real>>

  /** A fitted classifier's `predict` on one row, giving a class id; None when it raises. */
  type Classifier = seq<real> -> Option<int>

  /** The label encoder's `inverse_transform` on one class id; None when it raises. */
  type LabelDecoder = int -> Option<string>

  /** The four artifacts loaded at startup; None is an artifact that is not loaded. */
  datatype Artifacts = Artifacts(
    svm: Option<Classifier>,
    scaler: Option<Scaler>,
    xgb: Option<Classifier>,
    labels: Option<LabelDecoder>)
  {
    /** All four artifacts are present. */
    predicate Ready()
    {
      svm.Some? && scaler.Some? && xgb.Some? && labels.Some?
    }
  }

  /**
   * Startup: the four files are loaded in one block, and a missing file sets
   * all four to None, so the service is either fully loaded or not at all.
   * Each argument is the artifact read from its file, or None when the file is missing.
   */
  function LoadArtifacts(svm: Option<Classifier>, scaler: Option<Scaler>,
                         xgb: Option<Classifier>, labels: Option<LabelDecoder>): (a: Artifacts)
    ensures a.Ready() <==> svm.Some? && scaler.Some? && xgb.Some? && labels.Some?
    ensures !a.Ready() ==> a.svm.None? && a.scaler.None? && a.xgb.None? && a.labels.None?
    ensures a.Ready() ==> a == Artifacts(svm, scaler, xgb, labels)
  {
    if svm.Some? && scaler.Some? && xgb.Some? && labels.Some? then
      Artifacts(svm, scaler, xgb, labels)
    else
      Artifacts(None, None, None, None)
  }

  /** Everything the handler reads: the startup state and the library calls it makes. */
  datatype Context = Context(
    artifacts: Artifacts,
    decode: string -> Option<Image>,  // base64 decode, open with PIL, RGB to BGR
    stages: Stages)

  /** A parsed JSON request body. */
  datatype Json =
    | JNull
    | JBool(b: bool)
    | JNumber(n: real)
    | JString(s: string)
    | JArray(items: seq<Json>)
    | JObject(fields: map<string, Json>)

  /** `sub` occurs in `s` (Python's `sub in s` on strings). */
  predicate Contains(s: string, sub: string)
  {
    sub <= s || (s != [] && Contains(s[1..], sub))
  }

  /** Python's `key in data`: None when the operator raises TypeError (null, booleans, numbers). */
  function HasKey(data: Json, key: string): Option<bool>
  {
    match data
    case JObject(fields) => Some(key in fields)
    case JArray(items) => Some(JString(key) in items)
    case JString(s) => Some(Contains(s, key))
    case _ => None
  }

  /** Why the handler's catch-all answered 500. */
  datatype Cause =
    | BodyNotJson      // reading the JSON body raised
    | NotContainer     // `'image' in data` raised
    | NotObject        // `data.get` raised: the body is a list or a string
    | ModelNotString   // `.lower()` on a model value that is not a string
    | ImageNotString   // `.split` on an image value that is not a string
    | DecodeFailed     // base64 decoding, image opening or colour conversion raised
    | ScalerFailed
    | ClassifierFailed
    | LabelDecodeFailed

  datatype Failure =
    | ModelsNotLoaded
    | MissingImageKey
    | ExtractionFailed
    | UnknownModel(token: string)
    | Internal(cause: Cause)

  /** The version tag of the feature pipeline, returned with every prediction. */
  const VERSION: string := "v2 (Warna+Tekstur+Bentuk)"

  datatype Response =
    | Ok(prediction: string, modelVersion: string, modelUsed: string)
    | Err(status: nat, failure: Failure)

  /** The collaborator calls a request can make, with their arguments. */
  datatype Call =
    | DecodeImage(payload: string)
    | ExtractFeatures(image: Image)
    | Scale(features: seq<real>)
    | ClassifySvm(input: seq<real>)
    | ClassifyXgb(input: seq<real>)
    | DecodeLabel(classId: int)
  {
    predicate IsClassifier() { ClassifySvm? || ClassifyXgb? }
  }

  /** A response together with the calls made to produce it, in order. */
  datatype Run = Run(response: Response, calls: seq<Call>)

  /** The error text of each failure; for Internal, the fixed prefix of the exception text. */
  function Message(f: Failure): string
  {
    match f
    case ModelsNotLoaded => "Satu atau lebih file model (SVM/XGB/Scaler/Encoder) tidak berhasil dimuat."
    case MissingImageKey => "Request JSON tidak memiliki key 'image'"
    case ExtractionFailed => "Gagal memproses gambar."
    case UnknownModel(t) => "Model '" + t + "' tidak dikenali. Pilih 'svm' atau 'xgboost'."
    case Internal(_) => "Terjadi kesalahan internal: "
  }

  /** The handler: loaded artifacts first, then the body, then the image key. */
  function Predict(ctx: Context, body: Option<Json>): Run
  {
    if !ctx.artifacts.Ready() then Run(Err(500, ModelsNotLoaded), [])
    else
      match body
      case None => Run(Err(500, Internal(BodyNotJson)), [])
      case Some(data) =>
        match HasKey(data, "image")
        case None => Run(Err(500, Internal(NotContainer)), [])
        case Some(false) => Run(Err(400, MissingImageKey), [])
        case Some(true) =>
          match data
          case JObject(fields) => RouteObject(ctx, fields)
          case _ => Run(Err(500, Internal(NotObject)), [])
  }

  /** `data.get('model', 'svm').lower()`: None when the value is not a string. */
  function ModelChoice(fields: map<string, Json>): Option<string>
  {
    var raw := if "model" in fields then fields["model"] else JString("svm");
    match raw
    case JString(s) => Some(Lower(s))
    case _ => None
  }

  /** A JSON object that has the image key: read the model choice, then the image string. */
  function RouteObject(ctx: Context, fields: map<string, Json>): Run
    requires ctx.artifacts.Ready() && "image" in fields
  {
    match ModelChoice(fields)
    case None => Run(Err(500, Internal(ModelNotString)), [])
    case Some(choice) =>
      match fields["image"]
      case JString(image) => Route(ctx, choice, image)
      case _ => Run(Err(500, Internal(ImageNotString)), [])
  }

  /** Strip the header, decode, extract; only then is the model choice looked at. */
  function Route(ctx: Context, choice: string, image: string): Run
    requires ctx.artifacts.Ready()
  {
    var payload := StripHeader(image);
    match ctx.decode(payload)
    case None => Run(Err(500, Internal(DecodeFailed)), [DecodeImage(payload)])
    case Some(img) =>
      var prefix := [DecodeImage(payload), ExtractFeatures(img)];
      match Extract(ctx.stages, img)
      case None => Run(Err(500, ExtractionFailed), prefix)
      case Some(features) =>
        var r := Classify(ctx.artifacts, choice, features);
        Run(r.response, prefix + r.calls)
  }

  /** Dispatch on the lower-cased choice: "svm" scales first, "xgboost" does not, anything else is refused. */
  function Classify(a: Artifacts, choice: string, features: seq<real>): Run
    requires a.Ready()
  {
    if choice == "svm" then
      match a.scaler.value(features)
      case None => Run(Err(500, Internal(ScalerFailed)), [Scale(features)])
      case Some(scaled) =>
        match a.svm.value(scaled)
        case None => Run(Err(500, Internal(ClassifierFailed)), [Scale(features), ClassifySvm(scaled)])
        case Some(id) => Finish(a, id, "SVM", [Scale(features), ClassifySvm(scaled)])
    else if choice == "xgboost" then
      match a.xgb.value(features)
      case None => Run(Err(500, Internal(ClassifierFailed)), [ClassifyXgb(features)])
      case Some(id) => Finish(a, id, "XGBoost", [ClassifyXgb(features)])
    else
      Run(Err(400, UnknownModel(choice)), [])
  }

  /** Decode the class id to its label and build the success response. */
  function Finish(a: Artifacts, id: int, modelUsed: string, calls: seq<Call>): Run
    requires a.Ready()
  {
    match a.labels.value(id)
    case None => Run(Err(500, Internal(LabelDecodeFailed)), calls + [DecodeLabel(id)])
    case Some(denomination) => Run(Ok(denomination, VERSION, modelUsed), calls + [DecodeLabel(id)])
  }

  // ---------------------------------------------------------------------
  // Properties of the handler

  /** Status codes by failure: 400 for the caller's mistakes, 500 for everything else. */
  function StatusOf(f: Failure): nat
  {
    match f
    case MissingImageKey => 400
    case UnknownModel(_) => 400
    case _ => 500
  }

  /** Some call in the trace is to the scaler. */
  predicate CallsScaler(calls: seq<Call>)
  {
    exists i :: 0 <= i < |calls| && calls[i].Scale?
  }

  /** Some call in the trace is to a classifier. */
  predicate CallsClassifier(calls: seq<Call>)
  {
    exists i :: 0 <= i < |calls| && calls[i].IsClassifier()
  }

  /** A request with the image key and the model key bound to `token`. */
  function WithModel(fields: map<string, Json>, token: string): Json
  {
    JObject(fields["model" := JString(token)])
  }

  /** A startup where some file is missing leaves a service that answers every body with 500 and calls nothing. */
  lemma FailedStartupAnswers500(svm: Option<Classifier>, scaler: Option<Scaler>, xgb: Option<Classifier>,
                                labels: Option<LabelDecoder>, decode: string -> Option<Image>, stages: Stages,
                                body: Option<Json>)
    requires svm.None? || scaler.None? || xgb.None? || labels.None?
    ensures Predict(Context(LoadArtifacts(svm, scaler, xgb, labels), decode, stages), body) ==
              Run(Err(500, ModelsNotLoaded), [])
  {
  }

  /** Missing artifacts answer 500 before the body is looked at, whatever the body is. */
  lemma ArtifactsCheckedFirst(ctx: Context, body: Option<Json>)
    requires !ctx.artifacts.Ready()
    ensures Predict(ctx, body) == Run(Err(500, ModelsNotLoaded), [])
  {
  }

  /** Every error carries the status its failure calls for. */
  lemma StatusFollowsFailure(ctx: Context, body: Option<Json>)
    ensures Predict(ctx, body).response.Err? ==>
              Predict(ctx, body).response.status == StatusOf(Predict(ctx, body).response.failure)
  {
  }

  /**
   * The missing-image answer (400) is given exactly when the artifacts are
   * loaded and `'image' in data` is false, and then nothing is called.
   */
  lemma MissingImageKeyIs400(ctx: Context, body: Option<Json>)
    ensures Predict(ctx, body).response == Err(400, MissingImageKey) <==>
              ctx.artifacts.Ready() && body.Some? && HasKey(body.value, "image") == Some(false)
    ensures Predict(ctx, body).response == Err(400, MissingImageKey) ==> Predict(ctx, body).calls == []
  {
  }

  /** Two spellings of the model choice that lower-case alike give the same run. */
  lemma ChoiceIgnoresCase(ctx: Context, fields: map<string, Json>, a: string, b: string)
    requires Lower(a) == Lower(b)
    ensures Predict(ctx, Some(WithModel(fields, a))) == Predict(ctx, Some(WithModel(fields, b)))
  {
  }

  /** A request without a model choice is a request for "svm". */
  lemma DefaultChoiceIsSvm(ctx: Context, fields: map<string, Json>)
    requires "model" !in fields
    ensures Predict(ctx, Some(JObject(fields))) == Predict(ctx, Some(WithModel(fields, "svm")))
  {
  }

  /** "SVM", "Svm" and "svm" are the same request. */
  lemma SvmSpellingsAgree(ctx: Context, fields: map<string, Json>)
    ensures Predict(ctx, Some(WithModel(fields, "SVM"))) == Predict(ctx, Some(WithModel(fields, "svm")))
    ensures Predict(ctx, Some(WithModel(fields, "Svm"))) == Predict(ctx, Some(WithModel(fields, "svm")))
  {
    LowerMatchesWord("SVM", "svm");
    LowerMatchesWord("Svm", "svm");
    LowerMatchesWord("svm", "svm");
    ChoiceIgnoresCase(ctx, fields, "SVM", "svm");
    ChoiceIgnoresCase(ctx, fields, "Svm", "svm");
  }

  /**
   * The decoder only ever sees the image string with its header stripped: a
   * comma-free suffix of it, the whole string when it has no comma.
   */
  lemma DecoderSeesStrippedPayload(ctx: Context, body: Option<Json>, p: string)
    requires DecodeImage(p) in Predict(ctx, body).calls
    ensures body.Some? && body.value.JObject? && "image" in body.value.fields
    ensures body.value.fields["image"].JString?
    ensures var image := body.value.fields["image"].s;
      p == StripHeader(image) && IsSuffix(p, image) && ',' !in p && (',' !in image ==> p == image)
  {
    var fields := body.value.fields;
    var image := fields["image"].s;
    var payload := StripHeader(image);
    if ctx.decode(payload).Some? {
      var img := ctx.decode(payload).value;
      if Extract(ctx.stages, img).Some? {
        var r := Classify(ctx.artifacts, ModelChoice(fields).value, Extract(ctx.stages, img).value);
        assert Predict(ctx, body).calls == [DecodeImage(payload), ExtractFeatures(img)] + r.calls;
        assert DecodeImage(p) !in r.calls;
      }
    }
    StripHeaderSpec(image);
  }

  /**
   * A bad image is reported before a bad model choice: when decoding or
   * extraction fails the answer is 500 whatever the choice, and no classifier
   * or scaler is called.
   */
  lemma ImageFailuresPrecedeChoice(ctx: Context, fields: map<string, Json>, image: string)
    requires ctx.artifacts.Ready() && "image" in fields && fields["image"] == JString(image)
    requires ModelChoice(fields).Some?
    ensures var p := StripHeader(image);
      ctx.decode(p).None? ==>
        Predict(ctx, Some(JObject(fields))) == Run(Err(500, Internal(DecodeFailed)), [DecodeImage(p)])
    ensures var p := StripHeader(image);
      ctx.decode(p).Some? && Extract(ctx.stages, ctx.decode(p).value).None? ==>
        Predict(ctx, Some(JObject(fields))) ==
          Run(Err(500, ExtractionFailed), [DecodeImage(p), ExtractFeatures(ctx.decode(p).value)])
  {
  }

  /** The classification step for each choice: what it calls, in which order, and what an answer means. */
  lemma ClassifyPaths(a: Artifacts, choice: string, f: seq<real>)
    requires a.Ready()
    ensures var r := Classify(a, choice, f);
      r.response.Ok? ==> r.response.modelVersion == VERSION && (choice == "svm" || choice == "xgboost")
    ensures var r := Classify(a, choice, f);
      r.response.Err? && r.response.failure.UnknownModel? ==>
        choice != "svm" && choice != "xgboost" && r.response.failure.token == choice && r.calls == []
    ensures var r := Classify(a, choice, f);
      choice == "svm" ==>
        |r.calls| >= 1 && r.calls[0] == Scale(f) &&
        (a.scaler.value(f).Some? ==> |r.calls| >= 2 && r.calls[1] == ClassifySvm(a.scaler.value(f).value)) &&
        (forall i :: 0 <= i < |r.calls| ==> !r.calls[i].ClassifyXgb?) &&
        (r.response.Ok? ==>
           r.response.modelUsed == "SVM" && |r.calls| == 3 && r.calls[1].ClassifySvm? && r.calls[2].DecodeLabel? &&
           a.scaler.value(f) == Some(r.calls[1].input) &&
           a.svm.value(r.calls[1].input) == Some(r.calls[2].classId) &&
           a.labels.value(r.calls[2].classId) == Some(r.response.prediction))
    ensures var r := Classify(a, choice, f);
      choice == "xgboost" ==>
        |r.calls| >= 1 && r.calls[0] == ClassifyXgb(f) &&
        (forall i :: 0 <= i < |r.calls| ==> !r.calls[i].Scale? && !r.calls[i].ClassifySvm?) &&
        (r.response.Ok? ==>
           r.response.modelUsed == "XGBoost" && |r.calls| == 2 && r.calls[1].DecodeLabel? &&
           a.xgb.value(f) == Some(r.calls[1].classId) &&
           a.labels.value(r.calls[1].classId) == Some(r.response.prediction))
    ensures choice != "svm" && choice != "xgboost" ==>
      Classify(a, choice, f) == Run(Err(400, UnknownModel(choice)), [])
  {
  }

  /** On "svm", when the scaler, the SVM and the label encoder all answer, the answer is the SVM's decoded label. */
  lemma SvmClassifySucceeds(a: Artifacts, f: seq<real>, scaled: seq<real>, id: int, denomination: string)
    requires a.Ready()
    requires a.scaler.value(f) == Some(scaled) && a.svm.value(scaled) == Some(id)
    requires a.labels.value(id) == Some(denomination)
    ensures Classify(a, "svm", f) ==
              Run(Ok(denomination, VERSION, "SVM"), [Scale(f), ClassifySvm(scaled), DecodeLabel(id)])
  {
  }

  /** On "xgboost", when XGBoost and the label encoder answer, the answer is XGBoost's decoded label. */
  lemma XgbClassifySucceeds(a: Artifacts, f: seq<real>, id: int, denomination: string)
    requires a.Ready()
    requires a.xgb.value(f) == Some(id) && a.labels.value(id) == Some(denomination)
    ensures Classify(a, "xgboost", f) ==
              Run(Ok(denomination, VERSION, "XGBoost"), [ClassifyXgb(f), DecodeLabel(id)])
  {
  }

  /**
   * A JSON object with a string image, a string model choice, a decodable image
   * and extractable features reaches the classification step, after exactly
   * one decoder call and one extractor call.
   */
  lemma ReachesClassify(ctx: Context, fields: map<string, Json>, image: string)
    requires ctx.artifacts.Ready() && "image" in fields && fields["image"] == JString(image)
    requires ModelChoice(fields).Some?
    requires ctx.decode(StripHeader(image)).Some?
    requires Extract(ctx.stages, ctx.decode(StripHeader(image)).value).Some?
    ensures var img := ctx.decode(StripHeader(image)).value;
      var rc := Classify(ctx.artifacts, ModelChoice(fields).value, Extract(ctx.stages, img).value);
      Predict(ctx, Some(JObject(fields))) ==
        Run(rc.response, [DecodeImage(StripHeader(image)), ExtractFeatures(img)] + rc.calls)
  {
    assert HasKey(JObject(fields), "image") == Some(true);
    assert Predict(ctx, Some(JObject(fields))) == RouteObject(ctx, fields);
    assert RouteObject(ctx, fields) == Route(ctx, ModelChoice(fields).value, image);
  }

  /**
   * Once the features are extracted, the lower-cased choice picks the path:
   * "svm" scales the features and hands the scaled row to the SVM, "xgboost"
   * hands the raw row to XGBoost without scaling, anything else is refused
   * with 400 echoing the choice and no classifier call.
   */
  lemma ChoiceSelectsBackend(ctx: Context, fields: map<string, Json>, image: string)
    requires ctx.artifacts.Ready() && "image" in fields && fields["image"] == JString(image)
    requires ModelChoice(fields).Some?
    requires ctx.decode(StripHeader(image)).Some?
    requires Extract(ctx.stages, ctx.decode(StripHeader(image)).value).Some?
    ensures var r := Predict(ctx, Some(JObject(fields)));
      var img := ctx.decode(StripHeader(image)).value;
      |r.calls| >= 2 && r.calls[..2] == [DecodeImage(StripHeader(image)), ExtractFeatures(img)]
    ensures var r := Predict(ctx, Some(JObject(fields)));
      var f := Extract(ctx.stages, ctx.decode(StripHeader(image)).value).value;
      ModelChoice(fields).value == "svm" ==>
        |r.calls| >= 3 && r.calls[2] == Scale(f) &&
        (ctx.artifacts.scaler.value(f).Some? ==>
           |r.calls| >= 4 && r.calls[3] == ClassifySvm(ctx.artifacts.scaler.value(f).value)) &&
        (forall i :: 0 <= i < |r.calls| ==> !r.calls[i].ClassifyXgb?) &&
        (r.response.Ok? ==> r.response.modelUsed == "SVM")
    ensures var r := Predict(ctx, Some(JObject(fields)));
      var f := Extract(ctx.stages, ctx.decode(StripHeader(image)).value).value;
      ModelChoice(fields).value == "xgboost" ==>
        |r.calls| >= 3 && r.calls[2] == ClassifyXgb(f) &&
        !CallsScaler(r.calls) &&
        (forall i :: 0 <= i < |r.calls| ==> !r.calls[i].ClassifySvm?) &&
        (r.response.Ok? ==> r.response.modelUsed == "XGBoost")
    ensures var r := Predict(ctx, Some(JObject(fields)));
      var c := ModelChoice(fields).value;
      c != "svm" && c != "xgboost" ==>
        r == Run(Err(400, UnknownModel(c)),
                 [DecodeImage(StripHeader(image)), ExtractFeatures(ctx.decode(StripHeader(image)).value)])
  {
    var img := ctx.decode(StripHeader(image)).value;
    var f := Extract(ctx.stages, img).value;
    var c := ModelChoice(fields).value;
    var prefix := [DecodeImage(StripHeader(image)), ExtractFeatures(img)];
    var rc := Classify(ctx.artifacts, c, f);
    ReachesClassify(ctx, fields, image);
    ClassifyPaths(ctx.artifacts, c, f);
    var calls := prefix + rc.calls;
    assert calls[..2] == prefix;
    assert forall i :: 2 <= i < |calls| ==> calls[i] == rc.calls[i - 2];
  }

  /**
   * A request for "svm" (in any case) whose image decodes and whose scaler,
   * SVM and label encoder all answer gets the prediction, after exactly the
   * decoder, extractor, scaler, SVM and label-encoder calls.
   */
  lemma SvmRequestSucceeds(ctx: Context, fields: map<string, Json>, image: string,
                           scaled: seq<real>, id: int, denomination: string)
    requires ctx.artifacts.Ready() && "image" in fields && fields["image"] == JString(image)
    requires ModelChoice(fields) == Some("svm")
    requires ctx.decode(StripHeader(image)).Some?
    requires Extract(ctx.stages, ctx.decode(StripHeader(image)).value).Some?
    requires var f := Extract(ctx.stages, ctx.decode(StripHeader(image)).value).value;
      ctx.artifacts.scaler.value(f) == Some(scaled) && ctx.artifacts.svm.value(scaled) == Some(id) &&
      ctx.artifacts.labels.value(id) == Some(denomination)
    ensures var img := ctx.decode(StripHeader(image)).value;
      var f := Extract(ctx.stages, img).value;
      Predict(ctx, Some(JObject(fields))) ==
        Run(Ok(denomination, VERSION, "SVM"),
            [DecodeImage(StripHeader(image)), ExtractFeatures(img), Scale(f), ClassifySvm(scaled), DecodeLabel(id)])
  {
    var img := ctx.decode(StripHeader(image)).value;
    var f := Extract(ctx.stages, img).value;
    ReachesClassify(ctx, fields, image);
    SvmClassifySucceeds(ctx.artifacts, f, scaled, id, denomination);
  }

  /**
   * A request for "xgboost" (in any case) whose image decodes and whose
   * XGBoost model and label encoder answer gets the prediction, after exactly
   * the decoder, extractor, XGBoost and label-encoder calls.
   */
  lemma XgbRequestSucceeds(ctx: Context, fields: map<string, Json>, image: string,
                           id: int, denomination: string)
    requires ctx.artifacts.Ready() && "image" in fields && fields["image"] == JString(image)
    requires ModelChoice(fields) == Some("xgboost")
    requires ctx.decode(StripHeader(image)).Some?
    requires Extract(ctx.stages, ctx.decode(StripHeader(image)).value).Some?
    requires var f := Extract(ctx.stages, ctx.decode(StripHeader(image)).value).value;
      ctx.artifacts.xgb.value(f) == Some(id) && ctx.artifacts.labels.value(id) == Some(denomination)
    ensures var img := ctx.decode(StripHeader(image)).value;
      var f := Extract(ctx.stages, img).value;
      Predict(ctx, Some(JObject(fields))) ==
        Run(Ok(denomination, VERSION, "XGBoost"),
            [DecodeImage(StripHeader(image)), ExtractFeatures(img), ClassifyXgb(f), DecodeLabel(id)])
  {
    var img := ctx.decode(StripHeader(image)).value;
    var f := Extract(ctx.stages, img).value;
    ReachesClassify(ctx, fields, image);
    XgbClassifySucceeds(ctx.artifacts, f, id, denomination);
  }

  /** What the request's own fields say the handler got to, for a run that reached classification. */
  predicate ReachedClassify(ctx: Context, body: Option<Json>)
  {
    ctx.artifacts.Ready() && body.Some? && body.value.JObject? &&
    "image" in body.value.fields && body.value.fields["image"].JString? &&
    ModelChoice(body.value.fields).Some? &&
    var p := StripHeader(body.value.fields["image"].s);
    ctx.decode(p).Some? && Extract(ctx.stages, ctx.decode(p).value).Some?
  }

  /** Only a run that decoded and extracted can answer with anything the classification step produces. */
  lemma ClassifyAnswersNeedExtraction(ctx: Context, body: Option<Json>)
    requires Predict(ctx, body).response.Ok? ||
             (Predict(ctx, body).response.Err? && Predict(ctx, body).response.failure.UnknownModel?) ||
             CallsClassifier(Predict(ctx, body).calls) || CallsScaler(Predict(ctx, body).calls)
    ensures ReachedClassify(ctx, body)
  {
  }

  /**
   * Conversely, an unknown-model answer comes only from a request whose image
   * was decoded and whose features were extracted, its token is the request's
   * lower-cased choice, it names neither model, no classifier was called, and
   * the message quotes the token.
   */
  lemma UnknownModelOnlyAfterExtraction(ctx: Context, body: Option<Json>, t: string)
    requires Predict(ctx, body).response == Err(400, UnknownModel(t))
    ensures ReachedClassify(ctx, body)
    ensures ModelChoice(body.value.fields) == Some(t)
    ensures t != "svm" && t != "xgboost"
    ensures !CallsClassifier(Predict(ctx, body).calls)
    ensures Message(UnknownModel(t))[7..7 + |t|] == t
  {
    ClassifyAnswersNeedExtraction(ctx, body);
    var fields := body.value.fields;
    var image := fields["image"].s;
    var f := Extract(ctx.stages, ctx.decode(StripHeader(image)).value).value;
    ReachesClassify(ctx, fields, image);
    ClassifyPaths(ctx.artifacts, ModelChoice(fields).value, f);
  }

  /**
   * A prediction names the classifier it came from, carries the pipeline
   * version, and its label is the label encoder's decoding of that
   * classifier's output; on the SVM path the classifier saw the scaled
   * features, on the XGBoost path the raw 469-value vector and no scaler was called.
   */
  lemma PredictionProvenance(ctx: Context, body: Option<Json>)
    requires Predict(ctx, body).response.Ok?
    ensures var r := Predict(ctx, body);
      ReachedClassify(ctx, body) && r.response.modelVersion == VERSION &&
      (r.response.modelUsed == "SVM" || r.response.modelUsed == "XGBoost")
    ensures var r := Predict(ctx, body);
      r.response.modelUsed == "SVM" ==>
        ModelChoice(body.value.fields) == Some("svm") &&
        |r.calls| == 5 && r.calls[1].ExtractFeatures? && r.calls[2].Scale? &&
        r.calls[3].ClassifySvm? && r.calls[4].DecodeLabel? &&
        Extract(ctx.stages, r.calls[1].image) == Some(r.calls[2].features) &&
        ctx.artifacts.scaler.value(r.calls[2].features) == Some(r.calls[3].input) &&
        ctx.artifacts.svm.value(r.calls[3].input) == Some(r.calls[4].classId) &&
        ctx.artifacts.labels.value(r.calls[4].classId) == Some(r.response.prediction)
    ensures var r := Predict(ctx, body);
      r.response.modelUsed == "XGBoost" ==>
        ModelChoice(body.value.fields) == Some("xgboost") &&
        |r.calls| == 4 && r.calls[1].ExtractFeatures? && r.calls[2].ClassifyXgb? &&
        r.calls[3].DecodeLabel? && !CallsScaler(r.calls) &&
        Extract(ctx.stages, r.calls[1].image) == Some(r.calls[2].input) &&
        |r.calls[2].input| == FEATURE_LEN &&
        ctx.artifacts.xgb.value(r.calls[2].input) == Some(r.calls[3].classId) &&
        ctx.artifacts.labels.value(r.calls[3].classId) == Some(r.response.prediction)
  {
    ClassifyAnswersNeedExtraction(ctx, body);
    var fields := body.value.fields;
    var image := fields["image"].s;
    var img := ctx.decode(StripHeader(image)).value;
    var f := Extract(ctx.stages, img).value;
    var c := ModelChoice(fields).value;
    ReachesClassify(ctx, fields, image);
    ClassifyPaths(ctx.artifacts, c, f);
    ChoiceSelectsBackend(ctx, fields, image);
  }

  /** When the trace has no scaler call, any other loaded scaler gives the same run. */
  lemma ScalerOnlyThroughScale(ctx: Context, body: Option<Json>, other: Scaler)
    requires ctx.artifacts.scaler.Some?
    requires !CallsScaler(Predict(ctx, body).calls)
    ensures Predict(ctx.(artifacts := ctx.artifacts.(scaler := Some(other))), body) == Predict(ctx, body)
  {
    var ctx' := ctx.(artifacts := ctx.artifacts.(scaler := Some(other)));
    if ReachedClassify(ctx, body) {
      var fields := body.value.fields;
      var image := fields["image"].s;
      var c := ModelChoice(fields).value;
      var f := Extract(ctx.stages, ctx.decode(StripHeader(image)).value).value;
      ReachesClassify(ctx, fields, image);
      ReachesClassify(ctx', fields, image);
      ChoiceSelectsBackend(ctx, fields, image);
      assert c != "svm";
      assert Classify(ctx'.artifacts, c, f) == Classify(ctx.artifacts, c, f);
    } else {
      assert !ReachedClassify(ctx', body);
    }
  }

  /** When the trace has no classifier call, any other loaded classifiers give the same run. */
  lemma ClassifiersOnlyWhenCalled(ctx: Context, body: Option<Json>, svm: Classifier, xgb: Classifier)
    requires ctx.artifacts.svm.Some? && ctx.artifacts.xgb.Some?
    requires !CallsClassifier(Predict(ctx, body).calls)
    ensures Predict(ctx.(artifacts := ctx.artifacts.(svm := Some(svm), xgb := Some(xgb))), body) == Predict(ctx, body)
  {
    var ctx' := ctx.(artifacts := ctx.artifacts.(svm := Some(svm), xgb := Some(xgb)));
    if ReachedClassify(ctx, body) {
      var fields := body.value.fields;
      var image := fields["image"].s;
      var c := ModelChoice(fields).value;
      var f := Extract(ctx.stages, ctx.decode(StripHeader(image)).value).value;
      ReachesClassify(ctx, fields, image);
      ReachesClassify(ctx', fields, image);
      ChoiceSelectsBackend(ctx, fields, image);
      if c == "svm" {
        var calls := Predict(ctx, body).calls;
        if ctx.artifacts.scaler.value(f).Some? {
          assert calls[3].IsClassifier();
        } else {
          ClassifyPaths(ctx.artifacts, c, f);
        }
      } else if c == "xgboost" {
        assert false;
      }
      assert Classify(ctx'.artifacts, c, f) == Classify(ctx.artifacts, c, f);
    } else {
      assert !ReachedClassify(ctx', body);
    }
  }
}
