# Banknote classifier backend: request routing and feature layout

This project models the core of a Flask backend that classifies a banknote
photograph into a denomination. The backend has two parts worth modelling:

- **The `/predict` handler** (`app.py`). It makes its checks in a fixed order:
  1. are the four startup artifacts loaded (SVM, its scaler, XGBoost, the label encoder);
  2. is the body JSON, and does it have an `image` key;
  3. read the model choice (`svm` by default) and lower-case it;
  4. strip any data-URL header from the image string with `split(',')[-1]`;
  5. decode the image and extract its features (all-or-nothing);
  6. dispatch on the choice: `svm` scales the features and then classifies, `xgboost` classifies the raw features, anything else gets 400;
  7. map the class id back to its label.
- **The v2 feature extractor** (`preprocess_and_extract_features_v2`). It
  concatenates three groups in a fixed order: a hue histogram (180 bins) and a
  saturation histogram (256 bins), then a uniform-LBP texture histogram
  (LBP_POINTS + 2 = 26 bins), then 7 log-scaled Hu moments. That gives 469
  values at offsets hue [0,180), saturation [180,436), texture [436,462) and
  shape [462,469).

The model is functional, as the source is: the handler is straight-line
branching with early returns, and the only state is read-only after startup.

- `wrappers.dfy`: `Option`, with `:-` support.
- `text.dfy` (module `Text`): Python's `str.lower()`, `str.split(sep)`,
  `sep.join` and the header strip `s.split(',')[-1]`, with their properties.
- `features.dfy` (module `Features`): the configuration constants and the
  layout offsets derived from them. The library stages are function values
  whose result types carry their sizes (a 250×250 normalised image, 180/256/26
  histogram bins, 7 Hu values) and the [0,1] range that min-max normalisation
  leaves. The module also holds the extractor `Extract` and the segment
  readers.
- `predict.dfy` (module `Predict`): the startup outcome (`LoadArtifacts`), the
  JSON body shape, the handler `Predict`, and its lemmas. A `Context` record
  holds every collaborator as a function value: the image decoder, the
  extractor stages, the scaler, both classifiers and the label encoder. None
  means the Python call raised. `Predict` returns the response plus the list
  of collaborator calls it made, in order. That list is what lets the
  lemmas say "no classifier is called" or "the scaler is never called".

The module docstring (app.py:9-13) shows the output as `{ "prediction": "50000", "model_used": "svm" }`.
The code answers differently: `model_used` is "SVM" or "XGBoost", and there is also a `model_version` field (app.py:182, 189, 198-202).
The model follows the code.

Three behaviours of the handler worth noting:

- an undecodable image is answered with 500 by the catch-all handler;
- missing artifacts are answered with 500;
- the model choice is checked only after decoding and extraction, so a bad image with a bad model name gets 500, not 400.

## Model

| member | source | states |
|---|---|---|
| `Text.LowerChar` | app.py:151 | No ensures of its own: the per-character lower-case map. `Text.LowerCharToLetter` states which characters it sends to each ASCII letter, and `Text.Lower` applies it at every position. |
| `Text.Lower` | app.py:151 | The lower-cased string has the same length, and each character is the lower-case form of the character at the same position. |
| `Text.LowerCharToLetter` | app.py:151 | Under the model's character map, a character lower-cases to a lower-case ASCII letter exactly when it spells that letter: the letter itself, its upper-case form, or, for 'k' only, the Kelvin sign. |
| `Text.LowerMatchesWord` | app.py:151 | For a lower-case ASCII word `w`, the model's `Lower(t) == w` holds exactly when `t` spells `w` letter by letter. For words without 'k', such as "svm" and "xgboost", that means ASCII letters of either case. Both directions are proved. |
| `Text.Split` | app.py:155 | `str.split` always gives at least one field. |
| `Text.SplitJoin` | app.py:155 | Joining the fields of a split with the separator gives back the original string. |
| `Text.SplitFieldsFree` | app.py:155 | No field of a split contains the separator. |
| `Text.SplitSingle` | app.py:155 | A split has one field exactly when the string has no separator, and that field is the whole string. |
| `Text.SplitLast` | app.py:155 | The last field is a separator-free suffix of the string. It is the whole string when there is one field, and otherwise it is preceded by a separator. |
| `Text.StripHeader` | app.py:155 | No ensures of its own: `s.split(',')[-1]`, the last field of the split. `Text.StripHeaderSpec` gives its contract: the longest comma-free suffix of `s`. |
| `Text.StripHeaderSpec` | app.py:155 | The payload after `split(',')[-1]` is a suffix of the image string and contains no comma. It is the whole string when the string has no comma, and otherwise the character before it is the last comma. |
| `Features.LayoutOffsets` | app.py:37-42 | The colour group has 436 values and LBP_BINS is 26. The segment offsets are 0, 180, 436 and 462, and the total 469 is H_BINS + S_BINS + LBP_BINS + 7. |
| `Features.ColorFeatures` | app.py:96-102 | The colour group (hue histogram then saturation histogram) has H_BINS + S_BINS values. |
| `Features.Assemble` | app.py:122 | The concatenation of colour, texture and shape has FEATURE_LEN (469) values. |
| `Features.Extract` | app.py:85-128 | A vector that comes out of the extractor has exactly 469 values. |
| `Features.SegmentsOfAssemble` | app.py:102-122 | Slicing an assembled vector at the layout offsets gives back the hue histogram, the saturation histogram, the texture histogram and the shape features. |
| `Features.AssembleOfSegments` | app.py:122 | Every 469-value vector is the concatenation of its four segments, so slicing and assembling are inverses. |
| `Features.ExtractSegments` | app.py:85-128 | Extraction is all-or-nothing: a vector is produced exactly when every stage succeeds. Each segment of that vector is the output of the stage that produced it. |
| `Features.ExtractedHistogramsInUnitRange` | app.py:99-111 | Every value of the colour and texture segments of an extracted vector lies in [0,1]. |
| `Predict.LoadArtifacts` | app.py:58-75 | Startup is all-or-nothing. The service is ready exactly when all four files load. Otherwise all four artifacts are absent, and a ready service holds the four loaded artifacts. |
| `Predict.Predict` | app.py:139-206 | No ensures of its own: the whole handler, returning the response and the ordered list of collaborator calls. `Predict.ArtifactsCheckedFirst`, `Predict.MissingImageKeyIs400`, `Predict.StatusFollowsFailure`, `Predict.ImageFailuresPrecedeChoice`, `Predict.ChoiceSelectsBackend`, `Predict.SvmRequestSucceeds` and `Predict.XgbRequestSucceeds` state its behaviour. |
| `Predict.HasKey` | app.py:147 | No ensures of its own: Python's `'image' in data` for an object (a key test), a list (an element test), a string (a substring test) and the types where the operator raises. `Predict.MissingImageKeyIs400` ties its false answer to the 400. |
| `Predict.ModelChoice` | app.py:151 | No ensures of its own: `data.get('model', 'svm').lower()`, failing when the value is not a string. `Predict.DefaultChoiceIsSvm`, `Predict.ChoiceIgnoresCase` and `Predict.SvmSpellingsAgree` state its contract through the handler. |
| `Predict.RouteObject` | app.py:151-155 | No ensures of its own: read the model choice, then the image string, and fail with 500 when either is not a string. `Predict.ReachesClassify` and `Predict.ImageFailuresPrecedeChoice` state what it leads to. |
| `Predict.Route` | app.py:155-172 | No ensures of its own: strip the header, decode, extract, then classify. `Predict.DecoderSeesStrippedPayload`, `Predict.ImageFailuresPrecedeChoice` and `Predict.ReachesClassify` give its contract. |
| `Predict.Classify` | app.py:176-192 | No ensures of its own: the `if`/`elif`/`else` on the lower-cased choice. `Predict.ClassifyPaths`, `Predict.SvmClassifySucceeds` and `Predict.XgbClassifySucceeds` give its contract. |
| `Predict.Finish` | app.py:194-202 | No ensures of its own: decode the class id to its label and build the success response with the version tag. `Predict.SvmClassifySucceeds`, `Predict.XgbClassifySucceeds` and `Predict.PredictionProvenance` state what it answers. |
| `Predict.Message` | app.py:142-206 | No ensures of its own: the error texts of app.py:142, 148, 169, 192 and 206, the last one without `str(e)`. `Predict.UnknownModelOnlyAfterExtraction` proves that the unknown-model text quotes the token. |
| `Predict.FailedStartupAnswers500` | app.py:58-75 | After a startup where any file is missing, every body is answered with 500 "models not loaded" and no collaborator is called. |
| `Predict.ArtifactsCheckedFirst` | app.py:141-142 | With any artifact missing, every body, even a malformed one, is answered with 500 "models not loaded", and no collaborator is called. |
| `Predict.StatusFollowsFailure` | app.py:139-206 | 400 for exactly `MissingImageKey` and `UnknownModel`; every other failure, malformed bodies included, gets 500. |
| `Predict.MissingImageKeyIs400` | app.py:146-148 | The missing-image 400 is answered exactly when the artifacts are loaded and Python's `'image' in data` is false. No collaborator is called then. |
| `Predict.ChoiceIgnoresCase` | app.py:151 | Two model choices that lower-case alike give identical runs: the same response and the same calls. |
| `Predict.DefaultChoiceIsSvm` | app.py:151 | A request without a model key behaves exactly like one asking for "svm". |
| `Predict.SvmSpellingsAgree` | app.py:151 | "SVM", "Svm" and "svm" give identical runs. |
| `Predict.DecoderSeesStrippedPayload` | app.py:155-156 | When the decoder is called with `p`, the body is an object whose image value is a string `s`, and `p = s.split(',')[-1]`. So `p` is a comma-free suffix of `s`, and it equals `s` when `s` has no comma. |
| `Predict.ImageFailuresPrecedeChoice` | app.py:155-169 | Decoding and extraction come before the model choice is checked. A decode failure gives 500 after only the decoder call. An extraction failure gives 500 "processing failed" after only the decoder and extractor calls. A bad model name does not change either answer. |
| `Predict.ClassifyPaths` | app.py:176-202 | On "svm", the step calls the scaler first and then the SVM on the scaled row, and never calls XGBoost. On "xgboost", it calls XGBoost on the raw row and never calls the scaler or the SVM. Any other choice gets 400 with that token and no calls. A success names its classifier and carries the version tag. |
| `Predict.SvmClassifySucceeds` | app.py:176-202 | On "svm", when the scaler, the SVM and the label encoder all answer, the step answers with the decoded label, model "SVM" and the version tag. Its calls are exactly scale, SVM on the scaled row, label decoding. |
| `Predict.XgbClassifySucceeds` | app.py:184-202 | On "xgboost", when XGBoost and the label encoder answer, the step answers with the decoded label, model "XGBoost" and the version tag. Its calls are exactly XGBoost on the raw row, then label decoding. |
| `Predict.ReachesClassify` | app.py:155-172 | An object with a string image and model choice, a decodable image and extractable features reaches the dispatch step after exactly one decoder call and one extractor call. |
| `Predict.ChoiceSelectsBackend` | app.py:176-192 | Once features are extracted, the lower-cased choice picks the path. On "svm" the next call scales the features and the one after runs the SVM on the scaled row; XGBoost is never called. On "xgboost" the next call runs XGBoost on the raw features; the scaler and the SVM are never called. Any other token gets exactly 400 "unknown model" with that token, after only the decoder and extractor calls. |
| `Predict.SvmRequestSucceeds` | app.py:151-202 | A request whose choice lower-cases to "svm", whose image decodes and extracts, and whose scaler, SVM and label encoder answer gets `Ok(label, version, "SVM")`. The calls are exactly decode, extract, scale, SVM, label decoding. |
| `Predict.XgbRequestSucceeds` | app.py:151-202 | A request whose choice lower-cases to "xgboost", whose image decodes and extracts, and whose XGBoost model and label encoder answer gets `Ok(label, version, "XGBoost")`. The calls are exactly decode, extract, XGBoost on the raw features, label decoding. |
| `Predict.ClassifyAnswersNeedExtraction` | app.py:166-192 | A success, an unknown-model answer, a classifier call or a scaler call all imply that the image was decoded and its features were extracted. |
| `Predict.UnknownModelOnlyAfterExtraction` | app.py:191-192 | An unknown-model 400 is answered only after decoding and extraction succeeded. Its token is the request's lower-cased choice and is neither "svm" nor "xgboost". No classifier was called, and the message quotes the token. |
| `Predict.PredictionProvenance` | app.py:176-202 | A success carries the version tag and names the classifier it used. Its label is the label encoder's decoding of that classifier's output. On the SVM path (choice "svm") the classifier saw the scaler's output for the extracted vector. On the XGBoost path (choice "xgboost") it saw the unscaled 469-value vector, and no scaler was called. |
| `Predict.ScalerOnlyThroughScale` | app.py:184-189 | When a run makes no scaler call, replacing the scaler with any other gives the same run, so the XGBoost path does not depend on the scaler. |
| `Predict.ClassifiersOnlyWhenCalled` | app.py:168-192 | When a run makes no classifier call, replacing both classifiers with any others gives the same run. This holds for extraction failures and unknown-model answers, for example. |

## Left out

- OpenCV and scikit-image numerics (resize, Gaussian blur, colour conversion, `calcHist`, `normalize`, `local_binary_pattern`, Otsu threshold, moments, Hu moments, app.py:89-116): these are opaque stages. Their behaviour on degenerate histograms (all-zero after min-max) is not modelled.
- The stage output types encode library guarantees as assumptions: the histogram sizes and the [0,1] range after min-max normalisation.
- The Hu sign-log transform `-sign(m)*log10(|m|+1e-7)` (app.py:118-119): floating-point arithmetic, folded into the opaque shape stage.
- Feature values are `real`, not float32/float64.
- `reshape(1, -1)` and the one-element arrays around `predict` and `inverse_transform` are modelled as one row and one class id.
- Startup file I/O and path construction (app.py:44-56): only the outcome is modelled, as present or absent.
- Startup errors other than FileNotFoundError: they stop the process and are not modelled.
- An artifact counts as missing only when it is None. Python's truthiness of a loaded object in `all([...])` is not modelled.
- HTTP transport and JSON parsing: Flask routing, `jsonify` and `get_json` are left out. A body that cannot be read as JSON is one case, `BodyNotJson`, which answers 500 through the catch-all. The static index route (app.py:133-136) is also left out.
- Base64 decoding, PIL `Image.open` and the RGB to BGR conversion (app.py:156-163) are one opaque decoder.
- The text of exceptions (`str(e)`) in the catch-all 500 message and all console printing are left out. The model keeps only the message prefix and which call failed.
- `Text.Lower`: maps only the ASCII and Latin-1 upper-case letters and the Kelvin sign (U+212A, which Python lower-cases to 'k'). Every other character is left as it is. So the lemmas about `Lower` describe this character map, not all of Python's `lower()`. It decides "svm"/"xgboost" exactly as Python does, because no other character lower-cases to one of their letters. The token echoed in the 400 message can still differ from Python's `lower()` for other scripts, including multi-character results such as U+0130.
- The image-characteristics and explanation block that `test_api.py` prints (test_api.py:102-116): app.py does not compute it, so there is no source to model.
- The test client `test_api.py`: HTTP and filesystem I/O.
