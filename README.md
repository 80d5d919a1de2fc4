# Speech emotion recognition service: verified model of the prediction core

This project is a Dafny model of the prediction core of a small Flask service.
The service takes a speech clip and reports one of eight emotions, or
"uncertain". Three parts of `app.py` are modelled:

- **Feature shape normalisation** (`extract_features`), module `Features`.
  The MFCC, chroma and mel means are concatenated in that order. `np.nan_to_num`
  is applied. The vector is then forced to exactly 63 components: zero-padded
  on the right when shorter, truncated when longer. The librosa computations are
  represented by their outcome (`Extraction`): the three averaged sub-vectors,
  or an exception, which `extract_features` turns into `None`.
- **Confidence-gated decision** (the block after `model.predict`), module
  `Decision`. Percentages are integer hundredths of a percent. Python's
  `round(x, 2)` is modelled as round-half-to-even on the exact real product.
  The label is the first maximal raw probability, as `np.argmax` picks it. The
  20 % floor is compared against the *rounded* percentage.
- **The `/predict` request flow**, module `Service`. It is a class `Server`
  whose field `uploads` is the set of file names in the `uploads` directory.
  `Server.Predict` runs the guards and early returns in the source's order.
  The `finally` clause removes the saved file. Every delegated call is a
  parameter (`Collaborators`): `secure_filename`, `file.save`, the native-rate
  `librosa.load`, the librosa stage of `extract_features`, `scaler.transform`
  and `model.predict`. `secure_filename` is a plain string function and
  cannot raise. A raising `file.save` is `SaveRaised`, which records whether
  it left a file behind. A raising librosa stage of `extract_features` is
  `ExtractionRaised`. For the native-rate `librosa.load`, `scaler.transform`
  and `model.predict`, a `None` result means the call raised.

Behaviour of the code that the model records:

- `np.nan_to_num` maps NaN to 0, but maps +/-infinity to +/- the largest finite
  float32 (librosa's default dtype), not to 0. The model follows the code.
- The requested band counts give 40 + 12 + 128 = 180 components. The
  truncation branch therefore always runs, and the 63 components are the 40
  MFCC means, the 12 chroma means and the first 11 mel means
  (`Features.ReferenceConfiguration`).
- An audio file that cannot be decoded raises inside the `try` block. It is
  answered with 500 and the generic message, not with a 400.
- A native sample rate of 0 makes `len(y)/sr` raise, which is also a 500.
  Otherwise the duration test `len(y)/sr < 0.5` is the integer test
  `2 * samples < rate`.
- When `secure_filename` yields the empty string, the path is the `uploads`
  directory itself. Saving to it raises. If the `uploads` directory exists (as
  app.py:179-180 ensures when the app runs as a script), the `finally` clause
  then finds the path present and fails to remove a directory, so the
  exception escapes the handler (`Unhandled`, Flask's own 500 page). Nothing
  is written to `uploads`.
- The label is chosen on the raw probabilities. Two labels whose percentages
  round to the same value are still told apart by their probabilities
  (`Decision.ArgMaxUsesRawProbabilities`).
- `dict(zip(EMOTIONS, percentages))` stops at the shorter list. An empty
  classifier output makes `np.argmax` raise. An output longer than eight whose
  maximum lies past the labels makes `EMOTIONS[idx]` raise. Both are answered
  with 500.

## Model

| member | source | states |
|---|---|---|
| `Features.NanToNum` | app.py:57 | a finite value is kept, NaN becomes 0, an infinity becomes the float32 maximum with its sign |
| `Features.NanToNumAll` | app.py:57 | same length; every NaN component is 0, every finite component is unchanged, and +/-infinity becomes +/- the float32 maximum |
| `Features.Fitted` | app.py:59-65 | a 63-component vector is kept, a shorter one is right-padded with zeros (`np.pad`), a longer one keeps its first 63 components |
| `Features.FeatureVector` | app.py:38-70 | `None` exactly when the librosa stage raised; otherwise exactly 63 components |
| `Features.ExtractFeatures` | app.py:56-67 | the step-by-step rebinding (concatenate, `nan_to_num`, pad or truncate) computes the reference vector and always has 63 components |
| `Features.FittedShape` | app.py:59-65 | for every input length: 63 components, the first min(n, 63) are the input's in order, positions n..62 are 0 |
| `Features.FittedIdentity` | app.py:61-65 | the normalisation is idempotent: a fitted vector is fitted again unchanged |
| `Features.ReferenceConfiguration` | app.py:47-65 | with 40 MFCC, 12 chroma and 128 mel values the input exceeds 63 and the result is all MFCC, all chroma, then the first 11 mel values, each cleaned |
| `Decision.RoundHalfEven` | app.py:109 | the result is within 1/2 of the input, and is even when the input lies exactly halfway |
| `Decision.Percent` | app.py:109 | the percentage in hundredths is within half a hundredth of 100 times the probability |
| `Decision.Percentages` | app.py:109 | one rounded percentage per probability, in order |
| `Decision.ArgMax` | app.py:112 | an index holding the maximum, with every earlier value strictly smaller (the first maximum) |
| `Decision.Probabilities` | app.py:121 | for any output length n, the keys are the first min(n, 8) labels and each label maps to the percentage at its index |
| `Decision.Decide` | app.py:109-128 | the decision raises exactly when the output is empty or its first maximum lies beyond the eight labels |
| `Decision.RoundMonotone` | app.py:109 | rounding preserves order between probabilities |
| `Decision.DecideOnEight` | app.py:118-128 | with eight probabilities the decision never raises, and its map holds exactly the eight labels, each with its rounded percentage |
| `Decision.DecisionRule` | app.py:112-128 | from the first maximal index i: "uncertain" with the low-confidence message and the map exactly when the rounded percentage at i is below 20, otherwise label i with that percentage and the map |
| `Decision.ConfidenceIsTopPercentage` | app.py:109-114 | a reported confidence is at least every reported percentage |
| `Decision.ArgMaxUsesRawProbabilities` | app.py:109-113 | two labels rounding to 30.00 % are separated by their raw probabilities; the larger, later one is chosen |
| `Decision.RoundedTieFollowsRawOrder` | app.py:109-113 | when an earlier label rounds to the same percentage as the first raw maximum, the map gives both labels that same percentage, and the verdict names the maximum's label, not the earlier one |
| `Decision.FloorUsesRoundedPercentage` | app.py:114-117 | a top probability of 19.996 % rounds to 20.00 % and is reported as a label, not as "uncertain" |
| `Decision.PercentagesSum` | app.py:109 | the rounded percentages add up to 100 times the probability sum within n/2 hundredths |
| `Decision.PercentagesOfDistribution` | app.py:109 | for an eight-way distribution the percentages add up to 100 % within 0.04 points |
| `Service.TooShortIsHalfSecond` | app.py:95 | for a positive rate, `IsTooShort` holds exactly when samples / rate is below 0.5 seconds |
| `Service.Attempt` | app.py:88-132 | the `try`/`except` block never lets an exception escape: 200 exactly with a verdict, 400 exactly with the too-short or extraction message, 500 exactly with the generic message |
| `Service.Reply` | app.py:79-135 | a missing file or empty filename is a 400; the handler escapes (`Unhandled`) exactly when the sanitized name is empty |
| `Service.Server.Predict` | app.py:79-135 | the response is the guarded pipeline's, and afterwards `uploads` is the old set minus the saved name; other names are untouched |
| `Service.Server.Process` | app.py:88-132 | the `try` block's response; the saved name is added unless the name is empty or the save raised before creating the file |
| `Service.RequestGuards` | app.py:81-86 | no `file` field is 400 "No file uploaded", an empty filename is 400 "No selected file", and neither writes anything |
| `Service.TooShortStopsPipeline` | app.py:94-98 | a clip under 0.5 s is 400 "Audio too short", whatever extraction, scaler and classifier would do |
| `Service.ExtractionFailureStopsPipeline` | app.py:98-100 | a `None` feature vector is 400 "Feature extraction failed", whatever scaler and classifier would do |
| `Service.ScalerSeesOnlyExpectedShape` | app.py:98-103 | the response depends on the scaler only at vectors of 63 components |
| `Service.StatusClassification` | app.py:81-135 | statuses are 200, 400 or 500; 200 exactly for a verdict; 400 only with the four client messages; 500 only with the generic message or an escaped exception |
| `Service.InternalFailures` | app.py:88-132 | a raising save, a failed decode, a zero sample rate, a raising scaler, a raising classifier or a raising decision, each after the earlier stages succeed, is 500 with the generic message |
| `Service.SuccessfulRequest` | app.py:94-128 | when every stage succeeds with eight probabilities, the answer is 200 with the decision's verdict and all eight labels |

## Left out

- librosa decoding, resampling, pre-emphasis, the MFCC, chroma and mel spectrogram computations and `np.mean` (app.py:41-54, 94): foreign floating-point numerics. They are the `Extraction` and `Clip` parameters.
- `scaler.transform` and `model.predict` (app.py:103, 106) and the loading of both artifacts (app.py:28-32): pre-trained black boxes. They are function parameters returning `None` when they raise.
- Floating point: the product `float(p) * 100` is exact in the model, and a rounded percentage is the exact hundredth, not the float nearest to it. A NaN in the classifier's output is not modelled; probabilities are reals.
- `Decision.RoundHalfEven`: Python rounds the binary value of the float, so exact ties almost never occur; the model rounds the exact real value.
- `secure_filename` is an arbitrary function parameter; its sanitising rules are not modelled.
- Flask routing, `jsonify`, the JSON key order, logging with `print`, and `app.run`: web framework and console I/O. Responses are datatypes with a status code.
- The `/`, `/signup`, `/signin` and `/logout` routes (app.py:72-77, 139-176): session handling and MongoDB I/O with library password hashing.
- static/script.js: browser recording and upload UI.
- Concurrent requests that share a sanitized file name: the code has no mechanism for it, and the model handles one request at a time.
- The `uploads` directory is assumed to exist, as app.py:179-180 ensures when the app runs as a script. Without it every save raises and an empty sanitized name gets the JSON 500 instead of escaping the handler.
- An `os.remove` that fails on an existing regular file (for example a file still locked by another process) is not modelled.
