/** The `/predict` handler of app.py (lines 79-135) as a state machine over
    the set of file names in the `uploads` directory.

    Everything the handler delegates is a parameter: `secure_filename`, the
    outcome of `file.save`, the native-rate decode that measures the duration,
    the librosa stage of `extract_features`, `scaler.transform` and
    `model.predict`. A `None` from one of them means that the call raised. */
module Service {
  import opened Wrappers
  import opened Features
  import opened Decision

  /** One entry of `request.files`. */
  datatype Upload = Upload(filename: string)

  datatype Request = Request(files: map<string, Upload>)

  /** `file.save`: it either writes the file or raises, possibly after
      creating it. */
  datatype SaveOutcome = Saved | SaveRaised(leftFile: bool)

  /** `librosa.load(filepath, sr=None)`: sample count and native rate. */
  datatype Clip = Clip(samples: nat, rate: nat)

  datatype Collaborators = Collaborators(
    secureFilename: string -> string,
    save: SaveOutcome,
    nativeDecode: Option<Clip>,
    extraction: Extraction,
    scale: seq<real> -> Option<seq<real>>,
    score: seq<real> -> Option<seq<real>>)

  /** A JSON error body, a verdict, or an exception that escaped the handler
      (answered by Flask's own error page). */
  datatype Body = Error(message: string) | Result(verdict: Verdict) | Unhandled

  datatype Response = Response(status: nat, body: Body)

  const NoFileUploaded: string := "No file uploaded"
  const NoSelectedFile: string := "No selected file"
  const TooShort: string := "Audio too short (min 0.5 seconds required)"
  const ExtractionFailed: string := "Feature extraction failed - possibly corrupt audio"
  const ProcessingFailed: string := "Audio processing failed. Please try again."

  /** Whether `len(y)/sr < 0.5` rejects the clip; a zero rate makes the
      division raise instead. */
  predicate IsTooShort(clip: Clip) {
    clip.rate > 0 && 2 * clip.samples < clip.rate
  }

  lemma MulPos(a: real, b: real)
    requires a > 0.0 && b > 0.0
    ensures a * b > 0.0
  {
  }

  /** The integer test is the source's duration test `len(y)/sr < 0.5` for
      every positive rate. */
  lemma TooShortIsHalfSecond(clip: Clip)
    requires clip.rate > 0
    ensures IsTooShort(clip) <==> (clip.samples as real) / (clip.rate as real) < 0.5
  {
    var q := (clip.samples as real) / (clip.rate as real);
    var r := clip.rate as real;
    assert q * r == clip.samples as real;
    if q < 0.5 {
      MulPos(0.5 - q, r);
    } else if q > 0.5 {
      MulPos(q - 0.5, r);
    }
  }

  /** The body of the `try` block with its `except`, for the sanitized name. */
  function Attempt(name: string, env: Collaborators): (r: Response)
    ensures r.status in {200, 400, 500}
    ensures r.status == 200 <==> r.body.Result?
    ensures r.status == 400 <==> r.body in {Error(TooShort), Error(ExtractionFailed)}
    ensures r.status == 500 <==> r.body == Error(ProcessingFailed)
  {
    var internal := Response(500, Error(ProcessingFailed));
    if name == "" || env.save.SaveRaised? then internal
    else match env.nativeDecode
      case None => internal
      case Some(clip) =>
        if clip.rate == 0 then internal
        else if IsTooShort(clip) then Response(400, Error(TooShort))
        else match FeatureVector(env.extraction)
          case None => Response(400, Error(ExtractionFailed))
          case Some(features) =>
            match env.scale(features)
            case None => internal
            case Some(scaled) =>
              match env.score(scaled)
              case None => internal
              case Some(prediction) =>
                match Decide(prediction)
                case None => internal
                case Some(verdict) => Response(200, Result(verdict))
  }

  /** The sanitized name of the upload, when the handler gets as far as
      choosing a path for it. */
  function SanitizedName(req: Request, env: Collaborators): Option<string> {
    if "file" !in req.files || req.files["file"].filename == "" then None
    else Some(env.secureFilename(req.files["file"].filename))
  }

  /** The response of `/predict`. An empty sanitized name makes the path the
      `uploads` directory itself: saving to it raises, and the `finally`
      clause then finds that the path exists and fails to remove a directory,
      so the exception escapes the handler. */
  function Reply(req: Request, env: Collaborators): (r: Response)
    ensures ("file" !in req.files || req.files["file"].filename == "") ==> r.status == 400
    ensures r.body == Unhandled <==> SanitizedName(req, env) == Some("")
  {
    if "file" !in req.files then Response(400, Error(NoFileUploaded))
    else if req.files["file"].filename == "" then Response(400, Error(NoSelectedFile))
    else
      var name := env.secureFilename(req.files["file"].filename);
      if name == "" then Response(500, Unhandled) else Attempt(name, env)
  }

  /** The file names the handler may have written into `uploads`. */
  function Written(req: Request, env: Collaborators): set<string> {
    match SanitizedName(req, env)
    case Some(name) => if name == "" then {} else {name}
    case None => {}
  }

  /** The process and its `uploads` directory. */
  class Server {
    var uploads: set<string>

    constructor (existing: set<string>)
      ensures uploads == existing
    {
      uploads := existing;
    }

    /** `predict()`: guards, then the `try` block, then the `finally` that
        removes the saved file. */
    method Predict(req: Request, env: Collaborators) returns (resp: Response)
      modifies this
      ensures resp == Reply(req, env)
      ensures uploads == old(uploads) - Written(req, env)
    {
      if "file" !in req.files {
        return Response(400, Error(NoFileUploaded));
      }
      var file := req.files["file"];
      if file.filename == "" {
        return Response(400, Error(NoSelectedFile));
      }
      var filename := env.secureFilename(file.filename);
      resp := Process(filename, env);
      // finally: os.path.exists(filepath), then os.remove(filepath)
      if filename == "" {
        resp := Response(500, Unhandled);
      } else if filename in uploads {
        uploads := uploads - {filename};
      }
    }

    /** The `try` block: save the upload, then run the pipeline with its
        early returns; every exception becomes the generic 500. */
    method Process(filename: string, env: Collaborators) returns (resp: Response)
      modifies this
      ensures resp == Attempt(filename, env)
      ensures (filename != "" && (env.save.Saved? || env.save.leftFile))
                ==> uploads == old(uploads) + {filename}
      ensures (filename == "" || (env.save.SaveRaised? && !env.save.leftFile))
                ==> uploads == old(uploads)
    {
      var internal := Response(500, Error(ProcessingFailed));
      if filename == "" {
        return internal;
      }
      match env.save {
        case SaveRaised(leftFile) =>
          if leftFile {
            uploads := uploads + {filename};
          }
          return internal;
        case Saved =>
          uploads := uploads + {filename};
      }
      if env.nativeDecode.None? {
        return internal;
      }
      var clip := env.nativeDecode.value;
      if clip.rate == 0 {
        return internal;
      }
      if IsTooShort(clip) {
        return Response(400, Error(TooShort));
      }
      var features := ExtractFeatures(env.extraction);
      if features.None? {
        return Response(400, Error(ExtractionFailed));
      }
      var scaled := env.scale(features.value);
      if scaled.None? {
        return internal;
      }
      var prediction := env.score(scaled.value);
      if prediction.None? {
        return internal;
      }
      var verdict := Decide(prediction.value);
      if verdict.None? {
        return internal;
      }
      return Response(200, Result(verdict.value));
    }
  }

  /** The two request guards answer 400 before anything is written. */
  lemma RequestGuards(req: Request, env: Collaborators)
    ensures ("file" !in req.files)
              ==> Reply(req, env) == Response(400, Error(NoFileUploaded)) && Written(req, env) == {}
    ensures ("file" in req.files && req.files["file"].filename == "")
              ==> Reply(req, env) == Response(400, Error(NoSelectedFile)) && Written(req, env) == {}
  {
  }

  /** A clip shorter than half a second is answered with 400 before feature
      extraction runs: the answer is the same whatever the extraction, the
      scaler and the classifier would have done. */
  lemma TooShortStopsPipeline(req: Request, env: Collaborators, extraction: Extraction,
                              scale: seq<real> -> Option<seq<real>>,
                              score: seq<real> -> Option<seq<real>>)
    requires SanitizedName(req, env).Some? && SanitizedName(req, env).value != ""
    requires env.save.Saved? && env.nativeDecode.Some? && IsTooShort(env.nativeDecode.value)
    ensures Reply(req, env) == Response(400, Error(TooShort))
    ensures Reply(req, env.(extraction := extraction, scale := scale, score := score)) == Reply(req, env)
  {
  }

  /** A failed extraction is answered with 400 before the scaler and the
      classifier run. */
  lemma ExtractionFailureStopsPipeline(req: Request, env: Collaborators,
                                       scale: seq<real> -> Option<seq<real>>,
                                       score: seq<real> -> Option<seq<real>>)
    requires SanitizedName(req, env).Some? && SanitizedName(req, env).value != ""
    requires env.save.Saved? && env.nativeDecode.Some?
    requires env.nativeDecode.value.rate > 0 && !IsTooShort(env.nativeDecode.value)
    requires env.extraction.ExtractionRaised?
    ensures Reply(req, env) == Response(400, Error(ExtractionFailed))
    ensures Reply(req, env.(scale := scale, score := score)) == Reply(req, env)
  {
  }

  /** The scaler is only ever given vectors of the trained dimensionality:
      two scalers that agree on all 63-component vectors give the same
      response. */
  lemma ScalerSeesOnlyExpectedShape(req: Request, env: Collaborators,
                                    scale: seq<real> -> Option<seq<real>>)
    requires forall v :: |v| == ExpectedFeatures ==> env.scale(v) == scale(v)
    ensures Reply(req, env.(scale := scale)) == Reply(req, env)
  {
  }

  /** Error translation: 400 carries one of the four client messages, 500 the
      generic message (or escapes the handler), 200 a verdict; no other status
      occurs. */
  lemma StatusClassification(req: Request, env: Collaborators)
    ensures Reply(req, env).status in {200, 400, 500}
    ensures Reply(req, env).status == 200 <==> Reply(req, env).body.Result?
    ensures Reply(req, env).status == 400 ==>
      Reply(req, env).body in {Error(NoFileUploaded), Error(NoSelectedFile),
                               Error(TooShort), Error(ExtractionFailed)}
    ensures Reply(req, env).status == 500 ==>
      Reply(req, env).body in {Error(ProcessingFailed), Unhandled}
  {
  }

  /** When every stage succeeds and the classifier returns its eight
      probabilities, the request succeeds and reports all eight labels. */
  lemma SuccessfulRequest(req: Request, env: Collaborators, features: seq<real>,
                          scaled: seq<real>, prediction: seq<real>)
    requires SanitizedName(req, env).Some? && SanitizedName(req, env).value != ""
    requires env.save.Saved? && env.nativeDecode.Some?
    requires env.nativeDecode.value.rate > 0 && !IsTooShort(env.nativeDecode.value)
    requires FeatureVector(env.extraction) == Some(features)
    requires env.scale(features) == Some(scaled) && env.score(scaled) == Some(prediction)
    requires |prediction| == |Emotions|
    ensures Reply(req, env).status == 200
    ensures Reply(req, env).body == Result(Decide(prediction).value)
    ensures Reply(req, env).body.verdict.probabilities.Keys
              == set i | 0 <= i < |Emotions| :: Emotions[i]
  {
  }

  /** Any exception after the guards is answered with 500 and the generic
      message: one clause per stage, each with the earlier stages succeeding. */
  lemma InternalFailures(req: Request, env: Collaborators)
    requires SanitizedName(req, env).Some? && SanitizedName(req, env).value != ""
    ensures (env.save.SaveRaised?)
              ==> Reply(req, env) == Response(500, Error(ProcessingFailed))
    ensures (env.save.Saved? && env.nativeDecode.None?)
              ==> Reply(req, env) == Response(500, Error(ProcessingFailed))
    ensures (env.save.Saved? && env.nativeDecode.Some? && env.nativeDecode.value.rate == 0)
              ==> Reply(req, env) == Response(500, Error(ProcessingFailed))
    ensures (env.save.Saved? && env.nativeDecode.Some? && env.nativeDecode.value.rate > 0
             && !IsTooShort(env.nativeDecode.value) && FeatureVector(env.extraction).Some?
             && env.scale(FeatureVector(env.extraction).value).None?)
              ==> Reply(req, env) == Response(500, Error(ProcessingFailed))
    ensures (env.save.Saved? && env.nativeDecode.Some? && env.nativeDecode.value.rate > 0
             && !IsTooShort(env.nativeDecode.value) && FeatureVector(env.extraction).Some?
             && env.scale(FeatureVector(env.extraction).value).Some?
             && env.score(env.scale(FeatureVector(env.extraction).value).value).None?)
              ==> Reply(req, env) == Response(500, Error(ProcessingFailed))
    ensures (env.save.Saved? && env.nativeDecode.Some? && env.nativeDecode.value.rate > 0
             && !IsTooShort(env.nativeDecode.value) && FeatureVector(env.extraction).Some?
             && env.scale(FeatureVector(env.extraction).value).Some?
             && env.score(env.scale(FeatureVector(env.extraction).value).value).Some?
             && Decide(env.score(env.scale(FeatureVector(env.extraction).value).value).value).None?)
              ==> Reply(req, env) == Response(500, Error(ProcessingFailed))
  {
  }
}
