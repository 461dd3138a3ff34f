/**
 * The server's request handling: upload validation, saving the upload,
 * converting it to WAV, extracting the feature vector, classifying, and
 * removing the files it created in the upload folder.
 *
 * The upload folder is the set of file names it holds. The audio libraries
 * and the classifier are oracles (`Env`, `Classifier`) consulted with the
 * path or the vector they are called on. `Conversion`, `Extraction` and
 * `Request` specify the three methods of `Server`; the lemmas below them
 * state what the request handling promises.
 */
module Pipeline {
  import opened Optional
  import opened Strings
  import opened UploadNames
  import opened Features
  import opened Verdict
  import Dataset

  /** What writing the converted WAV does: whether the output file exists afterwards, and whether the call raised. */
  datatype ExportEffect = ExportEffect(created: bool, raised: bool)

  /** The audio libraries one request touches. */
  datatype Env = Env(
    decodes: (string, Format) -> bool,   // decoding the file with this format argument returns without raising
    written: string -> ExportEffect,      // what exporting the decoded audio to this path does
    dsp: Dsp)

  /** The loaded classifier's two operations on the 1x30 feature matrix; None when the call raises. */
  datatype Classifier = Classifier(predict: seq<real> -> Option<int>, proba: seq<real> -> Option<seq<real>>)

  /** The request's file field: the name the client sent, and whether saving it to the folder completes. */
  datatype UploadedFile = UploadedFile(filename: string, saves: bool)

  /** What the page shows after a POST: one of the flashed errors, or the verdict. */
  datatype Outcome =
    | ModelUnavailable
    | NoFileUploaded
    | NoFileSelected
    | InvalidFileType
    | UnreadableAudio     // the feature extraction gave no vector
    | ProcessingError     // an exception inside the request's try block
    | Classified(result: string, confidence: real, filename: string)

  /** The four rejections that happen before anything is saved. */
  predicate IsRejection(o: Outcome)
  {
    o.ModelUnavailable? || o.NoFileUploaded? || o.NoFileSelected? || o.InvalidFileType?
  }

  /** A result together with the upload folder's contents afterwards. */
  datatype Step<T> = Step(value: T, files: set<string>)

  /** Specification of `Server.ConvertToWav`: the path to use next, and the folder afterwards. */
  function Conversion(env: Env, files: set<string>, input: string): Step<string>
  {
    if input !in files then Step(input, files)
    else if !env.decodes(input, DecodeFormat(input)) then Step(input, files)
    else
      var output := ConvertedPath(input);
      var effect := env.written(output);
      var after := if effect.created then files + {output} else files;
      if effect.raised || output !in after then Step(input, after) else Step(output, after)
  }

  /** Loading a path with the audio library; a file that is not in the folder makes it raise. */
  function Loaded(env: Env, files: set<string>, path: string): Option<seq<real>>
  {
    if path in files then env.dsp.load(path) else None
  }

  /** The part of `Extraction` that follows the choice of the path to load. */
  function Analysis(env: Env, files: set<string>, path: string): Step<Option<seq<real>>>
  {
    var cleaned := if EndsWith(path, ConvertedSuffix) then files - {path} else files;
    match Loaded(env, files, path)
    case None => Step(None, cleaned)
    case Some(y) =>
      if |y| == 0 then Step(None, files)
      else if !env.dsp.computes(y) then Step(None, cleaned)
      else Step(Some(Vector(env.dsp, y)), cleaned)
  }

  /** Specification of `Server.ExtractFeatures`. */
  function Extraction(env: Env, files: set<string>, path: string): Step<Option<seq<real>>>
  {
    if NeedsConversion(path) then
      var c := Conversion(env, files, path);
      if c.value !in c.files then Step(None, c.files) else Analysis(env, c.files, c.value)
    else
      Analysis(env, files, path)
  }

  /** The path the extraction loads, and the folder at that moment. */
  function LoadPath(env: Env, files: set<string>, path: string): string
  {
    if NeedsConversion(path) then Conversion(env, files, path).value else path
  }

  function LoadFolder(env: Env, files: set<string>, path: string): set<string>
  {
    if NeedsConversion(path) then Conversion(env, files, path).files else files
  }

  /** Specification of `Server.Index` for a POST request. */
  function Request(env: Env, model: Option<Classifier>, upload: Option<UploadedFile>, id: string,
                   files: set<string>): Step<Outcome>
  {
    if model.None? then Step(ModelUnavailable, files)
    else if upload.None? then Step(NoFileUploaded, files)
    else if upload.value.filename == "" then Step(NoFileSelected, files)
    else if !AllowedFile(upload.value.filename) then Step(InvalidFileType, files)
    else
      var name := upload.value.filename;
      var saved := SavedName(id, name);
      if !upload.value.saves then Step(ProcessingError, files - {saved})
      else
        var e := Extraction(env, files + {saved}, saved);
        var after := e.files - {saved};
        match e.value
        case None => Step(UnreadableAudio, after)
        case Some(v) =>
          match model.value.predict(v)
          case None => Step(ProcessingError, after)
          case Some(k) =>
            match model.value.proba(v)
            case None => Step(ProcessingError, after)
            case Some(p) =>
              if |p| == 0 then Step(ProcessingError, after)
              else Step(Classified(ResultLabel(k), Confidence(p), name), after)
  }

  /**
   * The conversion returns either its input or the intermediate, and only
   * the intermediate can appear in the folder. It falls back to the input
   * when the input is missing, when decoding raises, when the export raises
   * or when no output file exists afterwards.
   */
  lemma ConversionOutcome(env: Env, files: set<string>, input: string)
    ensures var c := Conversion(env, files, input);
            (c.value == input || (c.value == ConvertedPath(input) && c.value in c.files)) &&
            (c.files == files || c.files == files + {ConvertedPath(input)})
    ensures var c := Conversion(env, files, input);
            var effect := env.written(ConvertedPath(input));
            c.value == ConvertedPath(input) <==>
              input in files && env.decodes(input, DecodeFormat(input)) && !effect.raised &&
              (effect.created || ConvertedPath(input) in files)
    ensures var c := Conversion(env, files, input);
            ConvertedPath(input) in c.files - files ==>
              input in files && env.decodes(input, DecodeFormat(input)) && env.written(ConvertedPath(input)).created
  {
    var output := ConvertedPath(input);
    assert output != input;
    var c := Conversion(env, files, input);
    if input in files && env.decodes(input, DecodeFormat(input)) {
      var effect := env.written(output);
      assert c.files == if effect.created then files + {output} else files;
      assert c.value == if effect.raised || output !in c.files then input else output;
    } else {
      assert c == Step(input, files);
    }
  }

  /**
   * A vector comes back exactly when the loaded buffer is non-empty and the
   * descriptors compute; it is then the 30-slot vector of that buffer.
   */
  lemma ExtractionLayout(env: Env, files: set<string>, path: string)
    ensures var e := Extraction(env, files, path);
            var loaded := Loaded(env, LoadFolder(env, files, path), LoadPath(env, files, path));
            e.value.Some? <==> loaded.Some? && |loaded.value| > 0 && env.dsp.computes(loaded.value)
    ensures var e := Extraction(env, files, path);
            var loaded := Loaded(env, LoadFolder(env, files, path), LoadPath(env, files, path));
            e.value.Some? ==> |e.value.value| == VectorLength && e.value.value == Vector(env.dsp, loaded.value)
  {
  }

  /**
   * Once a conversion has produced the intermediate, the extraction removes
   * it on the success path and on both exception paths, and keeps it exactly
   * when the loaded buffer is empty.
   */
  lemma IntermediateFate(env: Env, files: set<string>, path: string)
    requires NeedsConversion(path) && path in files
    requires env.decodes(path, DecodeFormat(path))
    requires env.written(ConvertedPath(path)).created && !env.written(ConvertedPath(path)).raised
    ensures var cv := ConvertedPath(path);
            var e := Extraction(env, files, path);
            (cv in e.files <==> env.dsp.load(cv) == Some([])) &&
            e.files - {cv} == files - {cv}
  {
    ConversionOutcome(env, files, path);
    ConvertedPathIsCleanedUp(path);
  }

  /** The intermediate survives the request: the export raised after writing it, or the converted audio was empty. */
  predicate Leaks(env: Env, saved: string)
  {
    var cv := ConvertedPath(saved);
    NeedsConversion(saved) && env.decodes(saved, DecodeFormat(saved)) && env.written(cv).created &&
    (env.written(cv).raised || env.dsp.load(cv) == Some([]))
  }

  /**
   * The checks run in a fixed order — model missing, no file field, empty
   * name, disallowed extension — and each rejection leaves the folder as it
   * was: nothing is saved before all four pass.
   */
  lemma RequestCheckOrder(env: Env, model: Option<Classifier>, upload: Option<UploadedFile>, id: string,
                          files: set<string>)
    ensures var r := Request(env, model, upload, id, files);
            (r.value == ModelUnavailable <==> model.None?) &&
            (r.value == NoFileUploaded <==> model.Some? && upload.None?) &&
            (r.value == NoFileSelected <==> model.Some? && upload.Some? && upload.value.filename == "") &&
            (r.value == InvalidFileType <==>
               model.Some? && upload.Some? && upload.value.filename != "" && !AllowedFile(upload.value.filename))
    ensures var r := Request(env, model, upload, id, files);
            IsRejection(r.value) ==> r.files == files
  {
    if model.Some? && upload.Some? && upload.value.filename != "" && AllowedFile(upload.value.filename) {
      PastChecksOutcome(env, model.value, upload.value, id, files);
    }
  }

  /** Once the four checks pass, the request ends in a failure of the analysis or in a verdict. */
  lemma PastChecksOutcome(env: Env, model: Classifier, upload: UploadedFile, id: string, files: set<string>)
    requires upload.filename != "" && AllowedFile(upload.filename)
    ensures !IsRejection(Request(env, Some(model), Some(upload), id, files).value)
  {
  }

  /** Past the checks, the request's folder is the extraction's folder with the saved upload removed. */
  lemma RequestFolder(env: Env, model: Option<Classifier>, upload: UploadedFile, id: string,
                      files: set<string>)
    ensures var r := Request(env, model, Some(upload), id, files);
            var saved := SavedName(id, upload.filename);
            !IsRejection(r.value) ==>
              r.files == if upload.saves then Extraction(env, files + {saved}, saved).files - {saved}
                         else files - {saved}
  {
  }

  /** The extraction of a name that needs no conversion never creates a file. */
  lemma DirectExtractionFolder(env: Env, files: set<string>, path: string)
    requires !NeedsConversion(path)
    ensures Extraction(env, files, path).files - {path} == files - {path}
  {
  }

  /** The extraction of a name that is converted adds the intermediate exactly on the `Leaks` paths. */
  lemma ConvertedExtractionFolder(env: Env, files: set<string>, path: string)
    requires NeedsConversion(path) && path in files && ConvertedPath(path) !in files
    ensures Extraction(env, files, path).files ==
            files + (if Leaks(env, path) then {ConvertedPath(path)} else {})
  {
    var cv := ConvertedPath(path);
    ConversionOutcome(env, files, path);
    ConvertedPathIsCleanedUp(path);
    var c := Conversion(env, files, path);
    if c.value == cv {
      assert c.files == files + {cv};
      AnalysisOfIntermediate(env, files, cv);
      assert Leaks(env, path) <==> env.dsp.load(cv) == Some([]);
    } else {
      assert c.value == path;
      AnalysisOfUnconverted(env, c.files, path);
      assert Leaks(env, path) <==> cv in c.files;
    }
  }

  /** Analysing a fresh intermediate leaves it behind only when it loads as an empty buffer. */
  lemma AnalysisOfIntermediate(env: Env, files: set<string>, cv: string)
    requires EndsWith(cv, ConvertedSuffix) && cv !in files
    ensures Analysis(env, files + {cv}, cv).files == files + (if env.dsp.load(cv) == Some([]) then {cv} else {})
  {
    assert (files + {cv}) - {cv} == files;
  }

  /** Analysing a name that is converted, when the conversion fell back to it, touches no file. */
  lemma AnalysisOfUnconverted(env: Env, files: set<string>, path: string)
    requires NeedsConversion(path)
    ensures Analysis(env, files, path).files == files
  {
  }

  /**
   * Cleanup: with a fresh upload name, every request that gets past the
   * checks leaves the folder as it found it, except that the intermediate
   * WAV file survives exactly on the `Leaks` paths of a completed save. The saved upload never
   * survives.
   */
  lemma RequestCleanup(env: Env, model: Option<Classifier>, upload: UploadedFile, id: string,
                       files: set<string>)
    requires SavedName(id, upload.filename) !in files
    requires ConvertedPath(SavedName(id, upload.filename)) !in files
    ensures var r := Request(env, model, Some(upload), id, files);
            var saved := SavedName(id, upload.filename);
            !IsRejection(r.value) ==>
              saved !in r.files &&
              r.files == files + (if upload.saves && Leaks(env, saved) then {ConvertedPath(saved)} else {})
  {
    RequestFolder(env, model, upload, id, files);
    SavedFolder(env, upload.saves, SavedName(id, upload.filename), files);
  }

  /** The folder a request past the checks leaves, once the saved upload is removed. */
  lemma SavedFolder(env: Env, saves: bool, saved: string, files: set<string>)
    requires saved !in files && ConvertedPath(saved) !in files
    ensures var after := if saves then Extraction(env, files + {saved}, saved).files - {saved} else files - {saved};
            saved !in after && after == files + (if saves && Leaks(env, saved) then {ConvertedPath(saved)} else {})
  {
    if saves {
      if NeedsConversion(saved) {
        ConvertedExtractionFolder(env, files + {saved}, saved);
        assert ConvertedPath(saved) != saved;
      } else {
        DirectExtractionFolder(env, files + {saved}, saved);
      }
    }
  }

  /**
   * The empty-buffer path: the conversion succeeded but the converted audio
   * is empty. The request reports unreadable audio and the intermediate
   * stays in the folder.
   */
  lemma EmptyConvertedAudioLeaks(env: Env, model: Classifier, upload: UploadedFile, id: string,
                                 files: set<string>)
    requires upload.filename != "" && AllowedFile(upload.filename) && upload.saves
    requires SavedName(id, upload.filename) !in files
    requires ConvertedPath(SavedName(id, upload.filename)) !in files
    requires var saved := SavedName(id, upload.filename);
             var effect := env.written(ConvertedPath(saved));
             NeedsConversion(saved) && env.decodes(saved, DecodeFormat(saved)) && effect.created && !effect.raised
    requires env.dsp.load(ConvertedPath(SavedName(id, upload.filename))) == Some([])
    ensures var r := Request(env, Some(model), Some(upload), id, files);
            r.value == UnreadableAudio && ConvertedPath(SavedName(id, upload.filename)) in r.files
  {
    var saved := SavedName(id, upload.filename);
    var cv := ConvertedPath(saved);
    var start := files + {saved};
    ConversionOutcome(env, start, saved);
    var c := Conversion(env, start, saved);
    assert c.value == cv && cv in c.files;
    var e := Extraction(env, start, saved);
    assert e == Analysis(env, c.files, cv);
    assert Loaded(env, c.files, cv) == Some([]);
    assert e == Step(None, c.files);
    assert cv != saved;
  }

  /**
   * Serving and training compute the same vector: for a ".wav" upload the
   * server loads directly, the vector it classifies is the one the dataset
   * builder computes for the same file.
   */
  lemma ServingMatchesTraining(env: Env, files: set<string>, path: string)
    requires !NeedsConversion(path) && Extraction(env, files, path).value.Some?
    ensures Dataset.FileFeatures(env.dsp, path) == Extraction(env, files, path).value
  {
    Dataset.TrainingVectorIsServingVector(env.dsp, Loaded(env, files, path).value);
  }

  /**
   * The verdict names the client's file, reads class 0 as "Fake" and any
   * other class as "Real", and reports a confidence in [0, 100] whenever the
   * model's probabilities lie in [0, 1].
   */
  lemma RequestVerdict(env: Env, model: Option<Classifier>, upload: Option<UploadedFile>, id: string,
                       files: set<string>)
    ensures var r := Request(env, model, upload, id, files);
            r.value.Classified? ==>
              model.Some? && upload.Some? && r.value.filename == upload.value.filename &&
              var v := Extraction(env, files + {SavedName(id, upload.value.filename)},
                                  SavedName(id, upload.value.filename)).value.value;
              |v| == VectorLength &&
              model.value.predict(v).Some? && model.value.proba(v).Some? &&
              (r.value.result == "Fake" <==> model.value.predict(v) == Some(0)) &&
              (r.value.result == "Real" <==> model.value.predict(v) != Some(0)) &&
              ((forall i :: 0 <= i < |model.value.proba(v).value| ==> IsProbability(model.value.proba(v).value[i])) ==>
                 0.0 <= r.value.confidence <= 100.0)
  {
    var r := Request(env, model, upload, id, files);
    if r.value.Classified? {
      var saved := SavedName(id, upload.value.filename);
      var v := Extraction(env, files + {saved}, saved).value.value;
      var p := model.value.proba(v).value;
      if forall i :: 0 <= i < |p| ==> IsProbability(p[i]) {
        ConfidenceIsPercentage(p);
      }
    }
  }

  /** The server process: the model loaded at start-up (or None) and the upload folder. */
  class Server {
    const model: Option<Classifier>
    var files: set<string>

    constructor(model: Option<Classifier>, files: set<string>)
      ensures this.model == model && this.files == files
    {
      this.model := model;
      this.files := files;
    }

    /** Converts a non-WAV upload to a WAV file next to it; falls back to the input path on every failure. */
    method ConvertToWav(env: Env, input: string) returns (out: string)
      modifies this
      ensures Step(out, files) == Conversion(env, old(files), input)
    {
      if input !in files {
        return input;
      }
      var format := DecodeFormat(input);
      if !env.decodes(input, format) {
        return input;
      }
      var output := ConvertedPath(input);
      var effect := env.written(output);
      if effect.created {
        files := files + {output};
      }
      if effect.raised {
        return input;
      }
      if output !in files {
        return input;
      }
      return output;
    }

    /** Removes `path` when it names an intermediate file; a missing file is ignored. */
    method RemoveIntermediate(path: string)
      modifies this
      ensures files == if EndsWith(path, ConvertedSuffix) then old(files) - {path} else old(files)
    {
      if EndsWith(path, ConvertedSuffix) {
        files := files - {path};
      }
    }

    /** Builds the 30-value vector of the file at `path`, converting it first unless it ends in ".wav". */
    method ExtractFeatures(env: Env, path: string) returns (features: Option<seq<real>>)
      modifies this
      ensures Step(features, files) == Extraction(env, old(files), path)
    {
      var filepath := path;
      if NeedsConversion(filepath) {
        var converted := ConvertToWav(env, filepath);
        if converted !in files {
          return None;
        }
        filepath := converted;
      }
      var loaded := if filepath in files then env.dsp.load(filepath) else None;
      if loaded.None? {
        RemoveIntermediate(filepath);
        return None;
      }
      var y := loaded.value;
      if |y| == 0 {
        return None;
      }
      if !env.dsp.computes(y) {
        RemoveIntermediate(filepath);
        return None;
      }
      features := Some(Vector(env.dsp, y));
      RemoveIntermediate(filepath);
    }

    /** Handles one POST: validate, save under a fresh name, extract, classify, clean up. */
    method Index(env: Env, upload: Option<UploadedFile>, id: string) returns (outcome: Outcome)
      modifies this
      ensures Step(outcome, files) == Request(env, model, upload, id, old(files))
    {
      if model.None? {
        return ModelUnavailable;
      }
      if upload.None? {
        return NoFileUploaded;
      }
      var name := upload.value.filename;
      if name == "" {
        return NoFileSelected;
      }
      if !AllowedFile(name) {
        return InvalidFileType;
      }
      var saved := SavedName(id, name);
      if !upload.value.saves {
        files := files - {saved};
        return ProcessingError;
      }
      files := files + {saved};
      var features := ExtractFeatures(env, saved);
      if features.None? {
        files := files - {saved};
        return UnreadableAudio;
      }
      var v := features.value;
      var prediction := model.value.predict(v);
      var proba := if prediction.Some? then model.value.proba(v) else None;
      if prediction.None? || proba.None? || |proba.value| == 0 {
        files := files - {saved};
        return ProcessingError;
      }
      outcome := Classified(ResultLabel(prediction.value), Confidence(proba.value), name);
      files := files - {saved};
    }
  }
}
