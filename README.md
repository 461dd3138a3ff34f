# Rolex movement audio classifier — a Dafny model

This project models the core of a small web service. The service tells a genuine watch movement from a fake one by the sound it makes. The model covers four parts:

- **The request handler** (`Pipeline`, `UploadNames`, `Features`, `Verdict`):
  - It checks the upload: model loaded, file field present, name non-empty, extension allowed.
  - It saves the upload under `<uuid>_<name>`.
  - It converts every name not ending in `.wav` to `<stem>_converted.wav`.
  - It computes the 30-value feature vector: 13 MFCC means, 13 MFCC standard deviations, and the mean and standard deviation of the zero-crossing rate and of the spectral centroid.
  - It asks the classifier for a class and for probabilities, and reports "Fake" for class 0 and "Real" otherwise, with the largest probability as a percentage.
  - It removes the files it created.
  - The upload folder is a `set<string>` field of the class `Server`. The pure functions `Conversion`, `Extraction` and `Request` specify its methods.
- **The dataset builder** (`Dataset`). It visits the `real` and then the `fake` directory. Every listed `.wav` file becomes one row: the vector followed by the label. The table has 31 named columns, and any failing file aborts the build. `ProcessDataset` keeps the script's two nested loops.
- **The dataset preparation script** (`Slicer`):
  - A recording is made mono and normalised.
  - It is cut down to its non-silent ranges (the slices are merged in order) and marked as 16 kHz.
  - It is then cut into chunks of 2000 ms, written as `<label>_<k>.wav` into the label's directory (the class `DataFolder`).
- **The two upload-page scripts** (`Validation`, `PageScript` for `script_new.js`, `LegacyPageScript` for `script.js`):
  - The file checks: a listed MIME type or an audio extension, and at most 10 MiB.
  - File selection, handing a recording over, reset and stop.
  - What a submit sends.
  - Each page is a class whose fields the handlers update. Each handler is proved equal to a function on a `Page` snapshot, and the lemmas are stated about those functions.

The audio and numerics libraries enter the model as oracles (function-typed fields of `Env`, `Dsp`, `Effects`, `Classifier`):

- decoding and exporting;
- loading at 16 kHz;
- MFCC, zero-crossing rate and spectral centroid;
- mean and standard deviation;
- mono mixing, normalisation and silence detection;
- prediction.

The identifier of a saved upload and a directory listing are parameters.

## Model

| member | source | states |
|---|---|---|
| Strings.Lower | flask_app/app.py:49 | Lower-casing keeps the length and lower-cases each character. |
| Strings.LastIndexOf | flask_app/app.py:49 | The split point of `rsplit('.', 1)`: -1 exactly when there is no dot; otherwise the index holds the dot and no dot follows it. |
| Strings.NatToString | scripts/audio_cutting.py:49 | A number is formatted as a non-empty string of decimal digits, one digit exactly below 10. |
| Strings.NatToStringInjective | scripts/audio_cutting.py:49 | Distinct numbers format differently. |
| Strings.Max | flask_app/app.py:202 | `max()` returns an element that is at least every element. |
| UploadNames.AllowedFile | flask_app/app.py:48-49 | A name without a dot, or ending in one, is rejected. |
| UploadNames.AllowedFileMeaning | flask_app/app.py:48-49 | Both directions: a name is accepted iff its last dot is followed by an extension whose lower-cased form is in the allowed set. |
| UploadNames.AllowedWithExtension | flask_app/app.py:48-49 | stem + "." + allowed extension is always accepted, whatever the stem. |
| UploadNames.AllowedFileAt | flask_app/app.py:49 | Acceptance is decided by the text after the last dot alone. |
| UploadNames.SavedName | flask_app/app.py:179 | The saved name is the identifier, an underscore, then the client's name unchanged. The lemmas below show it keeps the client's last dot, extension and ending. |
| UploadNames.NeedsConversion | flask_app/app.py:94 | Conversion is needed for every path not ending in a lower-case `.wav`. `SkipsConversionIffLowerWav` states which accepted names skip it, and `ConvertedPathIsCleanedUp` that an intermediate never needs it. |
| UploadNames.SavedNameLastDot | flask_app/app.py:179 | The saved name's last dot is the client's last dot, shifted by the prefix. |
| UploadNames.SavedNameKeepsExtension | flask_app/app.py:179 | Once the client's name has a dot, the saved name is accepted iff the client's name is. |
| UploadNames.SavedNameSuffix | flask_app/app.py:179 | The saved name ends exactly as the client's name does. |
| UploadNames.SavedNameEndsWith | flask_app/app.py:179 | The saved name ends with a given suffix iff the client's name does, so the `.wav` and `.webm` tests see the client's ending. |
| UploadNames.ConvertedPath | flask_app/app.py:69 | The intermediate's name is the input up to its last dot, plus `_converted.wav` (appended when there is no dot). It always ends in the suffix and never equals the input. |
| UploadNames.DecodeFormat | flask_app/app.py:62-66 | The webm hint is used iff the path ends in a lower-case `.webm`. |
| UploadNames.SkipsConversionIffLowerWav | flask_app/app.py:94 | For an accepted name, conversion is skipped iff the extension is `wav` as written; `.WAV` is accepted yet converted. |
| UploadNames.ConvertedPathIsCleanedUp | flask_app/app.py:130 | Every intermediate matches the cleanup test and is never converted again. |
| Features.SlotAt | flask_app/app.py:118-125 | Each of the 30 positions holds a valid slot. |
| Features.LayoutIsBijection | flask_app/app.py:118-125 | The stacking order is a bijection between positions 0..29 and the valid slots. |
| Features.Vector | scripts/extract_features.py:16-23 | The vector has 30 values, and position i holds the statistic of slot i. |
| Features.VectorDeterministic | flask_app/app.py:113-125 | Equal buffers give equal values in every slot. |
| Features.ColumnNames | scripts/extract_features.py:38-41 | 31 column names: the slot names in vector order, then `label`. |
| Features.SlotNameShape | scripts/extract_features.py:38-41 | A column name's first and sixth characters tell its family, and its digits tell its coefficient. |
| Features.SlotNameInjective | scripts/extract_features.py:38-41 | Distinct slots have distinct column names. |
| Features.ColumnNamesDistinct | scripts/extract_features.py:38-42 | No two of the 31 columns share a name. |
| Features.Row | scripts/extract_features.py:35 | A row is the vector's values in order, followed by the label. |
| Features.RowMatchesColumns | scripts/extract_features.py:35-42 | A row built from a vector has one cell per column, and its last cell is the label. |
| Verdict.TrainingCode | scripts/train_model.py:20 | Training encodes real as 1 and fake as 0, and gives every other label no code. |
| Verdict.ResultLabel | flask_app/app.py:201 | The result is "Fake" iff class 0 was predicted, else "Real". |
| Verdict.ResultLabelInvertsTrainingCode | flask_app/app.py:198-201 | Reading back the training code of a dataset label gives that label's display name. |
| Verdict.Confidence | flask_app/app.py:202 | The confidence is some class probability times 100, and at least every class probability times 100. |
| Verdict.ConfidenceIsPercentage | flask_app/app.py:202 | Probabilities in [0, 1] give a confidence in [0, 100]. |
| Verdict.TwoClassConfidenceAtLeastHalf | flask_app/app.py:202 | For two probabilities summing to 1, the confidence is in [50, 100]. |
| Pipeline.ConversionOutcome | flask_app/app.py:51-86 | The conversion returns its input or the intermediate, and adds at most the intermediate to the folder. It returns the intermediate iff the input exists, decoding succeeds, the export does not raise and the output exists. |
| Pipeline.ExtractionLayout | flask_app/app.py:88-125 | A vector comes back iff the loaded buffer exists, is non-empty and its descriptors compute. It is then the 30-slot vector of that buffer. |
| Pipeline.Analysis | flask_app/app.py:102-150 | Loading, the empty-buffer check, the descriptors and the cleanup of an intermediate. `ExtractionLayout` states when a vector comes back and that it is the 30-slot vector of the buffer. `IntermediateFate` states that the intermediate stays only when the converted audio is empty, and that no other file is touched. |
| Pipeline.IntermediateFate | flask_app/app.py:129-150 | After a successful conversion, the intermediate stays iff the converted audio is empty. No other file is touched. |
| Pipeline.RequestCheckOrder | flask_app/app.py:155-175 | Each rejection happens exactly when its check is the first to fail (model, file field, name, extension). Every rejection leaves the folder unchanged. |
| Pipeline.RequestFolder | flask_app/app.py:177-219 | Past the checks, the folder is the extraction's folder without the saved upload (or the folder without it when saving fails). |
| Pipeline.DirectExtractionFolder | flask_app/app.py:94-150 | Extracting a `.wav` name creates no file. |
| Pipeline.ConvertedExtractionFolder | flask_app/app.py:94-150 | Extracting a converted name adds the intermediate exactly on the `Leaks` paths: the export raised after writing, or the converted audio was empty. |
| Pipeline.RequestCleanup | flask_app/app.py:177-219 | With fresh names, a request past the checks never leaves the saved upload. It leaves the folder as it found it, except that the intermediate survives exactly on the `Leaks` paths. |
| Pipeline.EmptyConvertedAudioLeaks | flask_app/app.py:106-108 | Converted audio that loads as an empty buffer gives "unreadable audio" and leaves the intermediate behind. |
| Pipeline.ServingMatchesTraining | flask_app/app.py:104-125 | For a `.wav` upload, the vector the server classifies is the vector the dataset builder computes for the same file. |
| Pipeline.RequestVerdict | flask_app/app.py:193-211 | A verdict names the client's file and comes from the 30-value vector; "Fake" iff class 0 was predicted. With probabilities in [0, 1], the confidence is in [0, 100]. |
| Pipeline.Server.constructor | flask_app/app.py:29-46 | The server starts with the loaded model (or none) and the folder's contents. |
| Pipeline.Server.ConvertToWav | flask_app/app.py:51-86 | The returned path and the new folder are those of `Conversion`. |
| Pipeline.Server.RemoveIntermediate | flask_app/app.py:129-135 | Only a path ending in `_converted.wav` is removed; a missing one is ignored. |
| Pipeline.Server.ExtractFeatures | flask_app/app.py:88-150 | The vector and the new folder are those of `Extraction`. |
| Pipeline.Server.Index | flask_app/app.py:152-221 | The outcome and the new folder are those of `Request`. |
| Dataset.TrainingVector | scripts/extract_features.py:16-23 | The builder's own stack of six parts: the 13 MFCC means, the 13 MFCC standard deviations, then four scalars. `TrainingVectorIsServingVector` relates it to the server's vector. |
| Dataset.TrainingVectorIsServingVector | scripts/extract_features.py:16-23 | The builder's six-part stack is the same sequence as the server's 30-slot vector (flask_app/app.py:118-125). |
| Dataset.FileFeatures | scripts/extract_features.py:10-24 | A file gives 30 values iff it loads and its descriptors compute; there is no empty-buffer check. |
| Dataset.RowsOf | scripts/extract_features.py:30-35 | The rows of one directory in listing order. `RowsOfShape` states when it fails and what its rows are. |
| Dataset.Collect | scripts/extract_features.py:28-35 | The rows of the directories one after the other. `TableIsTwoDirectories` and `CollectStopsAt` state its result and its failure. |
| Dataset.TableIsTwoDirectories | scripts/extract_features.py:28-35 | The table is the `real` rows followed by the `fake` rows, or nothing when either directory fails. |
| Dataset.RowsOfShape | scripts/extract_features.py:30-35 | A directory fails iff one of its `.wav` files has no features. Otherwise it has one row per `.wav` name, each 31 cells wide and ending in the directory's label. |
| Dataset.TableShape | scripts/extract_features.py:26-42 | The table has one row per `.wav` file and every row is 31 wide. Real rows come before fake rows, and every label has a training code. |
| Dataset.TableFailure | scripts/extract_features.py:30-35 | The build aborts iff some `.wav` file of either directory has no features. |
| Dataset.NoneStaysNone | scripts/extract_features.py:30-34 | Once a prefix of a listing fails, the whole listing fails. |
| Dataset.CollectStopsAt | scripts/extract_features.py:28-34 | A failing directory makes the whole build fail. |
| Dataset.ProcessDataset | scripts/extract_features.py:26-44 | The two loops produce exactly `Table`. |
| Slicer.SliceMs | scripts/audio_cutting.py:25 | The millisecond slice clips both bounds to the length and is empty when start is not below end. |
| Slicer.PreprocessAudio | scripts/audio_cutting.py:9-30 | The result is `Preprocessed`: the mono normalised audio when nothing is non-silent, else the non-silent slices merged in order at 16 kHz. |
| Slicer.Merged | scripts/audio_cutting.py:22-25 | The non-silent slices laid end to end in range order. The lemmas below state its length and that it holds only recorded values. |
| Slicer.MergedLengthClipped | scripts/audio_cutting.py:22-25 | For any ranges, the trimmed audio is as long as the ranges together once each is clipped to the recording. |
| Slicer.MergedLength | scripts/audio_cutting.py:22-25 | With ranges inside the recording, the trimmed audio is as long as the ranges together. |
| Slicer.MergedFromRecording | scripts/audio_cutting.py:22-25 | Every trimmed value is a value of the recording. |
| Slicer.MergedTiles | scripts/audio_cutting.py:22-25 | Ranges that tile a stretch reproduce that stretch exactly. |
| Slicer.PreprocessedShape | scripts/audio_cutting.py:9-30 | With no non-silent range the audio is returned as is. Otherwise it is at 16 kHz and holds only recorded values. |
| Slicer.OffsetIsProduct | scripts/audio_cutting.py:47 | The loop's k-th offset is k times the chunk length. |
| Slicer.ChunkCountIsLoopCount | scripts/audio_cutting.py:47 | The loop's k-th offset is below the length iff k is below ceil(length / chunk). |
| Slicer.ChunkSize | scripts/audio_cutting.py:47-48 | Every written chunk is non-empty and at most a chunk long; all but the tail are exactly a chunk long. |
| Slicer.Chunks | scripts/audio_cutting.py:47-48 | One chunk per loop turn: asking for n chunks gives n. `ChunksPrefix` and `ChunksRebuild` state their contents. |
| Slicer.ChunksPrefix | scripts/audio_cutting.py:47-48 | The first n chunks laid end to end are the recording up to the n-th offset, clipped to its length. |
| Slicer.ChunksRebuild | scripts/audio_cutting.py:47-48 | The chunks laid end to end are exactly the recording. |
| Slicer.ChunkName | scripts/audio_cutting.py:49 | Every chunk file name ends in `.wav`. |
| Slicer.ChunkNameInjective | scripts/audio_cutting.py:49 | Different chunk indices give different file names. |
| Slicer.ChunkFilesAt | scripts/audio_cutting.py:47-49 | Chunk k is written to `<label>_<k>.wav` in the label's directory, at the recording's frame rate. |
| Slicer.ChunkFilesOnly | scripts/audio_cutting.py:47-49 | Nothing else is written: every file is in the label's directory and is named after a chunk index. |
| Slicer.DivOfMultiple | scripts/audio_cutting.py:49 | At the k-th offset the file index `i // c` is k. |
| Slicer.SliceStep | scripts/audio_cutting.py:47-49 | One loop turn at the k-th offset turns the files of the first k chunks into those of the first k + 1, and moves to the next offset. |
| Slicer.BothRunsKept | scripts/audio_cutting.py:52-53 | The second call never overwrites a chunk of the first: after both calls, every `real` chunk and every `fake` chunk is present with its own contents. |
| Slicer.DataFolder.constructor | scripts/audio_cutting.py:5-7 | The folders start with the given recordings, directories and files. |
| Slicer.DataFolder.SliceAudio | scripts/audio_cutting.py:33-49 | A missing recording changes nothing. Otherwise the label's directory exists and exactly the `ChunkFiles` of the preprocessed recording are added or overwritten. |
| Slicer.DataFolder.SliceBoth | scripts/audio_cutting.py:52-53 | The two calls run in order with the default 2000 ms chunks. Each label's directory appears iff its recording exists, and the files are the old ones updated first by the real chunks, then by the fake ones. |
| Validation.HasAudioExtension | flask_app/static/script_new.js:40 | The case-insensitive test for a dot followed by wav, mp3, m4a, flac, ogg or webm at the end of the name. `ExtensionRuleMatchesServer` shows it accepts exactly the names the server accepts. |
| Validation.IsAudioFile | flask_app/static/script_new.js:38-41 | A file passes iff its type is listed or the server accepts its name, via `ExtensionRuleMatchesServer`. The same function appears at flask_app/static/script.js:185-188. `MimeOnlyFileRejectedByServer` shows the type branch lets through a name the server rejects. |
| Validation.PassesChecks | flask_app/static/script_new.js:274-283 | A file is accepted iff the type check passes (listed type or a name the server accepts) and it has at most 10485760 bytes. |
| Validation.IsValidFileSize | flask_app/static/script_new.js:44-46 | A file passes iff it has at most 10485760 bytes. |
| Validation.ExtensionRuleMatchesServer | flask_app/static/script_new.js:38-41 | Both directions: the page's case-insensitive extension pattern accepts a name iff the server's `allowed_file` does. |
| Validation.AudioExtensionsAreServerExtensions | flask_app/static/script.js:185-188 | The page's extension list is the server's, and each entry is lower-case without a dot. |
| Validation.AllowedHasPattern | flask_app/static/script_new.js:38-41 | Every name the server accepts matches the page's extension pattern. |
| Validation.AudioNameAccepted | flask_app/static/script_new.js:38-41 | stem + "." + an audio extension passes both the page's pattern and the server's rule. |
| Validation.DottedSuffixAtEnd | flask_app/static/script_new.js:38-41 | A matched `.ext` starts at the name's last dot, and the text after it lower-cases to ext. |
| Validation.ExtensionAtEnd | flask_app/static/script_new.js:38-41 | A name matched by the pattern is accepted by the server. |
| Validation.MimeOnlyFileRejectedByServer | flask_app/static/script_new.js:38-41 | A file typed `audio/mpeg` named `recording` passes both page checks, yet the server rejects its name. |
| Validation.SizeLimitBoundary | flask_app/static/script.js:191-193 | The limit is inclusive: 10485760 bytes pass and 10485761 do not. |
| PageScript.RecordedFilename | flask_app/static/script_new.js:233-241 | A recording is named `recorded-audio.webm` iff its type mentions webm, else `recorded-audio.wav`. |
| PageScript.ResetClears | flask_app/static/script_new.js:49-82 | Reset clears the recordings, the stored recording and the selection. It enables record, disables stop and submit, leaves nothing to send, and is idempotent. |
| PageScript.FileSelectionOrder | flask_app/static/script_new.js:270-303 | No file changes nothing; the type check comes first. A failed check only sets the error. Submit changes only for a passing file, which enables it, shows its name and hides the recording. |
| PageScript.RecordingHandOver | flask_app/static/script_new.js:225-267 | Using a recording clears the selection, enables submit and stores the recording under its type's name, so a submit sends it. Without a recording nothing changes. |
| PageScript.SubmitSource | flask_app/static/script_new.js:363-396 | A submit is blocked iff there is neither a selected file nor a stored recording. A stored recording wins over the selection; otherwise the first selected file is sent. |
| PageScript.RejectedFileStaysSelected | flask_app/static/script_new.js:332-335 | A file failing the checks stays in the input, submit keeps its state, and a submit with no stored recording sends that file. |
| PageScript.SelectionDoesNotReplaceRecording | flask_app/static/script_new.js:270-303 | A valid file chosen after using a recording is shown, yet the submit still sends the recording. |
| PageScript.ConsistentPreserved | flask_app/static/script_new.js:225-267 | Every handler keeps a stored recording paired with one of the two recorded names. |
| PageScript.RecordedSubmissionAccepted | flask_app/static/script_new.js:384-392 | A sent recording has a name the server and the page both accept. The server converts it and uses the webm hint iff it is the webm name. |
| PageScript.RecordedNames | flask_app/static/script_new.js:236-240 | Both recorded names pass both checks, and each ends in its own extension and not in the other. |
| PageScript.UploadPage.constructor | flask_app/static/script_new.js:49-82 | The page starts in the reset state. |
| PageScript.UploadPage.ResetUI | flask_app/static/script_new.js:49-82 | The new state is `Reset` of the old. |
| PageScript.UploadPage.UseRecording | flask_app/static/script_new.js:225-267 | The new state is `RecordingUsed` of the old. |
| PageScript.UploadPage.HandleFileSelect | flask_app/static/script_new.js:270-303 | The new state is `FileSelected` of the old. |
| PageScript.UploadPage.OnFilesChosen | flask_app/static/script_new.js:332-335 | The new state is `FilesChosen` of the old. |
| PageScript.UploadPage.OnFilesDropped | flask_app/static/script_new.js:350-360 | The new state is `FilesDropped` of the old. |
| PageScript.UploadPage.OnDataAvailable | flask_app/static/script_new.js:149-154 | Non-empty recorder data is appended. |
| PageScript.UploadPage.OnRecorderStop | flask_app/static/script_new.js:156-184 | The data becomes one blob typed as the recorder reports (or `audio/wav`), and the controls are restored. |
| PageScript.UploadPage.OnSubmit | flask_app/static/script_new.js:363-396 | It sends `SubmitChoice` of the old state, and the new state is `Submitted` of the old. |
| LegacyPageScript.StopRestoresControls | flask_app/static/script.js:132-144 | Stopping always re-enables record, disables stop, hides countdown and status, and clears both intervals. No recorder is left recording, nothing else changes, and a second stop is a no-op. |
| LegacyPageScript.RecordingFillsInput | flask_app/static/script.js:147-170 | Using a recording puts exactly one file, `recorded_audio.webm`, in the input and enables submit, so a submit sends it. Without a recording nothing changes. |
| LegacyPageScript.RecordedUpload | flask_app/static/script.js:150-152 | The handed-over file keeps the recording's size, passes the page's type check, and has a name the server accepts. |
| LegacyPageScript.RecordedUploadAccepted | flask_app/static/script.js:150-152 | The handed-over file passes the type check and the server accepts its name. The server converts it with the webm hint. |
| LegacyPageScript.RecordedNameChecks | flask_app/static/script.js:150 | `recorded_audio.webm` passes both checks and ends in `.webm`, not `.wav`. |
| LegacyPageScript.RecordedTypeUnlisted | flask_app/static/script.js:185-188 | `audio/webm;codecs=opus` is not a listed type, so only the name lets the recording pass. |
| LegacyPageScript.ResetLeavesNothingToSend | flask_app/static/script.js:173-182 | Reset forgets the recording and the selection, disables submit, and leaves nothing to send or use. |
| LegacyPageScript.SubmitGuard | flask_app/static/script.js:339-353 | The form is blocked iff the input is empty; otherwise its first file goes out unchecked and the loading state shows. |
| LegacyPageScript.FileSelectionOrder | flask_app/static/script.js:196-223 | No file changes nothing; the type check comes first. A failed check only sets the error, and submit is enabled only for a file passing both checks. |
| LegacyPageScript.RejectedFileStaysSelected | flask_app/static/script.js:311-314 | A file failing the checks stays in the input with submit unchanged, and the guard lets it through. |
| LegacyPageScript.LegacyUploadPage.constructor | flask_app/static/script.js:23-29 | The whole initial state: nothing selected, recorded or chunked, no recorder, no running interval, record on, stop and submit off, every section hidden, no name or error shown. A submit is blocked. |
| LegacyPageScript.LegacyUploadPage.StopRecording | flask_app/static/script.js:132-144 | The new state is `Stopped` of the old. |
| LegacyPageScript.LegacyUploadPage.OnRecorderStop | flask_app/static/script.js:64-82 | The data becomes one `audio/webm;codecs=opus` blob, and the controls are restored. |
| LegacyPageScript.LegacyUploadPage.OnDataAvailable | flask_app/static/script.js:58-62 | Non-empty recorder data is appended. |
| LegacyPageScript.LegacyUploadPage.UseRecording | flask_app/static/script.js:147-170 | The new state is `RecordingUsed` of the old. |
| LegacyPageScript.LegacyUploadPage.ResetRecording | flask_app/static/script.js:173-182 | The new state is `RecordingReset` of the old. |
| LegacyPageScript.LegacyUploadPage.HandleFileSelect | flask_app/static/script.js:196-223 | The new state is `FileSelected` of the old. |
| LegacyPageScript.LegacyUploadPage.OnFilesChosen | flask_app/static/script.js:311-314 | The new state is `FilesChosen` of the old. |
| LegacyPageScript.LegacyUploadPage.OnFilesDropped | flask_app/static/script.js:327-336 | The new state is `FilesDropped` of the old. |
| LegacyPageScript.LegacyUploadPage.OnSubmit | flask_app/static/script.js:339-353 | It sends `SubmitChoice` of the old state, and the new state is `Submitted` of the old. |

## Left out

- Signal processing is not modelled. This covers decoding, exporting, loading and resampling, MFCC, zero-crossing rate, spectral centroid, mean, standard deviation, mono mixing, normalisation and silence detection. Each is an uninterpreted function of its input. Floating-point behaviour is therefore not captured.
- Slicer.PreprocessAudio: resampling to 16 kHz only sets the frame rate. The values stay one per millisecond, as the library's slicing measures them; sample-level interpolation is not modelled.
- Lower-casing is modelled for ASCII letters only; Python's `str.lower` and the JavaScript `/i` flag also fold other letters. The only non-ASCII characters that lower-case to ASCII letters are the dotted capital I and the Kelvin sign, and no allowed extension contains an `i` or a `k`, so acceptance is the same.
- Model loading: only "loaded" or "not loaded" is kept. The search over three candidate paths is left out, as is the deserialisation.
- The `uuid4` identifier of a saved upload is a parameter. The cleanup lemmas require it to be fresh: neither the saved name nor its intermediate may already be in the folder.
- The classifier's `predict` and `predict_proba` are oracles. The model does not constrain how they relate (for example, that the predicted class has the largest probability).
- Flask routing, `flash` messages, template rendering, the GET branch and console output are left out. The outcome datatype names the flashed message.
- Pipeline.Index: a save that raises is modelled as leaving no file. A partial write is not modelled.
- Dataset.ProcessDataset:
  - A missing label directory would make `os.listdir` raise; it is not modelled. The listing is a parameter.
  - Writing the CSV file is left out.
  - `np.append` turns every cell into a string; the model keeps numbers and the label as separate `Cell` cases.
- Slicer.DataFolder.SliceAudio:
  - A recording that fails to decode would make the script crash; it is not modelled.
  - A chunk export that raises is not modelled.
  - `chunkMs > 0` is a precondition. The script passes 2000, and `range` with step 0 raises.
- Page scripts, not modelled:
  - the recorder itself: permission, `getUserMedia`, MIME-type support probing;
  - `startRecording`, the countdown, and the ticking of the recording timer;
  - previews, `formatFileSize`, `showSuccess`, error-message timeouts, the audio-context unlock;
  - the microphone-support check (flask_app/static/script.js:374-378);
  - the `fetch` request and the response handling of `script_new.js`, and the browser's own form post of `script.js`.
  - The model keeps only which file the submit sends.
- `stopRecording` of `script_new.js` is not modelled; only the legacy page's stop is.
- LegacyPageScript.LegacyUploadPage.constructor: the initial button states and hidden sections come from the page template, which is not part of this model. The constructor assumes record enabled, stop and submit disabled, and every section hidden. The script itself sets only the recording variables (flask_app/static/script.js:23-29).
- Page display changes are modelled as booleans. Button labels and inner HTML are not kept.
