/**
 * The earlier upload page script, whose form is submitted by the browser
 * itself: stopping a recording, handing a recording to the file input,
 * resetting, file selection, and the submit guard. The page's state is the
 * class `LegacyUploadPage`; `Page` is a snapshot of it, and the functions on
 * `Page` specify the handlers. Rendering, previews, timers' ticking, the
 * recorder itself and the network are not modelled.
 */
module LegacyPageScript {
  import opened Optional
  import opened Strings
  import opened UploadNames
  import opened Validation

  const TypeError := "Please select a valid audio file (WAV, MP3, M4A, FLAC, OGG, WebM)"
  const SizeError := "File size must be less than 10MB"
  const NothingToSend := "Please select an audio file or record audio first!"

  /** The name and type a recording is handed to the file input with. */
  const RecordedName := "recorded_audio.webm"
  const RecordedType := "audio/webm;codecs=opus"

  /** The recorder: not created yet, created but not recording, or recording. */
  datatype Recorder = NoRecorder | Inactive | Recording

  /** Which of the countdown and recording intervals are running. */
  datatype Timers = Timers(countdown: bool, recording: bool)

  /** Which parts of the page are displayed. */
  datatype Shown = Shown(countdown: bool, status: bool, recorded: bool, fileInfo: bool, loading: bool)

  /** A snapshot of the page state the handlers read and write. */
  datatype Page = Page(
    selected: seq<File>,         // the file input's file list
    recordedBlob: Option<Blob>,
    recordedChunks: seq<Blob>,
    recorder: Recorder,
    timers: Timers,
    disabled: Disabled,
    shown: Shown,
    shownName: string,
    lastError: Option<string>)

  /** `stopRecording`: stops a running recorder, clears both intervals, and restores the buttons. */
  function Stopped(p: Page): Page
  {
    p.(recorder := if p.recorder == Recording then Inactive else p.recorder,
       timers := Timers(false, false),
       disabled := p.disabled.(record := false, stop := true),
       shown := p.shown.(countdown := false, status := false))
  }

  /** The recorder's stop event: the data pieces become one webm/opus blob, shown for playback. */
  function RecordingStopped(p: Page): Page
  {
    p.(recordedBlob := Some(Blob(TotalSize(p.recordedChunks), RecordedType)),
       shown := p.shown.(recorded := true, status := false),
       disabled := p.disabled.(record := false, stop := true))
  }

  /** The recorder delivered data; empty pieces are ignored. */
  function DataReceived(p: Page, part: Blob): Page
  {
    if part.size > 0 then p.(recordedChunks := p.recordedChunks + [part]) else p
  }

  /** The file a recording is handed over as. */
  function RecordedUpload(b: Blob): (f: File)
    ensures f.size == b.size && IsAudioFile(f) && AllowedFile(f.name)
  {
    RecordedNameChecks();
    File(RecordedName, RecordedType, b.size)
  }

  /** `useRecording`: the file input holds exactly the recording; without one nothing happens. */
  function RecordingUsed(p: Page): Page
  {
    if p.recordedBlob.None? then p
    else
      p.(selected := [RecordedUpload(p.recordedBlob.value)], shownName := RecordedName,
         shown := p.shown.(fileInfo := true, recorded := false), disabled := p.disabled.(submit := false))
  }

  /** `resetRecording`: forgets the recording and the selection, and disables submit. */
  function RecordingReset(p: Page): Page
  {
    p.(recordedBlob := None, recordedChunks := [], selected := [],
       shown := p.shown.(recorded := false, fileInfo := false), disabled := p.disabled.(submit := true))
  }

  /** `handleFileSelect`: nothing for no file; the type check, then the size check; success shows the file. */
  function FileSelected(p: Page, file: Option<File>): Page
  {
    if file.None? then p
    else if !IsAudioFile(file.value) then p.(lastError := Some(TypeError))
    else if !IsValidFileSize(file.value) then p.(lastError := Some(SizeError))
    else
      p.(shownName := file.value.name, shown := p.shown.(fileInfo := true, recorded := false),
         disabled := p.disabled.(submit := false))
  }

  /** The file input's change event: the input holds `files`, and the first one (if any) is checked. */
  function FilesChosen(p: Page, files: seq<File>): Page
  {
    FileSelected(p.(selected := files), if |files| > 0 then Some(files[0]) else None)
  }

  /** A drop: a non-empty list replaces the input's files and its first file is checked. */
  function FilesDropped(p: Page, files: seq<File>): Page
  {
    if |files| == 0 then p else FileSelected(p.(selected := files), Some(files[0]))
  }

  /** The submit guard: the form goes out with the input's first file, or not at all. */
  function SubmitChoice(p: Page): Submission
  {
    if |p.selected| == 0 then Blocked else SendSelected(p.selected[0])
  }

  function Submitted(p: Page): Page
  {
    if |p.selected| == 0 then p.(lastError := Some(NothingToSend))
    else p.(disabled := p.disabled.(submit := true), shown := p.shown.(loading := true))
  }

  /**
   * Stopping always re-enables record, disables stop, hides the countdown and
   * the status and clears both intervals, whatever the recorder's state; it
   * leaves no recorder running, touches nothing else, and a second stop
   * changes nothing.
   */
  lemma StopRestoresControls(p: Page)
    ensures var q := Stopped(p);
            !q.disabled.record && q.disabled.stop && !q.shown.countdown && !q.shown.status &&
            q.timers == Timers(false, false) && q.recorder != Recording &&
            (p.recorder != Recording ==> q.recorder == p.recorder) &&
            q.selected == p.selected && q.recordedBlob == p.recordedBlob && q.disabled.submit == p.disabled.submit &&
            Stopped(q) == q
  {
  }

  /**
   * Using a recording puts exactly one file, "recorded_audio.webm", in the
   * input and enables submit, so a submit sends it; without a recording
   * nothing changes.
   */
  lemma RecordingFillsInput(p: Page)
    ensures p.recordedBlob.None? ==> RecordingUsed(p) == p
    ensures p.recordedBlob.Some? ==>
              var q := RecordingUsed(p);
              |q.selected| == 1 && q.selected[0].name == RecordedName && q.selected[0].size == p.recordedBlob.value.size &&
              !q.disabled.submit && SubmitChoice(q) == SendSelected(RecordedUpload(p.recordedBlob.value))
  {
  }

  /**
   * The handed-over recording passes the type check (by its name, see
   * `RecordedTypeUnlisted`), the server accepts its name, converts it, and
   * decodes it with the webm hint.
   */
  lemma RecordedUploadAccepted(b: Blob, id: string)
    ensures var f := RecordedUpload(b);
            IsAudioFile(f) && AllowedFile(f.name) &&
            NeedsConversion(SavedName(id, f.name)) && DecodeFormat(SavedName(id, f.name)) == WebmHint
  {
    RecordedNameChecks();
    SavedNameEndsWith(id, RecordedName, ".wav");
    SavedNameEndsWith(id, RecordedName, ".webm");
  }

  /** The recording's name passes both checks and ends in ".webm", not ".wav". */
  lemma RecordedNameChecks()
    ensures AllowedFile(RecordedName) && HasAudioExtension(RecordedName)
    ensures EndsWith(RecordedName, ".webm") && !EndsWith(RecordedName, ".wav")
  {
    assert RecordedName == "recorded_audio" + "." + "webm";
    AudioNameAccepted("recorded_audio", "webm");
    RecordedNameEnding();
  }

  lemma RecordedNameEnding()
    ensures EndsWith(RecordedName, ".webm") && !EndsWith(RecordedName, ".wav")
  {
    assert RecordedName[|RecordedName| - 5..] == ".webm";
    assert RecordedName[|RecordedName| - 4] == 'w';
  }

  /** The recording's type, with its codec parameter, is not one of the listed audio types. */
  lemma RecordedTypeUnlisted()
    ensures RecordedType !in AudioTypes
  {
    assert |RecordedType| == 22;
  }

  /** Resetting forgets the recording and the selection, so nothing can be sent, and disables submit. */
  lemma ResetLeavesNothingToSend(p: Page)
    ensures var q := RecordingReset(p);
            q.recordedBlob.None? && q.recordedChunks == [] && q.disabled.submit && !q.shown.fileInfo &&
            SubmitChoice(q) == Blocked && RecordingUsed(q) == q
  {
  }

  /** The guard blocks exactly when the file input is empty; otherwise the first file is sent unchecked. */
  lemma SubmitGuard(p: Page)
    ensures SubmitChoice(p) == Blocked <==> |p.selected| == 0
    ensures Submitted(p).lastError == Some(NothingToSend) <==>
              |p.selected| == 0 || p.lastError == Some(NothingToSend)
    ensures |p.selected| > 0 ==> Submitted(p).disabled.submit && Submitted(p).shown.loading
  {
  }

  /**
   * File selection: no file changes nothing; the type check comes first; a
   * failed check only shows an error; submit is enabled only when both
   * checks pass.
   */
  lemma FileSelectionOrder(p: Page, file: Option<File>)
    ensures file.None? ==> FileSelected(p, file) == p
    ensures file.Some? && !IsAudioFile(file.value) ==> FileSelected(p, file) == p.(lastError := Some(TypeError))
    ensures file.Some? && IsAudioFile(file.value) && !IsValidFileSize(file.value) ==>
              FileSelected(p, file) == p.(lastError := Some(SizeError))
    ensures var q := FileSelected(p, file);
            q.disabled.submit != p.disabled.submit ==> file.Some? && PassesChecks(file.value) && !q.disabled.submit
    ensures file.Some? && PassesChecks(file.value) ==>
              var q := FileSelected(p, file);
              !q.disabled.submit && q.shown.fileInfo && q.shownName == file.value.name && !q.shown.recorded
  {
  }

  /**
   * A file that fails the checks still lands in the file input; when submit
   * was enabled by an earlier choice, the guard lets that file through.
   */
  lemma RejectedFileStaysSelected(p: Page, f: File)
    requires !PassesChecks(f)
    ensures var q := FilesChosen(p, [f]);
            q.selected == [f] && q.disabled == p.disabled && SubmitChoice(q) == SendSelected(f)
  {
  }

  /** The page's state, as the handlers of the script keep it. */
  class LegacyUploadPage {
    var selected: seq<File>
    var recordedBlob: Option<Blob>
    var recordedChunks: seq<Blob>
    var recorder: Recorder
    var timers: Timers
    var disabled: Disabled
    var shown: Shown
    var shownName: string
    var lastError: Option<string>

    function State(): Page
      reads this
    {
      Page(selected, recordedBlob, recordedChunks, recorder, timers, disabled, shown, shownName, lastError)
    }

    /**
     * The page as served: nothing selected, nothing recorded, no recorder and
     * no timers, record enabled, stop and submit disabled, every section
     * hidden, so a submit is blocked.
     */
    constructor()
      ensures State() == Page([], None, [], NoRecorder, Timers(false, false), Disabled(false, true, true),
                              Shown(false, false, false, false, false), "", None)
      ensures SubmitChoice(State()) == Blocked
    {
      selected, recordedBlob, recordedChunks := [], None, [];
      recorder, timers := NoRecorder, Timers(false, false);
      disabled := Disabled(false, true, true);
      shown := Shown(false, false, false, false, false);
      shownName, lastError := "", None;
    }

    method StopRecording()
      modifies this
      ensures State() == Stopped(old(State()))
    {
      if recorder == Recording {
        recorder := Inactive;
      }
      timers := Timers(false, false);
      disabled := disabled.(record := false, stop := true);
      shown := shown.(countdown := false, status := false);
    }

    method OnRecorderStop()
      modifies this
      ensures State() == RecordingStopped(old(State()))
    {
      recordedBlob := Some(Blob(TotalSize(recordedChunks), RecordedType));
      shown := shown.(recorded := true);
      disabled := disabled.(record := false, stop := true);
      shown := shown.(status := false);
    }

    method OnDataAvailable(part: Blob)
      modifies this
      ensures State() == DataReceived(old(State()), part)
    {
      if part.size > 0 {
        recordedChunks := recordedChunks + [part];
      }
    }

    method UseRecording()
      modifies this
      ensures State() == RecordingUsed(old(State()))
    {
      if recordedBlob.Some? {
        var file := File(RecordedName, RecordedType, recordedBlob.value.size);
        selected := [file];
        shownName := RecordedName;
        shown := shown.(fileInfo := true);
        disabled := disabled.(submit := false);
        shown := shown.(recorded := false);
      }
    }

    method ResetRecording()
      modifies this
      ensures State() == RecordingReset(old(State()))
    {
      shown := shown.(recorded := false);
      recordedBlob := None;
      recordedChunks := [];
      selected := [];
      shown := shown.(fileInfo := false);
      disabled := disabled.(submit := true);
    }

    method HandleFileSelect(file: Option<File>)
      modifies this
      ensures State() == FileSelected(old(State()), file)
    {
      if file.None? {
        return;
      }
      if !IsAudioFile(file.value) {
        lastError := Some(TypeError);
        return;
      }
      if !IsValidFileSize(file.value) {
        lastError := Some(SizeError);
        return;
      }
      shownName := file.value.name;
      shown := shown.(fileInfo := true);
      disabled := disabled.(submit := false);
      shown := shown.(recorded := false);
    }

    method OnFilesChosen(files: seq<File>)
      modifies this
      ensures State() == FilesChosen(old(State()), files)
    {
      selected := files;
      HandleFileSelect(if |files| > 0 then Some(files[0]) else None);
    }

    method OnFilesDropped(files: seq<File>)
      modifies this
      ensures State() == FilesDropped(old(State()), files)
    {
      if |files| > 0 {
        selected := files;
        HandleFileSelect(Some(files[0]));
      }
    }

    /** The submit handler: returns what the form sends. */
    method OnSubmit() returns (sent: Submission)
      modifies this
      ensures sent == SubmitChoice(old(State()))
      ensures State() == Submitted(old(State()))
    {
      if |selected| == 0 {
        lastError := Some(NothingToSend);
        return Blocked;
      }
      disabled := disabled.(submit := true);
      shown := shown.(loading := true);
      sent := SendSelected(selected[0]);
    }
  }
}
