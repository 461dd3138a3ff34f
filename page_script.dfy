/**
 * The upload page's script (the version that submits through a request of
 * its own): file selection, recording hand-over, reset, and the choice of
 * what a submit sends. The page's state is the class `UploadPage`; `Page`
 * is a snapshot of it, and the functions on `Page` specify the handlers.
 * Rendering, timers, the recorder itself and the network are not modelled.
 */
module PageScript {
  import opened Optional
  import opened Strings
  import opened UploadNames
  import opened Validation

  const TypeError := "Please select a valid audio file (WAV, MP3, M4A, FLAC, OGG, WebM)"
  const SizeError := "File size must be less than 10MB"
  const NothingToSend := "Please record audio or select a file first!"

  /** The names a recording is sent under. */
  const RecordedWav := "recorded-audio.wav"
  const RecordedWebm := "recorded-audio.webm"
  /** The blob type used when the recorder reports none. */
  const FallbackRecordingType := "audio/wav"

  /** Which parts of the page are displayed. */
  datatype Shown = Shown(
    countdown: bool,
    status: bool,       // the recording status and timer
    recorded: bool,     // the recorded-audio section
    ready: bool,        // "Ready to analyze" in place of the Use/Retry buttons
    fileInfo: bool,
    loading: bool)

  /** A snapshot of the page state the handlers read and write. */
  datatype Page = Page(
    selected: seq<File>,             // the file input's file list
    recordedBlob: Option<Blob>,      // the last finished recording
    recordedChunks: seq<Blob>,       // data received from the recorder so far
    storedBlob: Option<Blob>,        // the recording chosen for submission
    storedFilename: Option<string>,  // the name it is to be sent under
    disabled: Disabled,
    shown: Shown,
    shownName: string,
    lastError: Option<string>)

  /** `resetUI`: back to the initial state, with nothing to send. */
  function Reset(p: Page): Page
  {
    p.(selected := [], recordedBlob := None, recordedChunks := [], storedBlob := None, storedFilename := None,
       disabled := Disabled(false, true, true),
       shown := p.shown.(countdown := false, status := false, recorded := false, ready := false, fileInfo := false))
  }

  /** The name a recording is sent under, chosen from its type. */
  function RecordedFilename(mime: string): (name: string)
    ensures name == RecordedWebm <==> Contains(mime, "webm")
    ensures name == RecordedWav <==> !Contains(mime, "webm")
  {
    if Contains(mime, "webm") then RecordedWebm else RecordedWav
  }

  /** `useRecording`: the finished recording becomes the thing to send; without one nothing happens. */
  function RecordingUsed(p: Page): Page
  {
    if p.recordedBlob.None? then p
    else
      p.(storedBlob := p.recordedBlob, storedFilename := Some(RecordedFilename(p.recordedBlob.value.mime)),
         selected := [], disabled := p.disabled.(submit := false), shown := p.shown.(fileInfo := false, ready := true))
  }

  /** `handleFileSelect`: nothing for no file; the type check, then the size check; success shows the file. */
  function FileSelected(p: Page, file: Option<File>): Page
  {
    if file.None? then p
    else if !IsAudioFile(file.value) then p.(lastError := Some(TypeError))
    else if !IsValidFileSize(file.value) then p.(lastError := Some(SizeError))
    else
      p.(shownName := file.value.name, disabled := p.disabled.(submit := false),
         shown := p.shown.(fileInfo := true, recorded := false, ready := false))
  }

  /** The file input's change event: the input holds `files`, and the first one (if any) is checked. */
  function FilesChosen(p: Page, files: seq<File>): Page
  {
    FileSelected(p.(selected := files), if |files| > 0 then Some(files[0]) else None)
  }

  /** A drop: a non-empty list replaces the input's files and its first file is checked. */
  function FilesDropped(p: Page, files: seq<File>): Page
  {
    if |files| == 0 then p else FileSelected(p.(selected := files), Some(files[0]))
  }

  /** The recorder delivered data; empty pieces are ignored. */
  function DataReceived(p: Page, part: Blob): Page
  {
    if part.size > 0 then p.(recordedChunks := p.recordedChunks + [part]) else p
  }

  /** The recorder stopped: the chunks become one blob typed as the recorder reports, or as WAV. */
  function RecordingStopped(p: Page, recorderType: string): Page
  {
    var mime := if recorderType == "" then FallbackRecordingType else recorderType;
    p.(recordedBlob := Some(Blob(TotalSize(p.recordedChunks), mime)),
       shown := p.shown.(status := false, recorded := true), disabled := p.disabled.(record := false, stop := true))
  }

  /** The file name a stored recording is sent under (a missing name becomes the text "null"). */
  function StoredName(p: Page): string
  {
    if p.storedFilename.Some? then p.storedFilename.value else "null"
  }

  /** What a submit sends: the stored recording if there is one, else the input's first file. */
  function SubmitChoice(p: Page): Submission
  {
    if |p.selected| == 0 && p.storedBlob.None? then Blocked
    else if p.storedBlob.Some? then SendRecorded(File(StoredName(p), p.storedBlob.value.mime, p.storedBlob.value.size))
    else SendSelected(p.selected[0])
  }

  /** The page after a submit: an error when nothing can be sent, else the loading state. */
  function Submitted(p: Page): Page
  {
    if SubmitChoice(p).Blocked? then p.(lastError := Some(NothingToSend))
    else p.(disabled := p.disabled.(submit := true), shown := p.shown.(loading := true))
  }

  /** A stored recording always has one of the two recorded names. */
  predicate Consistent(p: Page)
  {
    (p.storedBlob.Some? <==> p.storedFilename.Some?) &&
    (p.storedFilename.Some? ==> p.storedFilename.value == RecordedWav || p.storedFilename.value == RecordedWebm)
  }

  /**
   * Reset clears every recording and the selection, enables recording,
   * disables stop and submit, leaves nothing to send, and is idempotent.
   */
  lemma ResetClears(p: Page)
    ensures var r := Reset(p);
            r.recordedBlob.None? && r.recordedChunks == [] && r.storedBlob.None? && r.storedFilename.None? &&
            r.disabled == Disabled(false, true, true) &&
            SubmitChoice(r) == Blocked && Consistent(r) && Reset(r) == r
  {
  }

  /**
   * File selection: no file changes nothing; the type check comes first, so
   * a file failing both checks reports the type; a failed check only shows
   * an error; a file passing both enables submit and hides the recording.
   */
  lemma FileSelectionOrder(p: Page, file: Option<File>)
    ensures file.None? ==> FileSelected(p, file) == p
    ensures file.Some? && !IsAudioFile(file.value) ==> FileSelected(p, file) == p.(lastError := Some(TypeError))
    ensures file.Some? && IsAudioFile(file.value) && !IsValidFileSize(file.value) ==>
              FileSelected(p, file) == p.(lastError := Some(SizeError))
    ensures var q := FileSelected(p, file);
            q.disabled.submit != p.disabled.submit ==> file.Some? && PassesChecks(file.value) && !q.disabled.submit
    ensures file.Some? && PassesChecks(file.value) ==>
              var q := FileSelected(p, file);
              !q.disabled.submit && q.shown.fileInfo && q.shownName == file.value.name && !q.shown.recorded &&
              q.selected == p.selected && q.storedBlob == p.storedBlob
  {
  }

  /**
   * Using a recording stores it under "recorded-audio.webm" exactly when its
   * type mentions webm (else "recorded-audio.wav"), clears the selection and
   * makes the recording what a submit sends. Without a recording nothing changes.
   */
  lemma RecordingHandOver(p: Page)
    ensures p.recordedBlob.None? ==> RecordingUsed(p) == p
    ensures p.recordedBlob.Some? ==>
              var q := RecordingUsed(p);
              var b := p.recordedBlob.value;
              q.selected == [] && !q.disabled.submit &&
              (q.storedFilename == Some(RecordedWebm) <==> Contains(b.mime, "webm")) &&
              SubmitChoice(q) == SendRecorded(File(RecordedFilename(b.mime), b.mime, b.size))
  {
  }

  /**
   * A submit sends nothing exactly when there is neither a selected file nor
   * a stored recording; a stored recording is sent whenever there is one,
   * whatever the file input holds.
   */
  lemma SubmitSource(p: Page)
    ensures SubmitChoice(p) == Blocked <==> |p.selected| == 0 && p.storedBlob.None?
    ensures p.storedBlob.Some? ==> SubmitChoice(p).SendRecorded? && SubmitChoice(p).recorded.mime == p.storedBlob.value.mime
    ensures p.storedBlob.None? && |p.selected| > 0 ==> SubmitChoice(p) == SendSelected(p.selected[0])
    ensures Submitted(p).lastError == Some(NothingToSend) <==>
              SubmitChoice(p) == Blocked || p.lastError == Some(NothingToSend)
  {
  }

  /**
   * A file that fails the checks still lands in the file input, and the
   * submit button keeps its state; with no recording stored, a submit sends
   * that file.
   */
  lemma RejectedFileStaysSelected(p: Page, f: File)
    requires !PassesChecks(f) && p.storedBlob.None?
    ensures var q := FilesChosen(p, [f]);
            q.selected == [f] && q.disabled == p.disabled && SubmitChoice(q) == SendSelected(f)
  {
  }

  /**
   * Choosing a valid file after using a recording shows that file's name but
   * leaves the recording stored, so the submit still sends the recording.
   */
  lemma SelectionDoesNotReplaceRecording(p: Page, f: File)
    requires p.recordedBlob.Some? && PassesChecks(f)
    ensures var q := FilesChosen(RecordingUsed(p), [f]);
            var b := p.recordedBlob.value;
            q.shown.fileInfo && q.shownName == f.name && q.selected == [f] &&
            SubmitChoice(q) == SendRecorded(File(RecordedFilename(b.mime), b.mime, b.size))
  {
  }

  /** Every handler keeps a stored recording paired with one of the two recorded names. */
  lemma ConsistentPreserved(p: Page, file: Option<File>, files: seq<File>, part: Blob, recorderType: string)
    requires Consistent(p)
    ensures Consistent(Reset(p)) && Consistent(RecordingUsed(p)) && Consistent(FileSelected(p, file))
    ensures Consistent(FilesChosen(p, files)) && Consistent(FilesDropped(p, files))
    ensures Consistent(DataReceived(p, part)) && Consistent(RecordingStopped(p, recorderType)) && Consistent(Submitted(p))
  {
    SelectionKeepsConsistent(p, file, files);
  }

  /** The selection handlers never touch the stored recording or its name. */
  lemma SelectionKeepsConsistent(p: Page, file: Option<File>, files: seq<File>)
    ensures FileSelected(p, file).storedBlob == p.storedBlob && FileSelected(p, file).storedFilename == p.storedFilename
    ensures FilesChosen(p, files).storedBlob == p.storedBlob && FilesChosen(p, files).storedFilename == p.storedFilename
    ensures FilesDropped(p, files).storedBlob == p.storedBlob && FilesDropped(p, files).storedFilename == p.storedFilename
  {
  }

  /**
   * On a consistent page a recording is sent under a name the server accepts
   * and that the page's own type check accepts; the server decodes it with
   * the webm hint exactly when the blob's type mentions webm.
   */
  lemma RecordedSubmissionAccepted(p: Page, id: string)
    requires Consistent(p) && SubmitChoice(p).SendRecorded?
    ensures var f := SubmitChoice(p).recorded;
            AllowedFile(f.name) && HasAudioExtension(f.name) &&
            (DecodeFormat(SavedName(id, f.name)) == WebmHint <==> f.name == RecordedWebm) &&
            (NeedsConversion(SavedName(id, f.name)) <==> f.name == RecordedWebm)
  {
    var name := SubmitChoice(p).recorded.name;
    RecordedNames();
    SavedNameEndsWith(id, name, ".wav");
    SavedNameEndsWith(id, name, ".webm");
  }

  /** Both recorded names pass both checks; each ends in its own extension only. */
  lemma RecordedNames()
    ensures AllowedFile(RecordedWav) && HasAudioExtension(RecordedWav)
    ensures AllowedFile(RecordedWebm) && HasAudioExtension(RecordedWebm)
    ensures EndsWith(RecordedWav, ".wav") && !EndsWith(RecordedWav, ".webm")
    ensures EndsWith(RecordedWebm, ".webm") && !EndsWith(RecordedWebm, ".wav")
  {
    assert RecordedWav == "recorded-audio" + "." + "wav";
    assert RecordedWebm == "recorded-audio" + "." + "webm";
    AudioNameAccepted("recorded-audio", "wav");
    AudioNameAccepted("recorded-audio", "webm");
    assert RecordedWav[|RecordedWav| - 4..] == ".wav";
    assert RecordedWav[|RecordedWav| - 5] == 'o';
    assert RecordedWebm[|RecordedWebm| - 5..] == ".webm";
    assert RecordedWebm[|RecordedWebm| - 4] == 'w';
  }

  /** The page's state, as the handlers of the script keep it. */
  class UploadPage {
    var selected: seq<File>
    var recordedBlob: Option<Blob>
    var recordedChunks: seq<Blob>
    var storedBlob: Option<Blob>
    var storedFilename: Option<string>
    var disabled: Disabled
    var shown: Shown
    var shownName: string
    var lastError: Option<string>

    function State(): Page
      reads this
    {
      Page(selected, recordedBlob, recordedChunks, storedBlob, storedFilename, disabled, shown, shownName, lastError)
    }

    /** The page as loaded: the script resets it first. */
    constructor()
      ensures State() == Reset(State()) && Consistent(State())
    {
      selected, recordedBlob, recordedChunks, storedBlob, storedFilename := [], None, [], None, None;
      disabled := Disabled(false, true, true);
      shown := Shown(false, false, false, false, false, false);
      shownName, lastError := "", None;
    }

    method ResetUI()
      modifies this
      ensures State() == Reset(old(State()))
    {
      shown := shown.(countdown := false, status := false, recorded := false, fileInfo := false);
      disabled := Disabled(false, true, true);
      selected := [];
      recordedBlob, recordedChunks := None, [];
      storedBlob, storedFilename := None, None;
      shown := shown.(ready := false);
    }

    method UseRecording()
      modifies this
      ensures State() == RecordingUsed(old(State()))
    {
      if recordedBlob.Some? {
        storedBlob := recordedBlob;
        var filename := if Contains(recordedBlob.value.mime, "webm") then RecordedWebm else RecordedWav;
        storedFilename := Some(filename);
        selected := [];
        disabled := disabled.(submit := false);
        shown := shown.(fileInfo := false, ready := true);
      }
    }

    method HandleFileSelect(file: Option<File>)
      modifies this
      ensures State() == FileSelected(old(State()), file)
    {
      if file.None? {
        return;
      }
      if !IsAudioFile(file.value) {
        lastError := Some(TypeError);
        return;
      }
      if !IsValidFileSize(file.value) {
        lastError := Some(SizeError);
        return;
      }
      shownName := file.value.name;
      shown := shown.(fileInfo := true);
      disabled := disabled.(submit := false);
      shown := shown.(recorded := false, ready := false);
    }

    method OnFilesChosen(files: seq<File>)
      modifies this
      ensures State() == FilesChosen(old(State()), files)
    {
      selected := files;
      HandleFileSelect(if |files| > 0 then Some(files[0]) else None);
    }

    method OnFilesDropped(files: seq<File>)
      modifies this
      ensures State() == FilesDropped(old(State()), files)
    {
      if |files| > 0 {
        selected := files;
        HandleFileSelect(Some(files[0]));
      }
    }

    method OnDataAvailable(part: Blob)
      modifies this
      ensures State() == DataReceived(old(State()), part)
    {
      if part.size > 0 {
        recordedChunks := recordedChunks + [part];
      }
    }

    method OnRecorderStop(recorderType: string)
      modifies this
      ensures State() == RecordingStopped(old(State()), recorderType)
    {
      var mime := if recorderType == "" then FallbackRecordingType else recorderType;
      recordedBlob := Some(Blob(TotalSize(recordedChunks), mime));
      shown := shown.(status := false, recorded := true);
      disabled := disabled.(record := false, stop := true);
    }

    /** The submit handler: returns what it sends. */
    method OnSubmit() returns (sent: Submission)
      modifies this
      ensures sent == SubmitChoice(old(State()))
      ensures State() == Submitted(old(State()))
    {
      if |selected| == 0 && storedBlob.None? {
        lastError := Some(NothingToSend);
        return Blocked;
      }
      disabled := disabled.(submit := true);
      shown := shown.(loading := true);
      if storedBlob.Some? {
        var name := if storedFilename.Some? then storedFilename.value else "null";
        sent := SendRecorded(File(name, storedBlob.value.mime, storedBlob.value.size));
      } else {
        sent := SendSelected(selected[0]);
      }
    }
  }
}
