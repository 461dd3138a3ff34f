/**
 * What the two page scripts share: files, recordings and submissions as the
 * browser sees them, and the checks both apply to a chosen file before
 * enabling submission, related to the server's own extension rule.
 */
module Validation {
  import opened Strings
  import opened UploadNames

  /** A file as the browser describes it: name, MIME type, size in bytes. */
  datatype File = File(name: string, mime: string, size: nat)

  /** Recorded audio held by the page: size in bytes and MIME type. */
  datatype Blob = Blob(size: nat, mime: string)

  /** What a submit event does: nothing is sent, or one file is sent under the field "file". */
  datatype Submission = Blocked | SendRecorded(recorded: File) | SendSelected(selected: File)

  /** The `disabled` flags of the record, stop and submit buttons. */
  datatype Disabled = Disabled(record: bool, stop: bool, submit: bool)

  /** The size of the blob built from the recorder's data pieces. */
  function TotalSize(parts: seq<Blob>): nat
  {
    if |parts| == 0 then 0 else TotalSize(parts[..|parts| - 1]) + parts[|parts| - 1].size
  }

  /** The MIME types accepted without looking at the name. */
  const AudioTypes: set<string> :=
    {"audio/wav", "audio/mpeg", "audio/mp3", "audio/m4a", "audio/flac", "audio/ogg", "audio/webm"}

  /** The extensions of the name pattern; the pattern ignores letter case. */
  const AudioExtensions: set<string> := {"wav", "mp3", "m4a", "flac", "ogg", "webm"}

  /** 10 MiB. */
  const MaxUploadBytes := 10 * 1024 * 1024

  /** The name ends in "." and one of the extensions, compared case-insensitively. */
  predicate HasAudioExtension(name: string)
  {
    exists e :: e in AudioExtensions && EndsWithIgnoringCase(name, "." + e)
  }

  /**
   * Accepted when the MIME type is listed or the name has an audio extension;
   * the name branch accepts exactly the names the server accepts.
   */
  function IsAudioFile(f: File): (ok: bool)
    ensures ok <==> f.mime in AudioTypes || AllowedFile(f.name)
  {
    ExtensionRuleMatchesServer(f.name);
    f.mime in AudioTypes || HasAudioExtension(f.name)
  }

  /** Accepted up to and including 10 MiB. */
  function IsValidFileSize(f: File): (ok: bool)
    ensures ok <==> f.size <= 10485760
  {
    f.size <= MaxUploadBytes
  }

  /** Both scripts accept a file when it passes the type check and then the size check. */
  function PassesChecks(f: File): (ok: bool)
    ensures ok <==> (f.mime in AudioTypes || AllowedFile(f.name)) && f.size <= 10485760
  {
    IsAudioFile(f) && IsValidFileSize(f)
  }

  lemma LowerCharIsDot(c: char)
    requires LowerChar(c) == '.'
    ensures c == '.'
  {
  }

  /**
   * The name pattern of the page is the server's extension rule: a name ends
   * in "." plus an audio extension (ignoring case) exactly when the server
   * accepts it.
   */
  lemma ExtensionRuleMatchesServer(name: string)
    ensures HasAudioExtension(name) <==> AllowedFile(name)
  {
    if AllowedFile(name) {
      AllowedHasPattern(name);
    }
    if HasAudioExtension(name) {
      var e :| e in AudioExtensions && EndsWithIgnoringCase(name, "." + e);
      ExtensionAtEnd(name, e);
    }
  }

  /** Lower-casing leaves a leading dot in place. */
  lemma LowerDotPrefix(x: string)
    ensures Lower("." + x) == "." + Lower(x)
  {
  }

  /** A name the server accepts ends in "." and an audio extension, ignoring case. */
  lemma AllowedHasPattern(name: string)
    requires AllowedFile(name)
    ensures HasAudioExtension(name)
  {
    var i := LastIndexOf(name, '.');
    var ext := name[i + 1..];
    var e := Lower(ext);
    AudioExtensionsAreServerExtensions(e);
    assert name[i..] == "." + ext;
    LowerDotPrefix(ext);
    assert |name| - |"." + e| == i;
    assert EndsWithIgnoringCase(name, "." + e);
  }

  /** Lower-casing keeps a dot and never produces one from anything else. */
  lemma LowerDots(tail: string, e: string)
    requires Lower(tail) == "." + e && '.' !in e
    ensures tail[0] == '.' && '.' !in tail[1..]
  {
    assert LowerChar(tail[0]) == '.';
    LowerCharIsDot(tail[0]);
    forall j | 1 <= j < |tail| ensures tail[j] != '.' {
      assert LowerChar(tail[j]) == e[j - 1];
    }
  }

  /** A lower-case, dot-free suffix matched case-insensitively after a dot starts at the last dot. */
  lemma DottedSuffixAtEnd(name: string, e: string)
    requires '.' !in e && Lower("." + e) == "." + e && EndsWithIgnoringCase(name, "." + e)
    ensures LastIndexOf(name, '.') == |name| - |e| - 1
    ensures Lower(name[|name| - |e|..]) == e
  {
    var k := |name| - |e| - 1;
    var tail := name[k..];
    LowerDots(tail, e);
    assert tail[1..] == name[k + 1..];
    LastIndexOfUnique(name, '.', k);
    assert Lower(name[k + 1..]) == Lower(tail)[1..];
  }

  /** The two extension lists are the same set, and every extension is lower-case without a dot. */
  lemma AudioExtensionsAreServerExtensions(e: string)
    ensures e in AudioExtensions <==> e in AllowedExtensions
    ensures e in AudioExtensions ==> '.' !in e && Lower("." + e) == "." + e
  {
    if e in AudioExtensions {
      assert e == "wav" || e == "mp3" || e == "m4a" || e == "flac" || e == "ogg" || e == "webm";
    }
  }

  /** A matched extension is the text after the last dot. */
  lemma ExtensionAtEnd(name: string, e: string)
    requires e in AudioExtensions && EndsWithIgnoringCase(name, "." + e)
    ensures AllowedFile(name)
  {
    AudioExtensionsAreServerExtensions(e);
    DottedSuffixAtEnd(name, e);
  }

  /** stem + "." + an audio extension passes the page's name pattern and the server's rule. */
  lemma AudioNameAccepted(stem: string, ext: string)
    requires ext in AudioExtensions
    ensures AllowedFile(stem + "." + ext) && HasAudioExtension(stem + "." + ext)
  {
    AudioExtensionsAreServerExtensions(ext);
    LowerDotPrefix(ext);
    assert ("." + Lower(ext))[1..] == Lower(ext);
    AllowedWithExtension(stem, ext);
    AllowedHasPattern(stem + "." + ext);
  }

  /**
   * The type check is weaker than the server's rule: a listed MIME type lets
   * a name without an audio extension through, and the server then rejects it.
   */
  lemma MimeOnlyFileRejectedByServer()
    ensures var f := File("recording", "audio/mpeg", 1024);
            PassesChecks(f) && !AllowedFile(f.name)
  {
    var f := File("recording", "audio/mpeg", 1024);
    assert '.' !in f.name;
  }

  /** The size limit is inclusive: 10485760 bytes pass, one more byte does not. */
  lemma SizeLimitBoundary(name: string, mime: string)
    ensures IsValidFileSize(File(name, mime, 10485760))
    ensures !IsValidFileSize(File(name, mime, 10485761))
  {
  }
}
