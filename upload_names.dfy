/**
 * The string rules of the server's upload handling: which file names are
 * accepted, how the saved upload and the intermediate WAV file are named,
 * and which names are converted and with which decoder hint.
 */
module UploadNames {
  import opened Strings

  /** The extensions the server accepts, compared after lower-casing. */
  const AllowedExtensions: set<string> := {"wav", "mp3", "m4a", "flac", "ogg", "webm"}

  /** What the conversion appends to the name without its extension. */
  const ConvertedSuffix := "_converted.wav"

  /** The decoder's format argument: an explicit container hint, or detection from the content. */
  datatype Format = AutoDetect | WebmHint

  /** The text after a dot names an allowed format, whatever its letter case. */
  predicate IsAllowedExtension(ext: string)
  {
    Lower(ext) in AllowedExtensions
  }

  /** `i` is the position of the last dot of `name`. */
  predicate LastDotAt(name: string, i: int)
  {
    0 <= i < |name| && name[i] == '.' && '.' !in name[i + 1..]
  }

  /**
   * `filename` has a dot and the text after its last dot, lower-cased, is an
   * allowed extension. A name without a dot, or ending in one, is rejected.
   */
  function AllowedFile(filename: string): (ok: bool)
    ensures '.' !in filename ==> !ok
    ensures |filename| > 0 && filename[|filename| - 1] == '.' ==> !ok
  {
    var i := LastIndexOf(filename, '.');
    assert i == |filename| - 1 ==> filename[i + 1..] == [];
    i >= 0 && IsAllowedExtension(filename[i + 1..])
  }

  /** Both directions: accepted exactly when some last dot is followed by an allowed extension. */
  lemma AllowedFileMeaning(filename: string)
    ensures AllowedFile(filename) <==>
            exists i :: LastDotAt(filename, i) && IsAllowedExtension(filename[i + 1..])
  {
    var i := LastIndexOf(filename, '.');
    if i >= 0 {
      assert LastDotAt(filename, i);
    }
    forall j | LastDotAt(filename, j) ensures j == i { LastIndexOfUnique(filename, '.', j); }
  }

  /** A name built as stem + "." + extension is accepted whenever the extension is. */
  lemma AllowedWithExtension(stem: string, ext: string)
    requires '.' !in ext && IsAllowedExtension(ext)
    ensures AllowedFile(stem + "." + ext)
  {
    var name := stem + "." + ext;
    assert name[|stem| + 1..] == ext;
    LastIndexOfUnique(name, '.', |stem|);
  }

  /** The name the upload is saved under: a fresh identifier, an underscore, the original name. */
  function SavedName(id: string, filename: string): string
  {
    id + "_" + filename
  }

  /** The last dot of the saved name is the last dot of the client's name, shifted by the prefix. */
  lemma SavedNameLastDot(id: string, filename: string)
    requires '.' in filename
    ensures LastIndexOf(SavedName(id, filename), '.') == |id| + 1 + LastIndexOf(filename, '.')
  {
    LastIndexOfAppend(id + "_", filename, '.');
  }

  /** Acceptance is decided by the text after the last dot. */
  lemma AllowedFileAt(name: string, i: int)
    requires LastDotAt(name, i)
    ensures AllowedFile(name) == IsAllowedExtension(name[i + 1..])
  {
    LastIndexOfUnique(name, '.', i);
  }

  /**
   * Saving keeps the original extension: as soon as the client's name has a
   * dot, the saved name is accepted exactly when the client's name is.
   */
  lemma SavedNameKeepsExtension(id: string, filename: string)
    requires '.' in filename
    ensures AllowedFile(SavedName(id, filename)) == AllowedFile(filename)
  {
    var prefix := id + "_";
    var saved := prefix + filename;
    var i := LastIndexOf(filename, '.');
    var j := |prefix| + i;
    assert saved[j] == '.';
    assert saved[j + 1..] == filename[i + 1..];
    AllowedFileAt(filename, i);
    AllowedFileAt(saved, j);
  }

  /** The saved name ends as the client's name does. */
  lemma SavedNameSuffix(id: string, filename: string, k: nat)
    requires k <= |filename|
    ensures var saved := SavedName(id, filename);
            saved[|saved| - k..] == filename[|filename| - k..]
  {
  }

  /** The saved name has the same endings as the client's name. */
  lemma SavedNameEndsWith(id: string, filename: string, suffix: string)
    requires |suffix| <= |filename|
    ensures EndsWith(SavedName(id, filename), suffix) <==> EndsWith(filename, suffix)
  {
    SavedNameSuffix(id, filename, |suffix|);
  }

  /**
   * The intermediate file's name: the input with its last '.'-suffix replaced
   * by "_converted.wav", or with that suffix appended when it has no dot.
   * It always ends in the suffix and never names the input itself.
   */
  function ConvertedPath(input: string): (out: string)
    ensures EndsWith(out, ConvertedSuffix)
    ensures '.' !in input ==> out == input + ConvertedSuffix
    ensures forall i :: LastDotAt(input, i) ==> out == input[..i] + ConvertedSuffix
    ensures out != input
  {
    var i := LastIndexOf(input, '.');
    var stem := if i < 0 then input else input[..i];
    var out := stem + ConvertedSuffix;
    assert out[|out| - |ConvertedSuffix|..] == ConvertedSuffix;
    forall j | LastDotAt(input, j) ensures j == i { LastIndexOfUnique(input, '.', j); }
    assert i >= 0 ==> out[i] == '_' && input[i] == '.';
    out
  }

  /** Only names ending in a lower-case ".wav" skip the conversion step (the test is case-sensitive). */
  predicate NeedsConversion(path: string)
  {
    !EndsWith(path, ".wav")
  }

  /** The format argument handed to the decoder: only a lower-case ".webm" ending gets the hint. */
  function DecodeFormat(path: string): (f: Format)
    ensures f == WebmHint <==> EndsWith(path, ".webm")
  {
    if EndsWith(path, ".webm") then WebmHint else AutoDetect
  }

  /**
   * For an accepted name, conversion is skipped exactly when the text after
   * the last dot is "wav" as written; "X.WAV" and "X.Wav" are accepted and
   * still converted.
   */
  lemma SkipsConversionIffLowerWav(name: string)
    requires AllowedFile(name)
    ensures !NeedsConversion(name) <==> name[LastIndexOf(name, '.') + 1..] == "wav"
  {
    var i := LastIndexOf(name, '.');
    if name[i + 1..] == "wav" {
      WavAfterLastDot(name, i);
    }
    if EndsWith(name, ".wav") {
      WavEndingAtLastDot(name);
    }
  }

  /** "wav" after the last dot is a ".wav" ending. */
  lemma WavAfterLastDot(name: string, i: int)
    requires 0 <= i < |name| && name[i] == '.' && name[i + 1..] == "wav"
    ensures EndsWith(name, ".wav")
  {
    SuffixAt(name, i);
  }

  /** The dot of a ".wav" ending is the last dot. */
  lemma WavEndingAtLastDot(name: string)
    requires EndsWith(name, ".wav")
    ensures name[LastIndexOf(name, '.') + 1..] == "wav"
  {
    var n := |name|;
    SuffixAt(name, n - 4);
    LastIndexOfUnique(name, '.', n - 4);
  }

  /** The cleanup test of the feature extraction ("ends with _converted.wav") holds for every intermediate. */
  lemma ConvertedPathIsCleanedUp(input: string)
    ensures EndsWith(ConvertedPath(input), ConvertedSuffix)
    ensures !NeedsConversion(ConvertedPath(input))
  {
    var out := ConvertedPath(input);
    assert out[|out| - 4..] == ConvertedSuffix[|ConvertedSuffix| - 4..];
  }
}
