/**
 * The dataset preparation script: a long recording is made mono, normalised,
 * trimmed to its non-silent parts, resampled to 16 kHz, and cut into
 * fixed-length chunks written as "<label>_<k>.wav" into the label's
 * directory.
 *
 * Audio is measured the way the audio library measures it: a segment holds
 * one value per millisecond, and slicing takes milliseconds. Channel mixing,
 * normalisation and silence detection are oracles (`Effects`).
 */
module Slicer {
  import opened Strings
  import opened Verdict

  /** A decoded recording: one value per millisecond, and its frame rate. */
  datatype Segment = Segment(ms: seq<real>, frameRate: nat)

  /** A millisecond range [start, end) reported as non-silent. */
  datatype Range = Range(start: nat, end: nat)

  /** The audio library's effects, as oracles. */
  datatype Effects = Effects(
    mono: Segment -> Segment,         // mixing down to one channel
    normalize: Segment -> Segment,    // peak normalisation
    nonsilent: Segment -> seq<Range>) // silence detection (300 ms minimum silence, -40 dBFS threshold)

  /** The frame rate of the trimmed audio. */
  const TargetRate := 16000
  /** The default chunk length, in milliseconds. */
  const DefaultChunkMs := 2000
  /** The two recordings the script cuts when it runs. */
  const RealRecording := "Real Submariner Date Movement (1).m4a"
  const FakeRecording := "Fake Submariner Date Movement (1).m4a"

  /**
   * The library's millisecond slice `a[start:end]`: both bounds are clipped
   * to the length, and a range that is empty after clipping gives no audio.
   */
  function SliceMs(a: seq<real>, start: nat, end: nat): (s: seq<real>)
    ensures |s| <= |a|
    ensures start <= end <= |a| ==> s == a[start..end]
    ensures end <= start || |a| <= start ==> s == []
    ensures start <= |a| <= end ==> s == a[start..]
  {
    var lo := if start < |a| then start else |a|;
    var hi := if end < |a| then end else |a|;
    if lo < hi then a[lo..hi] else []
  }

  /** A millisecond bound clipped to a length. */
  function Clip(x: nat, n: nat): nat
  {
    if x < n then x else n
  }

  /** The non-silent parts of `a`, concatenated in the order of `ranges`. */
  function Merged(a: seq<real>, ranges: seq<Range>): seq<real>
  {
    if |ranges| == 0 then []
    else
      var last := ranges[|ranges| - 1];
      Merged(a, ranges[..|ranges| - 1]) + SliceMs(a, last.start, last.end)
  }

  /** Specification of `PreprocessAudio`. */
  function Preprocessed(fx: Effects, audio: Segment): Segment
  {
    var a := fx.normalize(fx.mono(audio));
    var ranges := fx.nonsilent(a);
    if |ranges| == 0 then a else Segment(Merged(a.ms, ranges), TargetRate)
  }

  /** Mono, normalise, keep the non-silent parts, resample; a recording with no non-silent part is returned unresampled. */
  method PreprocessAudio(fx: Effects, audio: Segment) returns (out: Segment)
    ensures out == Preprocessed(fx, audio)
  {
    var a := fx.normalize(fx.mono(audio));
    var ranges := fx.nonsilent(a);
    if |ranges| == 0 {
      return a;
    }
    var trimmed: seq<real> := [];
    var i := 0;
    while i < |ranges|
      invariant 0 <= i <= |ranges|
      invariant trimmed == Merged(a.ms, ranges[..i])
    {
      assert ranges[..i + 1][..i] == ranges[..i];
      trimmed := trimmed + SliceMs(a.ms, ranges[i].start, ranges[i].end);
      i := i + 1;
    }
    assert ranges[..i] == ranges;
    return Segment(trimmed, TargetRate);
  }

  /** Every range lies inside the recording. */
  predicate InBounds(ranges: seq<Range>, n: nat)
  {
    forall i :: 0 <= i < |ranges| ==> ranges[i].start <= ranges[i].end <= n
  }

  /** Total length of the ranges, in milliseconds. */
  function RangeTotal(ranges: seq<Range>): nat
  {
    if |ranges| == 0 then 0
    else
      var last := ranges[|ranges| - 1];
      RangeTotal(ranges[..|ranges| - 1]) + (if last.start <= last.end then last.end - last.start else 0)
  }

  /** With ranges inside the recording, the trimmed audio is exactly as long as the ranges together. */
  lemma {:induction false} MergedLength(a: seq<real>, ranges: seq<Range>)
    requires InBounds(ranges, |a|)
    ensures |Merged(a, ranges)| == RangeTotal(ranges)
  {
    if |ranges| > 0 {
      MergedLength(a, ranges[..|ranges| - 1]);
    }
  }

  /** Length of one range once both of its bounds are clipped to `n`. */
  function ClippedLength(r: Range, n: nat): nat
  {
    if Clip(r.start, n) < Clip(r.end, n) then Clip(r.end, n) - Clip(r.start, n) else 0
  }

  /** Total length of the ranges once each is clipped to `n`. */
  function ClippedTotal(ranges: seq<Range>, n: nat): nat
  {
    if |ranges| == 0 then 0
    else ClippedTotal(ranges[..|ranges| - 1], n) + ClippedLength(ranges[|ranges| - 1], n)
  }

  /**
   * For any ranges whatever, the trimmed audio is as long as the ranges
   * together once each one is clipped to the recording.
   */
  lemma {:induction false} MergedLengthClipped(a: seq<real>, ranges: seq<Range>)
    ensures |Merged(a, ranges)| == ClippedTotal(ranges, |a|)
  {
    if |ranges| > 0 {
      MergedLengthClipped(a, ranges[..|ranges| - 1]);
    }
  }

  /** Every value of the trimmed audio is a value of the recording. */
  lemma {:induction false} MergedFromRecording(a: seq<real>, ranges: seq<Range>)
    ensures forall i :: 0 <= i < |Merged(a, ranges)| ==> Merged(a, ranges)[i] in a
  {
    if |ranges| > 0 {
      var init := Merged(a, ranges[..|ranges| - 1]);
      var last := ranges[|ranges| - 1];
      var part := SliceMs(a, last.start, last.end);
      MergedFromRecording(a, ranges[..|ranges| - 1]);
      forall i | 0 <= i < |init + part| ensures (init + part)[i] in a {
        if i >= |init| {
          var lo := if last.start < |a| then last.start else |a|;
          assert part[i - |init|] == a[lo + i - |init|];
        }
      }
    }
  }

  /** The ranges tile [lo, hi): each one starts where the previous one ended. */
  predicate Tiles(ranges: seq<Range>, lo: nat, hi: nat)
  {
    if |ranges| == 0 then lo == hi
    else
      var last := ranges[|ranges| - 1];
      last.end == hi && lo <= last.start <= hi && Tiles(ranges[..|ranges| - 1], lo, last.start)
  }

  /** Ranges that tile a stretch of the recording keep that stretch unchanged. */
  lemma {:induction false} MergedTiles(a: seq<real>, ranges: seq<Range>, lo: nat, hi: nat)
    requires hi <= |a| && Tiles(ranges, lo, hi)
    ensures Merged(a, ranges) == a[lo..hi]
  {
    if |ranges| > 0 {
      var last := ranges[|ranges| - 1];
      MergedTiles(a, ranges[..|ranges| - 1], lo, last.start);
      assert a[lo..last.start] + a[last.start..hi] == a[lo..hi];
    }
  }

  /** Preprocessing keeps only recorded values, and resamples to 16 kHz whenever something is non-silent. */
  lemma PreprocessedShape(fx: Effects, audio: Segment)
    ensures var a := fx.normalize(fx.mono(audio));
            var out := Preprocessed(fx, audio);
            (|fx.nonsilent(a)| == 0 ==> out == a) &&
            (|fx.nonsilent(a)| > 0 ==>
               out.frameRate == TargetRate && forall i :: 0 <= i < |out.ms| ==> out.ms[i] in a.ms)
  {
    var a := fx.normalize(fx.mono(audio));
    MergedFromRecording(a.ms, fx.nonsilent(a));
  }

  /** How many chunks the loop writes: the number of multiples of `c` below `n`. */
  function ChunkCount(n: nat, c: nat): nat
    requires c > 0
  {
    (n + c - 1) / c
  }

  /** The loop's k-th start offset: k chunk lengths laid end to end. */
  function Offset(k: nat, c: nat): nat
  {
    if k == 0 then 0 else Offset(k - 1, c) + c
  }

  /** The k-th offset is k*c. */
  lemma {:induction false} OffsetIsProduct(k: nat, c: nat)
    ensures Offset(k, c) == k * c
  {
    if k > 0 {
      OffsetIsProduct(k - 1, c);
      assert k * c == (k - 1) * c + c;
    }
  }

  /** The loop's k-th start offset is below the length exactly for the first ChunkCount offsets. */
  lemma ChunkCountIsLoopCount(n: nat, c: nat, k: nat)
    requires c > 0
    ensures Offset(k, c) < n <==> k < ChunkCount(n, c)
  {
    OffsetIsProduct(k, c);
    var q := ChunkCount(n, c);
    var r := (n + c - 1) % c;
    assert n + c - 1 == q * c + r;
    if k < q {
      MulMonotone(k, q - 1, c);
      assert (q - 1) * c == q * c - c;
    } else {
      MulMonotone(q, k, c);
    }
  }

  lemma MulMonotone(x: nat, y: nat, c: nat)
    requires x <= y
    ensures x * c <= y * c
  {
    assert y * c == x * c + (y - x) * c;
  }

  /** The k-th chunk: milliseconds [k*c, k*c + c), clipped to the recording. */
  function Chunk(a: seq<real>, c: nat, k: nat): seq<real>
  {
    SliceMs(a, Offset(k, c), Offset(k, c) + c)
  }

  /** Every chunk the loop writes is non-empty and at most `c` long; all but the tail are exactly `c` long. */
  lemma ChunkSize(a: seq<real>, c: nat, k: nat)
    requires c > 0 && k < ChunkCount(|a|, c)
    ensures 0 < |Chunk(a, c, k)| <= c
    ensures Offset(k + 1, c) <= |a| ==> |Chunk(a, c, k)| == c
  {
    ChunkCountIsLoopCount(|a|, c, k);
  }

  /** The first `n` chunks, in order. */
  function Chunks(a: seq<real>, c: nat, n: nat): (cs: seq<seq<real>>)
    ensures |cs| == n
  {
    if n == 0 then [] else Chunks(a, c, n - 1) + [Chunk(a, c, n - 1)]
  }

  /** The first `n` chunks laid end to end are the first n*c milliseconds, or all of them when the recording is shorter. */
  lemma {:induction false} ChunksPrefix(a: seq<real>, c: nat, n: nat)
    ensures Concat(Chunks(a, c, n)) == a[..Clip(Offset(n, c), |a|)]
  {
    if n > 0 {
      ChunksPrefix(a, c, n - 1);
      ChunksLast(a, c, n);
      ChunkExtendsPrefix(a, c, n - 1);
    }
  }

  /** Laying out n chunks is laying out the first n - 1, then chunk n - 1. */
  lemma ChunksLast(a: seq<real>, c: nat, n: nat)
    requires n > 0
    ensures Concat(Chunks(a, c, n)) == Concat(Chunks(a, c, n - 1)) + Chunk(a, c, n - 1)
  {
    var cs := Chunks(a, c, n);
    assert cs[..n - 1] == Chunks(a, c, n - 1) && cs[n - 1] == Chunk(a, c, n - 1);
  }

  /** Chunk k continues the recording exactly where the k-th offset, clipped, left off. */
  lemma ChunkExtendsPrefix(a: seq<real>, c: nat, k: nat)
    ensures a[..Clip(Offset(k, c), |a|)] + Chunk(a, c, k) == a[..Clip(Offset(k + 1, c), |a|)]
  {
    var m := Offset(k, c);
    assert Offset(k + 1, c) == m + c;
    var lo, hi := Clip(m, |a|), Clip(m + c, |a|);
    assert Chunk(a, c, k) == a[lo..hi];
    assert a[..lo] + a[lo..hi] == a[..hi];
  }

  /** Cutting loses and duplicates nothing: the chunks laid end to end are the whole recording. */
  lemma ChunksRebuild(a: seq<real>, c: nat)
    requires c > 0
    ensures Concat(Chunks(a, c, ChunkCount(|a|, c))) == a
  {
    var n := ChunkCount(|a|, c);
    ChunkCountIsLoopCount(|a|, c, n);
    ChunksPrefix(a, c, n);
  }

  /** The file name of the k-th chunk of a label. */
  function ChunkName(category: string, k: nat): (name: string)
    ensures EndsWith(name, ".wav")
  {
    var name := category + "_" + NatToString(k) + ".wav";
    assert name[|name| - 4..] == ".wav";
    name
  }

  /** Different chunk indices give different file names. */
  lemma ChunkNameInjective(category: string, j: nat, k: nat)
    requires ChunkName(category, j) == ChunkName(category, k)
    ensures j == k
  {
    var a, b := ChunkName(category, j), ChunkName(category, k);
    var dj, dk := NatToString(j), NatToString(k);
    assert |dj| == |dk|;
    assert a[|category| + 1..|a| - 4] == dj;
    assert b[|category| + 1..|b| - 4] == dk;
    NatToStringInjective(j, k);
  }

  /** The files written for the first `n` chunks: (directory, name) to content. */
  function ChunkFiles(category: string, audio: Segment, c: nat, n: nat): map<(string, string), Segment>
  {
    if n == 0 then map[]
    else
      ChunkFiles(category, audio, c, n - 1)[(category, ChunkName(category, n - 1)) :=
        Segment(Chunk(audio.ms, c, n - 1), audio.frameRate)]
  }

  /** Chunk k is written to "<label>_<k>.wav" in the label's directory, with the recording's frame rate. */
  lemma {:induction false} ChunkFilesAt(category: string, audio: Segment, c: nat, n: nat, k: nat)
    requires k < n
    ensures (category, ChunkName(category, k)) in ChunkFiles(category, audio, c, n)
    ensures ChunkFiles(category, audio, c, n)[(category, ChunkName(category, k))] ==
            Segment(Chunk(audio.ms, c, k), audio.frameRate)
  {
    if k < n - 1 {
      ChunkFilesAt(category, audio, c, n - 1, k);
      if ChunkName(category, k) == ChunkName(category, n - 1) {
        ChunkNameInjective(category, k, n - 1);
      }
    }
  }

  /** Nothing else is written: every file lies in the label's directory and is named after a chunk index below `n`. */
  lemma {:induction false} ChunkFilesOnly(category: string, audio: Segment, c: nat, n: nat, key: (string, string))
    requires key in ChunkFiles(category, audio, c, n)
    ensures key.0 == category
    ensures exists k :: 0 <= k < n && key.1 == ChunkName(category, k)
  {
    if key != (category, ChunkName(category, n - 1)) {
      ChunkFilesOnly(category, audio, c, n - 1, key);
      var k :| 0 <= k < n - 1 && key.1 == ChunkName(category, k);
    }
  }

  /** The loop's file index `i // c` at the k-th offset is k. */
  lemma DivOfMultiple(k: nat, c: nat)
    requires c > 0
    ensures Offset(k, c) / c == k
  {
    OffsetIsProduct(k, c);
    var q, r := (k * c) / c, (k * c) % c;
    assert k * c == q * c + r;
    if q < k {
      MulMonotone(q + 1, k, c);
    } else if q > k {
      MulMonotone(k + 1, q, c);
    }
  }

  /** Writing chunk n after the first n chunks gives the files of the first n + 1 chunks. */
  lemma ChunkFilesStep(before: map<(string, string), Segment>, category: string, audio: Segment, c: nat, n: nat)
    ensures (before + ChunkFiles(category, audio, c, n))[(category, ChunkName(category, n)) :=
              Segment(Chunk(audio.ms, c, n), audio.frameRate)] ==
            before + ChunkFiles(category, audio, c, n + 1)
  {
  }

  /** The chunk files one call of `SliceAudio` writes: none when the recording is missing. */
  function SlicedFiles(fx: Effects, inputs: map<string, Segment>, filename: string, category: string, c: nat)
    : map<(string, string), Segment>
    requires c > 0
  {
    if filename in inputs then
      var audio := Preprocessed(fx, inputs[filename]);
      ChunkFiles(category, audio, c, ChunkCount(|audio.ms|, c))
    else map[]
  }

  /**
   * The script's second call never overwrites a chunk of the first: every
   * file written under "real" is still there, unchanged, after the "fake"
   * call, and every file of the "fake" call is there too.
   */
  lemma BothRunsKept(fx: Effects, inputs: map<string, Segment>, before: map<(string, string), Segment>)
    ensures var realFiles := SlicedFiles(fx, inputs, RealRecording, RealLabel, DefaultChunkMs);
            var fakeFiles := SlicedFiles(fx, inputs, FakeRecording, FakeLabel, DefaultChunkMs);
            forall key :: key in realFiles ==> key in before + realFiles + fakeFiles && (before + realFiles + fakeFiles)[key] == realFiles[key]
    ensures var realFiles := SlicedFiles(fx, inputs, RealRecording, RealLabel, DefaultChunkMs);
            var fakeFiles := SlicedFiles(fx, inputs, FakeRecording, FakeLabel, DefaultChunkMs);
            forall key :: key in fakeFiles ==> key in before + realFiles + fakeFiles && (before + realFiles + fakeFiles)[key] == fakeFiles[key]
  {
    var realFiles := SlicedFiles(fx, inputs, RealRecording, RealLabel, DefaultChunkMs);
    var fakeFiles := SlicedFiles(fx, inputs, FakeRecording, FakeLabel, DefaultChunkMs);
    forall key | key in realFiles
      ensures key !in fakeFiles
    {
      var a := Preprocessed(fx, inputs[RealRecording]);
      ChunkFilesOnly(RealLabel, a, DefaultChunkMs, ChunkCount(|a.ms|, DefaultChunkMs), key);
      if key in fakeFiles {
        var b := Preprocessed(fx, inputs[FakeRecording]);
        ChunkFilesOnly(FakeLabel, b, DefaultChunkMs, ChunkCount(|b.ms|, DefaultChunkMs), key);
        assert false;
      }
    }
  }

  /** One turn of the cutting loop at the k-th offset writes chunk k, and moves to the next offset. */
  lemma SliceStep(before: map<(string, string), Segment>, category: string, audio: Segment, c: nat, k: nat, i: nat)
    requires c > 0 && i == Offset(k, c)
    ensures (before + ChunkFiles(category, audio, c, k))[(category, ChunkName(category, i / c)) :=
              Segment(SliceMs(audio.ms, i, i + c), audio.frameRate)] ==
            before + ChunkFiles(category, audio, c, k + 1)
    ensures i + c == Offset(k + 1, c)
  {
    DivOfMultiple(k, c);
    ChunkFilesStep(before, category, audio, c, k);
  }

  /** The recordings folder, and the label directories of the dataset with the chunk files written there. */
  class DataFolder {
    const inputs: map<string, Segment>
    var dirs: set<string>
    var outputs: map<(string, string), Segment>

    constructor(inputs: map<string, Segment>, dirs: set<string>, outputs: map<(string, string), Segment>)
      ensures this.inputs == inputs && this.dirs == dirs && this.outputs == outputs
    {
      this.inputs := inputs;
      this.dirs := dirs;
      this.outputs := outputs;
    }

    /**
     * Cuts the recording `filename` into chunks of `chunkMs` milliseconds under
     * the directory `category`. A missing recording changes nothing; files
     * already in the directory under a chunk's name are overwritten.
     */
    method SliceAudio(fx: Effects, filename: string, category: string, chunkMs: nat)
      requires chunkMs > 0
      modifies this
      ensures filename !in inputs ==> dirs == old(dirs) && outputs == old(outputs)
      ensures filename in inputs ==>
                var audio := Preprocessed(fx, inputs[filename]);
                dirs == old(dirs) + {category} &&
                outputs == old(outputs) + ChunkFiles(category, audio, chunkMs, ChunkCount(|audio.ms|, chunkMs))
    ensures dirs == old(dirs) + (if filename in inputs then {category} else {})
    ensures outputs == old(outputs) + SlicedFiles(fx, inputs, filename, category, chunkMs)
    {
      if filename !in inputs {
        assert outputs + map[] == outputs;
        return;
      }
      var audio := PreprocessAudio(fx, inputs[filename]);
      dirs := dirs + {category};
      var i := 0;
      ghost var k := 0;
      while i < |audio.ms|
        invariant i == Offset(k, chunkMs)
        invariant k <= ChunkCount(|audio.ms|, chunkMs)
        invariant outputs == old(outputs) + ChunkFiles(category, audio, chunkMs, k)
        invariant dirs == old(dirs) + {category}
        decreases |audio.ms| - i
      {
        ChunkCountIsLoopCount(|audio.ms|, chunkMs, k);
        DivOfMultiple(k, chunkMs);
        SliceStep(old(outputs), category, audio, chunkMs, k, i);
        var chunk := Segment(SliceMs(audio.ms, i, i + chunkMs), audio.frameRate);
        outputs := outputs[(category, ChunkName(category, i / chunkMs)) := chunk];
        i := i + chunkMs;
        k := k + 1;
      }
      ChunkCountIsLoopCount(|audio.ms|, chunkMs, k);
    }

    /**
     * The script's two calls, in order: the real recording into "real", then
     * the fake one into "fake", both with the default chunk length.
     */
    method SliceBoth(fx: Effects)
      modifies this
      ensures dirs == old(dirs) + (if RealRecording in inputs then {RealLabel} else {})
                                + (if FakeRecording in inputs then {FakeLabel} else {})
      ensures outputs == old(outputs) + SlicedFiles(fx, inputs, RealRecording, RealLabel, DefaultChunkMs)
                                      + SlicedFiles(fx, inputs, FakeRecording, FakeLabel, DefaultChunkMs)
    {
      SliceAudio(fx, RealRecording, RealLabel, DefaultChunkMs);
      SliceAudio(fx, FakeRecording, FakeLabel, DefaultChunkMs);
    }
  }
}
