/**
 * The dataset builder: for the "real" and then the "fake" directory, every
 * listed file whose name ends in ".wav" becomes one row — its feature vector
 * followed by the directory's label. Any file whose features cannot be
 * computed aborts the build before a table is written.
 */
module Dataset {
  import opened Optional
  import opened Strings
  import opened Features
  import opened Verdict

  /** The directories visited, in order; each one's name is also its rows' label. */
  const Labels: seq<string> := [RealLabel, FakeLabel]

  /** Path of a listed file inside a label directory. */
  function FilePath(category: string, name: string): string
  {
    category + "/" + name
  }

  /** Only names ending in a lower-case ".wav" are read. */
  predicate IsWav(name: string)
  {
    EndsWith(name, ".wav")
  }

  /**
   * The builder's own stack of six parts: the MFCC means over each
   * coefficient's frames, their standard deviations, then the scalar mean and
   * standard deviation of the ZCR and of the centroid series.
   */
  function TrainingVector(dsp: Dsp, y: seq<real>): seq<real>
  {
    Concat([seq(CoefficientCount, k requires 0 <= k < CoefficientCount => dsp.mean(dsp.mfcc(y, k))),
            seq(CoefficientCount, k requires 0 <= k < CoefficientCount => dsp.std(dsp.mfcc(y, k))),
            [dsp.mean(dsp.zcr(y))], [dsp.std(dsp.zcr(y))],
            [dsp.mean(dsp.centroid(y))], [dsp.std(dsp.centroid(y))]])
  }

  /** The builder's stack and the server's vector are the same sequence, slot for slot. */
  lemma TrainingVectorIsServingVector(dsp: Dsp, y: seq<real>)
    ensures TrainingVector(dsp, y) == Vector(dsp, y)
  {
    var means := seq(CoefficientCount, k requires 0 <= k < CoefficientCount => dsp.mean(dsp.mfcc(y, k)));
    var stds := seq(CoefficientCount, k requires 0 <= k < CoefficientCount => dsp.std(dsp.mfcc(y, k)));
    var parts := [means, stds, [dsp.mean(dsp.zcr(y))], [dsp.std(dsp.zcr(y))],
                  [dsp.mean(dsp.centroid(y))], [dsp.std(dsp.centroid(y))]];
    var zm, zs, cm, cs := dsp.mean(dsp.zcr(y)), dsp.std(dsp.zcr(y)), dsp.mean(dsp.centroid(y)), dsp.std(dsp.centroid(y));
    assert Concat(parts[..1]) == means by { assert parts[..1][..0] == []; }
    assert Concat(parts[..2]) == means + stds by { assert parts[..2][..1] == parts[..1]; }
    assert Concat(parts[..3]) == means + stds + [zm] by { assert parts[..3][..2] == parts[..2]; }
    assert Concat(parts[..4]) == means + stds + [zm, zs] by { assert parts[..4][..3] == parts[..3]; }
    assert Concat(parts[..5]) == means + stds + [zm, zs, cm] by { assert parts[..5][..4] == parts[..4]; }
    assert Concat(parts) == means + stds + [zm, zs, cm, cs] by { assert parts[..5] == parts[..|parts| - 1]; }
  }

  /**
   * The feature vector of one file, or None when loading or a descriptor
   * computation raises. Unlike the server, there is no empty-buffer check.
   */
  function FileFeatures(dsp: Dsp, path: string): (f: Option<seq<real>>)
    ensures f.Some? ==> |f.value| == VectorLength
    ensures f.Some? <==> dsp.load(path).Some? && dsp.computes(dsp.load(path).value)
  {
    match dsp.load(path)
    case None => None
    case Some(y) =>
      TrainingVectorIsServingVector(dsp, y);
      if dsp.computes(y) then Some(TrainingVector(dsp, y)) else None
  }

  /** The rows of one directory whose listing is `names`, in listing order. */
  function RowsOf(dsp: Dsp, category: string, names: seq<string>): Option<seq<seq<Cell>>>
  {
    if |names| == 0 then Some([])
    else
      match RowsOf(dsp, category, names[..|names| - 1])
      case None => None
      case Some(rows) =>
        var name := names[|names| - 1];
        if !IsWav(name) then Some(rows)
        else
          match FileFeatures(dsp, FilePath(category, name))
          case None => None
          case Some(f) => Some(rows + [Row(f, category)])
  }

  /** The rows of the directories `labels`, one directory after the other. */
  function Collect(dsp: Dsp, listing: string -> seq<string>, labels: seq<string>): Option<seq<seq<Cell>>>
  {
    if |labels| == 0 then Some([])
    else
      match Collect(dsp, listing, labels[..|labels| - 1])
      case None => None
      case Some(before) =>
        match RowsOf(dsp, labels[|labels| - 1], listing(labels[|labels| - 1]))
        case None => None
        case Some(rows) => Some(before + rows)
  }

  /** The table the builder writes (None: it aborts first). */
  function Table(dsp: Dsp, listing: string -> seq<string>): Option<seq<seq<Cell>>>
  {
    Collect(dsp, listing, Labels)
  }

  /** The "real" rows followed by the "fake" rows, when both directories succeed. */
  function Join(first: Option<seq<seq<Cell>>>, second: Option<seq<seq<Cell>>>): Option<seq<seq<Cell>>>
  {
    if first.Some? && second.Some? then Some(first.value + second.value) else None
  }

  /** The table is the two directories' rows, "real" first. */
  lemma TableIsTwoDirectories(dsp: Dsp, listing: string -> seq<string>)
    ensures Table(dsp, listing) ==
            Join(RowsOf(dsp, RealLabel, listing(RealLabel)), RowsOf(dsp, FakeLabel, listing(FakeLabel)))
  {
    assert Labels[..1] == [RealLabel];
    assert [RealLabel][..0] == [];
    var first := RowsOf(dsp, RealLabel, listing(RealLabel));
    if first.Some? {
      assert [] + first.value == first.value;
    }
    assert Collect(dsp, listing, [RealLabel]) == first;
  }

  /** Number of ".wav" names in a listing. */
  function WavCount(names: seq<string>): nat
  {
    if |names| == 0 then 0
    else WavCount(names[..|names| - 1]) + (if IsWav(names[|names| - 1]) then 1 else 0)
  }

  /** Some ".wav" name of the listing has no features. */
  predicate SomeWavFails(dsp: Dsp, category: string, names: seq<string>)
  {
    exists i :: 0 <= i < |names| && IsWav(names[i]) && FileFeatures(dsp, FilePath(category, names[i])).None?
  }

  /**
   * A directory's rows: one per ".wav" name, each 31 cells wide, each ending in
   * the directory's label; and the build of a directory fails exactly when
   * one of its ".wav" files has no features.
   */
  lemma {:induction false} RowsOfShape(dsp: Dsp, category: string, names: seq<string>)
    ensures RowsOf(dsp, category, names).None? <==> SomeWavFails(dsp, category, names)
    ensures RowsOf(dsp, category, names).Some? ==>
              var rows := RowsOf(dsp, category, names).value;
              |rows| == WavCount(names) &&
              forall r :: 0 <= r < |rows| ==>
                |rows[r]| == |ColumnNames()| && rows[r][VectorLength] == Text(category)
  {
    if |names| > 0 {
      var init := names[..|names| - 1];
      var name := names[|names| - 1];
      RowsOfShape(dsp, category, init);
      if SomeWavFails(dsp, category, init) {
        var i :| 0 <= i < |init| && IsWav(init[i]) && FileFeatures(dsp, FilePath(category, init[i])).None?;
        assert names[i] == init[i];
      } else if SomeWavFails(dsp, category, names) {
        var i :| 0 <= i < |names| && IsWav(names[i]) && FileFeatures(dsp, FilePath(category, names[i])).None?;
      }
    }
  }

  /** The last cell of every row of a successful build. */
  function LabelOf(row: seq<Cell>): Cell
  {
    if |row| == 0 then Text("") else row[|row| - 1]
  }

  /**
   * The written table: one row per ".wav" file of both directories, every
   * row as wide as the 31 column names, all "real" rows before all "fake"
   * rows, and every label one the training script can encode.
   */
  lemma TableShape(dsp: Dsp, listing: string -> seq<string>)
    ensures Table(dsp, listing).Some? ==>
              var rows := Table(dsp, listing).value;
              var nReal := WavCount(listing(RealLabel));
              |rows| == nReal + WavCount(listing(FakeLabel)) &&
              (forall r :: 0 <= r < |rows| ==> |rows[r]| == |ColumnNames()|) &&
              (forall r :: 0 <= r < nReal ==> LabelOf(rows[r]) == Text(RealLabel)) &&
              (forall r :: nReal <= r < |rows| ==> LabelOf(rows[r]) == Text(FakeLabel)) &&
              (forall r :: 0 <= r < |rows| ==> TrainingCode(LabelOf(rows[r]).s).Some?)
  {
    TableIsTwoDirectories(dsp, listing);
    RowsOfShape(dsp, RealLabel, listing(RealLabel));
    RowsOfShape(dsp, FakeLabel, listing(FakeLabel));
  }

  /** The build aborts exactly when some ".wav" file of either directory has no features. */
  lemma TableFailure(dsp: Dsp, listing: string -> seq<string>)
    ensures Table(dsp, listing).None? <==>
              SomeWavFails(dsp, RealLabel, listing(RealLabel)) || SomeWavFails(dsp, FakeLabel, listing(FakeLabel))
  {
    TableIsTwoDirectories(dsp, listing);
    RowsOfShape(dsp, RealLabel, listing(RealLabel));
    RowsOfShape(dsp, FakeLabel, listing(FakeLabel));
  }

  /**
   * The builder's loops: the directories in order, each directory's listing
   * in order, skipping names that do not end in ".wav", stopping at the
   * first file whose features cannot be computed. `listing` is the directory
   * listing, `dsp` the audio library.
   */
  method ProcessDataset(dsp: Dsp, listing: string -> seq<string>) returns (table: Option<seq<seq<Cell>>>)
    ensures table == Table(dsp, listing)
  {
    var dataset: seq<seq<Cell>> := [];
    var li := 0;
    while li < |Labels|
      invariant 0 <= li <= |Labels|
      invariant Collect(dsp, listing, Labels[..li]) == Some(dataset)
    {
      var category := Labels[li];
      var names := listing(category);
      var rows: seq<seq<Cell>> := [];
      var j := 0;
      while j < |names|
        invariant 0 <= j <= |names|
        invariant RowsOf(dsp, category, names[..j]) == Some(rows)
      {
        assert names[..j + 1][..j] == names[..j];
        var name := names[j];
        if IsWav(name) {
          var features := FileFeatures(dsp, FilePath(category, name));
          if features.None? {
            assert RowsOf(dsp, category, names[..j + 1]).None?;
            NoneStaysNone(dsp, category, names, j + 1);
            assert names[..|names|] == names;
            CollectStopsAt(dsp, listing, li);
            return None;
          }
          rows := rows + [Row(features.value, category)];
        }
        j := j + 1;
      }
      assert names[..j] == names;
      assert Labels[..li + 1][..li] == Labels[..li];
      dataset := dataset + rows;
      li := li + 1;
    }
    assert Labels[..li] == Labels;
    return Some(dataset);
  }

  /** Once a prefix of the listing fails, every longer prefix fails. */
  lemma {:induction false} NoneStaysNone(dsp: Dsp, category: string, names: seq<string>, k: nat)
    requires k <= |names| && RowsOf(dsp, category, names[..k]).None?
    ensures RowsOf(dsp, category, names).None?
    decreases |names| - k
  {
    if k < |names| {
      assert names[..k + 1][..k] == names[..k];
      NoneStaysNone(dsp, category, names, k + 1);
    } else {
      assert names[..k] == names;
    }
  }

  /** A directory that fails makes the whole build fail. */
  lemma CollectStopsAt(dsp: Dsp, listing: string -> seq<string>, li: nat)
    requires li < |Labels| && RowsOf(dsp, Labels[li], listing(Labels[li])).None?
    ensures Table(dsp, listing).None?
  {
    TableIsTwoDirectories(dsp, listing);
  }
}
