/**
 * The 30-value feature vector shared by the request handler and the dataset
 * builder, and the 31-column dataset schema built around it. The signal
 * processing itself (loading and resampling, MFCC, zero-crossing rate,
 * spectral centroid, mean, standard deviation) belongs to the audio and
 * numerics libraries and enters only through the oracles of `Dsp`.
 */
module Features {
  import opened Optional
  import opened Strings

  /** Number of cepstral coefficients requested from the MFCC computation. */
  const CoefficientCount := 13
  /** 13 means, 13 standard deviations, and two statistics each for ZCR and centroid. */
  const VectorLength := 30

  /** The audio and numerics libraries, as oracles. */
  datatype Dsp = Dsp(
    load: string -> Option<seq<real>>,     // samples at 16 kHz, or None when loading raises
    mfcc: (seq<real>, nat) -> seq<real>,   // per-frame series of cepstral coefficient k
    zcr: seq<real> -> seq<real>,           // per-frame zero-crossing rate
    centroid: seq<real> -> seq<real>,      // per-frame spectral centroid
    computes: seq<real> -> bool,           // false when one of the three descriptor computations raises
    mean: seq<real> -> real,
    std: seq<real> -> real)

  /** What one position of the feature vector holds. */
  datatype Slot = MfccMean(k: nat) | MfccStd(k: nat) | ZcrMean | ZcrStd | CentroidMean | CentroidStd

  predicate ValidSlot(s: Slot)
  {
    match s
    case MfccMean(k) => k < CoefficientCount
    case MfccStd(k) => k < CoefficientCount
    case _ => true
  }

  /** The canonical layout: position `i` of every feature vector holds `SlotAt(i)`. */
  function SlotAt(i: nat): (s: Slot)
    requires i < VectorLength
    ensures ValidSlot(s)
  {
    if i < 13 then MfccMean(i)
    else if i < 26 then MfccStd(i - 13)
    else if i == 26 then ZcrMean
    else if i == 27 then ZcrStd
    else if i == 28 then CentroidMean
    else CentroidStd
  }

  /** The inverse of the layout: where a slot lives in the vector. */
  function SlotIndex(s: Slot): nat
  {
    match s
    case MfccMean(k) => k
    case MfccStd(k) => 13 + k
    case ZcrMean => 26
    case ZcrStd => 27
    case CentroidMean => 28
    case CentroidStd => 29
  }

  /** The layout is a bijection between positions 0..29 and the valid slots. */
  lemma LayoutIsBijection(i: nat, s: Slot)
    ensures i < VectorLength ==> SlotIndex(SlotAt(i)) == i
    ensures ValidSlot(s) ==> SlotIndex(s) < VectorLength && SlotAt(SlotIndex(s)) == s
  {
  }

  /** The statistic a slot holds for the buffer `y`. */
  function SlotValue(dsp: Dsp, y: seq<real>, s: Slot): real
  {
    match s
    case MfccMean(k) => dsp.mean(dsp.mfcc(y, k))
    case MfccStd(k) => dsp.std(dsp.mfcc(y, k))
    case ZcrMean => dsp.mean(dsp.zcr(y))
    case ZcrStd => dsp.std(dsp.zcr(y))
    case CentroidMean => dsp.mean(dsp.centroid(y))
    case CentroidStd => dsp.std(dsp.centroid(y))
  }

  /**
   * The stacked statistics: per-coefficient MFCC means, per-coefficient MFCC
   * standard deviations, then ZCR mean and std, then centroid mean and std.
   */
  function Vector(dsp: Dsp, y: seq<real>): (v: seq<real>)
    ensures |v| == VectorLength
    ensures forall i :: 0 <= i < VectorLength ==> v[i] == SlotValue(dsp, y, SlotAt(i))
  {
    var means := seq(CoefficientCount, k requires 0 <= k < CoefficientCount => dsp.mean(dsp.mfcc(y, k)));
    var stds := seq(CoefficientCount, k requires 0 <= k < CoefficientCount => dsp.std(dsp.mfcc(y, k)));
    means + stds + [dsp.mean(dsp.zcr(y)), dsp.std(dsp.zcr(y)), dsp.mean(dsp.centroid(y)), dsp.std(dsp.centroid(y))]
  }

  /** The feature vector is a function of the buffer alone: equal buffers, equal vectors. */
  lemma VectorDeterministic(dsp: Dsp, y1: seq<real>, y2: seq<real>, s: Slot)
    requires y1 == y2 && ValidSlot(s)
    ensures Vector(dsp, y1)[SlotIndex(s)] == Vector(dsp, y2)[SlotIndex(s)] == SlotValue(dsp, y1, s)
  {
    LayoutIsBijection(0, s);
  }

  /** Dataset column name of a slot. */
  function SlotName(s: Slot): string
  {
    match s
    case MfccMean(k) => "mfcc_mean_" + NatToString(k)
    case MfccStd(k) => "mfcc_std_" + NatToString(k)
    case ZcrMean => "zcr_mean"
    case ZcrStd => "zcr_std"
    case CentroidMean => "spec_cent_mean"
    case CentroidStd => "spec_cent_std"
  }

  const LabelColumn := "label"

  /**
   * The dataset's columns: 31 names, the 30 feature names in vector order,
   * and the label last.
   */
  function ColumnNames(): (names: seq<string>)
    ensures |names| == VectorLength + 1
    ensures forall i :: 0 <= i < VectorLength ==> names[i] == SlotName(SlotAt(i))
    ensures names[VectorLength] == LabelColumn
  {
    seq(13, k requires 0 <= k < 13 => "mfcc_mean_" + NatToString(k)) +
    seq(13, k requires 0 <= k < 13 => "mfcc_std_" + NatToString(k)) +
    ["zcr_mean", "zcr_std", "spec_cent_mean", "spec_cent_std"] +
    [LabelColumn]
  }

  /** The first and sixth characters of a column name tell the slot's family. */
  lemma SlotNameShape(s: Slot)
    ensures |SlotName(s)| > 5
    ensures SlotName(s)[0] == 'm' <==> s.MfccMean? || s.MfccStd?
    ensures s.MfccMean? ==> SlotName(s)[5] == 'm' && SlotName(s)[10..] == NatToString(s.k)
    ensures s.MfccStd? ==> SlotName(s)[5] == 's' && SlotName(s)[9..] == NatToString(s.k)
  {
  }

  /** Slot names tell slots apart. */
  lemma SlotNameInjective(s: Slot, t: Slot)
    requires SlotName(s) == SlotName(t)
    ensures s == t
  {
    SlotNameShape(s);
    SlotNameShape(t);
    if (s.MfccMean? && t.MfccMean?) || (s.MfccStd? && t.MfccStd?) {
      NatToStringInjective(s.k, t.k);
    }
  }

  /** No two columns share a name. */
  lemma ColumnNamesDistinct(i: nat, j: nat)
    requires i < j < |ColumnNames()|
    ensures ColumnNames()[i] != ColumnNames()[j]
  {
    var names := ColumnNames();
    if j < VectorLength {
      if names[i] == names[j] {
        SlotNameInjective(SlotAt(i), SlotAt(j));
        LayoutIsBijection(i, SlotAt(i));
        LayoutIsBijection(j, SlotAt(j));
      }
    } else {
      var s := SlotAt(i);
      match s
      case MfccMean(k) => assert names[i][0] == 'm';
      case MfccStd(k) => assert names[i][0] == 'm';
      case _ =>
    }
  }

  /** One cell of the dataset table: a feature value or the label text. */
  datatype Cell = Num(x: real) | Text(s: string)

  /** A dataset row: the feature vector followed by its label (numpy's append of the label). */
  function Row(features: seq<real>, category: string): (row: seq<Cell>)
    ensures |row| == |features| + 1
    ensures forall i :: 0 <= i < |features| ==> row[i] == Num(features[i])
    ensures row[|features|] == Text(category)
  {
    seq(|features|, i requires 0 <= i < |features| => Num(features[i])) + [Text(category)]
  }

  /** The rows built from feature vectors have exactly one cell per column. */
  lemma RowMatchesColumns(dsp: Dsp, y: seq<real>, category: string)
    ensures |Row(Vector(dsp, y), category)| == |ColumnNames()|
    ensures Row(Vector(dsp, y), category)[VectorLength] == Text(category)
  {
  }
}
