/** Shape normalisation of the acoustic feature vector (`extract_features` in app.py).

    The signal processing itself (decoding, pre-emphasis, MFCC, chroma and mel
    spectrogram, time averaging) is foreign numerics; it is represented by its
    outcome, an `Extraction`: either the averaged sub-vectors or a failure. What
    is modelled exactly is what the function does to those vectors afterwards:
    concatenation in a fixed order, replacement of non-finite values, and padding
    or truncation to exactly 63 components. */
module Features {
  import opened Wrappers

  /** A float32 component as numpy holds it. */
  datatype Float = Finite(v: real) | NaN | PosInf | NegInf

  /** Band counts requested from librosa (app.py lines 47-49). */
  const MfccBands: nat := 40
  const ChromaBins: nat := 12
  const MelBands: nat := 128

  /** The dimensionality the persisted scaler and classifier were trained on. */
  const ExpectedFeatures: nat := 63

  /** The largest finite float32, (2 - 2^-23) * 2^127, which `nan_to_num`
      substitutes for positive infinity. */
  const Float32Max: real := 340282346638528859811704183484516925440.0

  /** What the librosa stage produced: the three time-averaged sub-vectors, or
      an exception (which `extract_features` turns into `None`). */
  datatype Extraction =
    | ExtractionRaised
    | Averaged(mfcc: seq<Float>, chroma: seq<Float>, mel: seq<Float>)

  /** `np.nan_to_num` on one component. */
  function NanToNum(x: Float): (r: real)
    ensures x.Finite? ==> r == x.v
    ensures x == NaN ==> r == 0.0
    ensures x == PosInf ==> r == Float32Max
    ensures x == NegInf ==> r == -Float32Max
  {
    match x
    case Finite(v) => v
    case NaN => 0.0
    case PosInf => Float32Max
    case NegInf => -Float32Max
  }

  /** `np.nan_to_num` on a vector: component-wise, same length. */
  function NanToNumAll(s: seq<Float>): (r: seq<real>)
    ensures |r| == |s|
    ensures forall i :: 0 <= i < |s| && s[i] == NaN ==> r[i] == 0.0
    ensures forall i :: 0 <= i < |s| && s[i].Finite? ==> r[i] == s[i].v
    ensures forall i :: 0 <= i < |s| && s[i] == PosInf ==> r[i] == Float32Max
    ensures forall i :: 0 <= i < |s| && s[i] == NegInf ==> r[i] == -Float32Max
  {
    seq(|s|, i requires 0 <= i < |s| => NanToNum(s[i]))
  }

  /** Reference definition of the shape rule: component i of the result is
      component i of the input where the input has one, and 0 elsewhere. */
  function Fitted(s: seq<real>): (r: seq<real>)
    ensures |s| == ExpectedFeatures ==> r == s
    ensures |s| < ExpectedFeatures ==> r == s + Zeros(ExpectedFeatures - |s|)
    ensures |s| > ExpectedFeatures ==> r == s[..ExpectedFeatures]
  {
    seq(ExpectedFeatures, i requires 0 <= i < ExpectedFeatures => if i < |s| then s[i] else 0.0)
  }

  /** A vector of n zeros, as `np.pad` appends. */
  function Zeros(n: nat): (r: seq<real>)
    ensures |r| == n && forall i :: 0 <= i < n ==> r[i] == 0.0
  {
    seq(n, _ => 0.0)
  }

  /** The vector `extract_features` returns for a given librosa outcome. */
  function FeatureVector(x: Extraction): (r: Option<seq<real>>)
    ensures r.None? <==> x.ExtractionRaised?
    ensures r.Some? ==> |r.value| == ExpectedFeatures
  {
    match x
    case ExtractionRaised => None
    case Averaged(mfcc, chroma, mel) => Some(Fitted(NanToNumAll(mfcc + chroma + mel)))
  }

  /** `extract_features` after the librosa calls: it rebinds `features` through
      the concatenation, `nan_to_num`, and the pad-or-truncate branches. */
  method ExtractFeatures(x: Extraction) returns (result: Option<seq<real>>)
    ensures result == FeatureVector(x)
    ensures result.Some? ==> |result.value| == ExpectedFeatures
  {
    match x
    case ExtractionRaised =>
      return None;
    case Averaged(mfcc, chroma, mel) =>
      var features := mfcc + chroma + mel;
      var cleaned := NanToNumAll(features);
      if |cleaned| != ExpectedFeatures {
        if |cleaned| < ExpectedFeatures {
          cleaned := cleaned + Zeros(ExpectedFeatures - |cleaned|);
        } else {
          cleaned := cleaned[..ExpectedFeatures];
        }
      }
      assert cleaned == Fitted(NanToNumAll(features));
      return Some(cleaned);
  }

  /** Every input length yields exactly 63 components; the first min(n, 63)
      are the input's own, in order, and the rest are zero padding. */
  lemma FittedShape(s: seq<real>)
    ensures |Fitted(s)| == ExpectedFeatures
    ensures forall i :: 0 <= i < |s| && i < ExpectedFeatures ==> Fitted(s)[i] == s[i]
    ensures forall i :: |s| <= i < ExpectedFeatures ==> Fitted(s)[i] == 0.0
  {
  }

  /** A vector that already has 63 components is returned unchanged, so the
      normalisation is idempotent. */
  lemma FittedIdentity(s: seq<real>)
    ensures Fitted(Fitted(s)) == Fitted(s)
  {
  }

  /** With the band counts the code requests (40 + 12 + 128 = 180 components)
      the truncation branch always runs: the vector is all of the MFCC means,
      then all of the chroma means, then the first 11 mel means. */
  lemma ReferenceConfiguration(mfcc: seq<Float>, chroma: seq<Float>, mel: seq<Float>)
    requires |mfcc| == MfccBands && |chroma| == ChromaBins && |mel| == MelBands
    ensures |mfcc + chroma + mel| > ExpectedFeatures
    ensures FeatureVector(Averaged(mfcc, chroma, mel))
         == Some(NanToNumAll(mfcc) + NanToNumAll(chroma) + NanToNumAll(mel[..11]))
  {
    var all := NanToNumAll(mfcc + chroma + mel);
    var parts := NanToNumAll(mfcc) + NanToNumAll(chroma) + NanToNumAll(mel[..11]);
    assert |parts| == ExpectedFeatures;
    forall i | 0 <= i < ExpectedFeatures
      ensures Fitted(all)[i] == parts[i]
    {
      if i < 40 {
        assert (mfcc + chroma + mel)[i] == mfcc[i];
      } else if i < 52 {
        assert (mfcc + chroma + mel)[i] == chroma[i - 40];
      } else {
        assert (mfcc + chroma + mel)[i] == mel[i - 52];
      }
    }
    assert Fitted(all) == parts;
  }
}
