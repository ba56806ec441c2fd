/**
 * The transcode worker's decisions (`get_bit_depth`, `resize_and_save_image`).
 *
 * The download and decode of the original are `download`: the original's byte
 * size and pixel mode, or `None` when the GET or the decode raised. The WebP
 * encoder is `encode`: the size of the file written at a quality, or `None`
 * when writing it raised. Resizing to 1200 px is left to the encoder.
 */
module Transcode {
  import opened Config
  import opened Options

  /** `get_bit_depth`: bits per channel of a pixel mode, `None` for "Unknown". */
  function BitDepth(mode: string): (r: Option<nat>)
    ensures r.Some? <==> mode in ["1", "L", "P", "RGB", "RGBA", "CMYK", "YCbCr", "LAB", "HSV", "I", "F"]
    ensures r == Some(1) <==> mode == "1"
    ensures r == Some(32) <==> mode == "I" || mode == "F"
    ensures r.Some? ==> r.value in {1, 8, 32}
  {
    if mode == "1" then Some(1)
    else if mode in ["L", "P", "RGB", "RGBA", "CMYK", "YCbCr", "LAB", "HSV"] then Some(8)
    else if mode == "I" || mode == "F" then Some(32)
    else None
  }

  /** A downloaded and decoded original. */
  datatype Original = Original(size: nat, mode: string)

  /** The stats of a written optimised image. */
  datatype Optimized = Optimized(quality: nat, size: nat, mode: string, bitDepth: Option<nat>)

  /** Palette images are converted to RGBA before encoding; other modes are kept. */
  function EncodedMode(mode: string): (m: string)
    ensures m != "P"
    ensures mode != "P" ==> m == mode
    ensures mode == "P" ==> m == "RGBA"
  {
    if mode == "P" then "RGBA" else mode
  }

  /**
   * The quality search from `quality` downwards: stop at the first quality whose
   * output is within TargetSize or at MinQuality; `None` if an encode raised.
   */
  function Search(encode: nat -> Option<nat>, quality: nat): Option<(nat, nat)>
    decreases quality
  {
    match encode(quality)
    case None => None
    case Some(size) =>
      if size > TargetSize && quality > MinQuality then Search(encode, quality - QualityStep)
      else Some((quality, size))
  }

  ghost predicate EvenQualityIn(q: nat, lo: nat, hi: nat) {
    lo <= q <= hi && q % 2 == 0
  }

  /**
   * What the search returns: an even quality in [MinQuality, quality] together
   * with the size encoded there, within TargetSize unless at MinQuality; every
   * higher quality it tried gave a size above TargetSize. When it fails, some
   * quality it tried raised.
   */
  lemma {:induction false} SearchFacts(encode: nat -> Option<nat>, quality: nat)
    requires EvenQualityIn(quality, MinQuality, StartQuality)
    ensures Search(encode, quality).Some? ==>
      var (q, size) := Search(encode, quality).value;
      EvenQualityIn(q, MinQuality, quality) && encode(q) == Some(size) &&
      (size <= TargetSize || q == MinQuality) &&
      forall q' :: q < q' <= quality && q' % 2 == 0 ==> encode(q').Some? && encode(q').value > TargetSize
    ensures Search(encode, quality).None? ==>
      exists q :: EvenQualityIn(q, MinQuality, quality) && encode(q).None?
    decreases quality
  {
    if encode(quality).Some? && encode(quality).value > TargetSize && quality > MinQuality {
      SearchFacts(encode, quality - QualityStep);
    }
  }

  /** `resize_and_save_image`'s result, as a function of its inputs. */
  function Optimize(download: Option<Original>, encode: nat -> Option<nat>): Option<Optimized> {
    if download.None? || download.value.size < LargeThreshold then None
    else
      match Search(encode, StartQuality)
      case None => None
      case Some((q, size)) =>
        var mode := EncodedMode(download.value.mode);
        Some(Optimized(q, size, mode, BitDepth(mode)))
  }

  /**
   * `resize_and_save_image`: skips originals under LargeThreshold without
   * encoding, otherwise runs the descending quality search from StartQuality.
   */
  method ResizeAndSave(download: Option<Original>, encode: nat -> Option<nat>) returns (r: Option<Optimized>)
    ensures r == Optimize(download, encode)
    ensures download.None? || download.value.size < LargeThreshold ==> r.None?
    ensures r.Some? ==>
      EvenQualityIn(r.value.quality, MinQuality, StartQuality) &&
      r.value.quality != SmallOriginalQuality &&
      encode(r.value.quality) == Some(r.value.size) &&
      (r.value.size <= TargetSize || r.value.quality == MinQuality) &&
      forall q :: r.value.quality < q <= StartQuality && q % 2 == 0 ==>
        encode(q).Some? && encode(q).value > TargetSize
  {
    if download.None? {
      return None;
    }
    var original := download.value;
    if original.size < LargeThreshold {
      return None;
    }
    var mode := EncodedMode(original.mode);
    // Here the original is at least LargeThreshold > TargetSize bytes, so the
    // script's fixed-quality branch for originals under TargetSize is dead.
    assert !(original.size < TargetSize);
    var quality: nat := StartQuality;
    var written := encode(quality);
    if written.None? {
      return None;
    }
    var newSize := written.value;
    while newSize > TargetSize && quality > MinQuality
      invariant EvenQualityIn(quality, MinQuality, StartQuality)
      invariant encode(quality) == Some(newSize)
      invariant Search(encode, StartQuality) == Search(encode, quality)
      invariant forall q :: quality < q <= StartQuality && q % 2 == 0 ==>
        encode(q).Some? && encode(q).value > TargetSize
      decreases quality
    {
      quality := quality - QualityStep;
      written := encode(quality);
      if written.None? {
        return None;
      }
      newSize := written.value;
    }
    r := Some(Optimized(quality, newSize, mode, BitDepth(mode)));
  }
}
