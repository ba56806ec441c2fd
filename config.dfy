/** Named configuration constants of the image-optimisation batch job. */
module Config {
  /** Products requested per catalog page (the `limit` of each list call). */
  const PageSize: nat := 250
  /** Images above this many bytes are "large": probed first, and transcoded. */
  const LargeThreshold: nat := 150 * 1024
  /** Target size in bytes of a transcoded image. */
  const TargetSize: nat := 100 * 1024
  /** First quality tried by the quality search. */
  const StartQuality: nat := 50
  /** The quality search never goes below this quality. */
  const MinQuality: nat := 20
  /** Quality decrement per step of the search. */
  const QualityStep: nat := 2
  /** Fixed quality of the branch for originals under TargetSize. */
  const SmallOriginalQuality: nat := 85
  /** A chunk is abandoned after this many consecutive fully-skipped products. */
  const MaxConsecutiveSkips: nat := 3
  /** Pages per chunk used by the batch job's entry point. */
  const MainBatchesPerYield: nat := 1
}

/** The optional-value datatype used throughout the model. */
module Options {
  datatype Option<+T> = None | Some(value: T)
}

/** Arithmetic facts about `%` with a divisor that is not a literal. */
module Arith {
  lemma MulAtLeast(x: int, k: int)
    requires x >= 1 && k > 0
    ensures x * k >= k
  {
  }

  /** The remainder is determined by any quotient/remainder decomposition. */
  lemma ModUnique(a: int, k: int, q: int, r: int)
    requires k > 0 && a == q * k + r && 0 <= r < k
    ensures a % k == r
  {
    var d := a / k;
    var m := a % k;
    assert a == d * k + m;
    assert (d - q) * k == r - m;
    assert (q - d) * k == m - r;
    if d > q { MulAtLeast(d - q, k); }
    if d < q { MulAtLeast(q - d, k); }
  }

  /** One more group of `k` adds `k` to the product. */
  lemma MulSucc(a: int, k: int)
    ensures (a + 1) * k == a * k + k
  {
  }
}
