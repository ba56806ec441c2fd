/**
 * One product's job (`analyze_image` and `get_product_images`): look the
 * product up, analyse and optimise each of its images, keep a record for each
 * image where both steps succeeded, then decide whether to sync and whether
 * the product counts as fully skipped.
 *
 * The product lookup is the `Lookup` value, each image's two downloads and its
 * encoder are carried by its `ImageJob`, and the answer typed at the sync
 * prompt is `answer`. Writing the HTML report and the sync itself are effects
 * that are not part of this model; `synced` says that the sync was started.
 */
module ProductJob {
  import opened Options
  import Text
  import opened Transcode

  /**
   * An image of the looked-up product: what the analysis download decoded to,
   * what the optimisation download decoded to, and the WebP encoder's output
   * size per quality (`None` where a step raised).
   */
  datatype ImageJob = ImageJob(
    id: nat,
    probe: Option<Original>,
    download: Option<Original>,
    encode: nat -> Option<nat>)

  /** The product lookup: it raised, it returned nothing, or it found the product. */
  datatype Lookup = LookupError | Missing | Found(title: string, images: seq<ImageJob>)

  /** The `auto_sync` argument: True, False or None (ask the user). */
  datatype SyncMode = AutoSync | NoSync | Ask

  /** The stats of the original image, as reported by `analyze_image`. */
  datatype Analysis = Analysis(size: nat, mode: string, bitDepth: Option<nat>)

  /** One entry of the product's report data. */
  datatype Record = Record(id: nat, orig: Analysis, optimized: Optimized)

  /** What the job did: the report data, whether a sync started, and the return value. */
  datatype Outcome = Outcome(records: seq<Record>, synced: bool, fullySkipped: bool)

  /** `analyze_image`: the original's size, mode and bit depth, or `None` if it could not be read. */
  function Analyze(probe: Option<Original>): (a: Option<Analysis>)
    ensures a.Some? <==> probe.Some?
    ensures a.Some? ==>
      a.value.size == probe.value.size && a.value.mode == probe.value.mode && a.value.bitDepth == BitDepth(probe.value.mode)
  {
    match probe
    case None => None
    case Some(o) => Some(Analysis(o.size, o.mode, BitDepth(o.mode)))
  }

  /** The record an image contributes, if both its analysis and its optimisation succeeded. */
  function RecordOf(image: ImageJob): seq<Record> {
    var orig, opt := Analyze(image.probe), Optimize(image.download, image.encode);
    if orig.Some? && opt.Some? then [Record(image.id, orig.value, opt.value)] else []
  }

  /** The report data of a list of images, in image order. */
  function Records(images: seq<ImageJob>): seq<Record> {
    if images == [] then [] else Records(images[..|images| - 1]) + RecordOf(images[|images| - 1])
  }

  /** An image yields a record iff it was analysed and optimised. */
  ghost predicate Yields(image: ImageJob) {
    image.probe.Some? && Optimize(image.download, image.encode).Some?
  }

  /** Record `r` is the one image `images[i]` contributes. */
  ghost predicate RecordFrom(images: seq<ImageJob>, i: int, r: Record) {
    0 <= i < |images| && images[i].id == r.id && Analyze(images[i].probe) == Some(r.orig)
    && Optimize(images[i].download, images[i].encode) == Some(r.optimized)
  }

  /**
   * Every record comes from an image of the list that was analysed and
   * optimised, and the list has no record iff no image yields one.
   */
  lemma RecordsFacts(images: seq<ImageJob>)
    ensures |Records(images)| <= |images|
    ensures Records(images) == [] <==> forall i :: 0 <= i < |images| ==> !Yields(images[i])
    ensures forall r :: r in Records(images) ==> exists i :: RecordFrom(images, i, r)
  {
    RecordsLength(images);
    RecordsEmpty(images);
    RecordsFromImages(images);
  }

  lemma {:induction false} RecordsLength(images: seq<ImageJob>)
    ensures |Records(images)| <= |images|
  {
    if images != [] {
      RecordsLength(images[..|images| - 1]);
    }
  }

  lemma {:induction false} RecordsEmpty(images: seq<ImageJob>)
    ensures Records(images) == [] <==> forall i :: 0 <= i < |images| ==> !Yields(images[i])
  {
    if images != [] {
      var init, last := images[..|images| - 1], images[|images| - 1];
      RecordsEmpty(init);
      var r, l := Records(init), RecordOf(last);
      assert Records(images) == r + l;
      assert r + l == [] <==> r == [] && l == [];
      RecordOfEmpty(last);
      NoneYieldSplit(images, init);
    }
  }

  /** No image of a list yields iff none of its prefix `init` does and its last one does not. */
  lemma NoneYieldSplit(images: seq<ImageJob>, init: seq<ImageJob>)
    requires images != [] && init == images[..|images| - 1]
    ensures (forall i :: 0 <= i < |images| ==> !Yields(images[i])) <==>
      (forall i :: 0 <= i < |init| ==> !Yields(init[i])) && !Yields(images[|images| - 1])
  {
    assert forall i :: 0 <= i < |init| ==> init[i] == images[i];
  }

  lemma RecordOfEmpty(image: ImageJob)
    ensures RecordOf(image) == [] <==> !Yields(image)
  {
  }

  lemma {:induction false} RecordsFromImages(images: seq<ImageJob>)
    ensures forall r :: r in Records(images) ==> exists i :: RecordFrom(images, i, r)
  {
    if images != [] {
      var init, last := images[..|images| - 1], images[|images| - 1];
      RecordsFromImages(init);
      assert Records(images) == Records(init) + RecordOf(last);
      forall r | r in Records(images) ensures exists i :: RecordFrom(images, i, r) {
        if r in Records(init) {
          var i :| RecordFrom(init, i, r);
          assert images[i] == init[i];
          assert RecordFrom(images, i, r);
        } else {
          assert r in RecordOf(last);
          assert RecordFrom(images, |images| - 1, r);
        }
      }
    }
  }

  /** The trimmed, lower-cased answer is "yes" or "y". */
  predicate Affirmative(answer: string) {
    Text.Lower(Text.Strip(answer)) in ["yes", "y"]
  }

  /** Whether a product with report data is synced. */
  predicate ShouldSync(mode: SyncMode, answer: string) {
    mode == AutoSync || (mode == Ask && Affirmative(answer))
  }

  /** `get_product_images`'s observable result, as a function of its inputs. */
  function Job(lookup: Lookup, mode: SyncMode, answer: string): Outcome {
    match lookup
    case LookupError => Outcome([], false, false)
    case Missing => Outcome([], false, true)
    case Found(_, images) =>
      var records := Records(images);
      if records == [] then Outcome([], false, true)
      else if ShouldSync(mode, answer) then Outcome(records, true, false)
      else Outcome(records, false, mode == NoSync)
  }

  /**
   * The return value: a missing product or one with no record is fully
   * skipped, a lookup that raised is not, and a product with records is fully
   * skipped exactly when syncing is switched off.
   */
  lemma JobSkips(lookup: Lookup, mode: SyncMode, answer: string)
    ensures Job(lookup, mode, answer).fullySkipped <==>
      lookup.Missing? ||
      (lookup.Found? && (mode == NoSync || forall i :: 0 <= i < |lookup.images| ==> !Yields(lookup.images[i])))
  {
    if lookup.Found? {
      RecordsFacts(lookup.images);
    }
  }

  /**
   * A sync starts exactly for a found product with records whose mode is
   * automatic, or interactive with an affirmative answer; a synced product is
   * never fully skipped.
   */
  lemma JobSyncs(lookup: Lookup, mode: SyncMode, answer: string)
    ensures Job(lookup, mode, answer).synced <==>
      lookup.Found? && Records(lookup.images) != [] &&
      (mode == AutoSync || (mode == Ask && Text.Lower(Text.Strip(answer)) in ["yes", "y"]))
    ensures Job(lookup, mode, answer).synced ==> !Job(lookup, mode, answer).fullySkipped
    ensures mode == Ask ==>
      (Job(lookup, mode, answer).fullySkipped <==> lookup.Missing? || (lookup.Found? && Records(lookup.images) == []))
  {
  }

  /** Under automatic sync, a product is fully skipped iff none of its images is both readable and large enough. */
  lemma AutoSyncSkipsOnlySmall(lookup: Lookup, answer: string)
    requires lookup.Found?
    ensures Job(lookup, AutoSync, answer).fullySkipped <==>
      forall i :: 0 <= i < |lookup.images| ==>
        var image := lookup.images[i];
        image.probe.None? || image.download.None? || image.download.value.size < Config.LargeThreshold ||
        Search(image.encode, Config.StartQuality).None?
  {
    JobSkips(lookup, AutoSync, answer);
  }

  /** `get_product_images`: runs the job, optimising every image of a found product in order. */
  method GetProductImages(lookup: Lookup, mode: SyncMode, answer: string) returns (o: Outcome)
    ensures o == Job(lookup, mode, answer)
  {
    if lookup.LookupError? {
      return Outcome([], false, false);
    }
    if lookup.Missing? {
      return Outcome([], false, true);
    }
    var images := lookup.images;
    var records: seq<Record> := [];
    for i := 0 to |images|
      invariant records == Records(images[..i])
    {
      var image := images[i];
      var orig := Analyze(image.probe);
      var opt := ResizeAndSave(image.download, image.encode);
      if orig.Some? && opt.Some? {
        records := records + [Record(image.id, orig.value, opt.value)];
      }
      assert images[..i + 1][..i] == images[..i];
    }
    assert images[..|images|] == images;
    if records == [] {
      return Outcome([], false, true);
    }
    if ShouldSync(mode, answer) {
      return Outcome(records, true, false);
    }
    o := Outcome(records, false, mode == NoSync);
  }
}
