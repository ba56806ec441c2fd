/**
 * The size probe (`analyze_all_images`): every image of a chunk gets a
 * HEAD-request size, and the results are ordered large-first.
 *
 * The HEAD request is `headSize(url)`: the Content-Length it reported, or
 * `None` when the request failed or carried no length. The thread pool's
 * completion order is `pick`: given the probes still pending, it names the
 * one that completes next.
 */
module Probe {
  import opened Config
  import opened Options
  import opened Catalog

  datatype ImageInfo = ImageInfo(url: string, productId: ProductId, imageId: nat, title: string)

  /** One probe result, `(image_url, size, product_id, image_id, product_title)`. */
  datatype Sample = Sample(url: string, size: nat, productId: ProductId, imageId: nat, title: string)

  function InfosOf(p: Product): (infos: seq<ImageInfo>)
    ensures |infos| == |p.images|
    ensures forall j :: 0 <= j < |infos| ==>
      infos[j] == ImageInfo(p.images[j].src, p.id, p.images[j].id, p.title)
  {
    seq(|p.images|, j requires 0 <= j < |p.images| => ImageInfo(p.images[j].src, p.id, p.images[j].id, p.title))
  }

  function ImageCount(products: seq<Product>): nat {
    if products == [] then 0 else |products[0].images| + ImageCount(products[1..])
  }

  function ProductIds(products: seq<Product>): set<ProductId> {
    set p | p in products :: p.id
  }

  /** Every image of every product, product by product, in image order. */
  function CollectImages(products: seq<Product>): (infos: seq<ImageInfo>)
    ensures |infos| == ImageCount(products)
    ensures forall info :: info in infos ==> info.productId in ProductIds(products)
  {
    if products == [] then []
    else
      var rest := CollectImages(products[1..]);
      assert forall info :: info in rest ==> info.productId in ProductIds(products) by {
        forall info | info in rest ensures info.productId in ProductIds(products) {
          var p :| p in products[1..] && p.id == info.productId;
          assert p in products;
        }
      }
      InfosOf(products[0]) + rest
  }

  /** The size a probe records: the reported length, or 0 when the probe failed. */
  function ProbeSample(info: ImageInfo, headSize: string -> Option<nat>): (s: Sample)
    ensures s.size == (if headSize(info.url).Some? then headSize(info.url).value else 0)
    ensures s.url == info.url && s.productId == info.productId && s.imageId == info.imageId && s.title == info.title
  {
    var size := match headSize(info.url) case Some(n) => n case None => 0;
    Sample(info.url, size, info.productId, info.imageId, info.title)
  }

  function ProbeAll(infos: seq<ImageInfo>, headSize: string -> Option<nat>): (samples: seq<Sample>)
    ensures |samples| == |infos|
    ensures forall j :: 0 <= j < |infos| ==> samples[j] == ProbeSample(infos[j], headSize)
  {
    seq(|infos|, j requires 0 <= j < |infos| => ProbeSample(infos[j], headSize))
  }

  /** The order in which the probes complete: any order of the submitted probes. */
  function Arrival(pending: seq<Sample>, pick: seq<Sample> -> nat): (done: seq<Sample>)
    ensures multiset(done) == multiset(pending)
    decreases |pending|
  {
    if pending == [] then []
    else
      var k := pick(pending) % |pending|;
      assert pending == pending[..k] + [pending[k]] + pending[k + 1..];
      [pending[k]] + Arrival(pending[..k] + pending[k + 1..], pick)
  }

  ghost predicate NonIncreasing(xs: seq<Sample>) {
    forall i, j :: 0 <= i < j < |xs| ==> xs[i].size >= xs[j].size
  }

  /** The samples of one size, in their order in `xs`. */
  function OfSize(xs: seq<Sample>, n: nat): seq<Sample> {
    if xs == [] then []
    else (if xs[0].size == n then [xs[0]] else []) + OfSize(xs[1..], n)
  }

  /** Places `x` before the first sample of `sorted` that is not larger. */
  function InsertBySize(x: Sample, sorted: seq<Sample>): seq<Sample> {
    if sorted == [] || x.size >= sorted[0].size then [x] + sorted
    else [sorted[0]] + InsertBySize(x, sorted[1..])
  }

  /** `list.sort(key=size, reverse=True)`: a stable sort, largest first. */
  function SortBySizeDesc(xs: seq<Sample>): seq<Sample> {
    if xs == [] then [] else InsertBySize(xs[0], SortBySizeDesc(xs[1..]))
  }

  lemma {:induction false} InsertBySizePermutes(x: Sample, sorted: seq<Sample>)
    ensures multiset(InsertBySize(x, sorted)) == multiset(sorted) + multiset{x}
  {
    if sorted != [] && x.size < sorted[0].size {
      InsertBySizePermutes(x, sorted[1..]);
      assert sorted == [sorted[0]] + sorted[1..];
    }
  }

  /** Inserting under a bound keeps every entry under it. */
  lemma {:induction false} InsertBySizeBounded(x: Sample, sorted: seq<Sample>, b: nat)
    requires x.size <= b
    requires forall i :: 0 <= i < |sorted| ==> sorted[i].size <= b
    ensures forall i :: 0 <= i < |InsertBySize(x, sorted)| ==> InsertBySize(x, sorted)[i].size <= b
  {
    if sorted != [] && x.size < sorted[0].size {
      var rest := InsertBySize(x, sorted[1..]);
      InsertBySizeBounded(x, sorted[1..], b);
      assert InsertBySize(x, sorted) == [sorted[0]] + rest;
    }
  }

  lemma {:induction false} InsertBySizeOrders(x: Sample, sorted: seq<Sample>)
    requires NonIncreasing(sorted)
    ensures NonIncreasing(InsertBySize(x, sorted))
  {
    if sorted != [] && x.size < sorted[0].size {
      var tail := sorted[1..];
      var rest := InsertBySize(x, tail);
      assert NonIncreasing(tail);
      InsertBySizeOrders(x, tail);
      InsertBySizeBounded(x, tail, sorted[0].size);
      SplitAt([sorted[0]], rest);
    }
  }

  /** Inserting keeps the order among samples of each size, and `x` goes before those equal to it. */
  lemma {:induction false} InsertBySizeKeepsTies(x: Sample, sorted: seq<Sample>, n: nat)
    ensures OfSize(InsertBySize(x, sorted), n) == (if x.size == n then [x] else []) + OfSize(sorted, n)
  {
    var r := InsertBySize(x, sorted);
    if sorted == [] || x.size >= sorted[0].size {
      assert r[1..] == sorted;
    } else {
      var rest := InsertBySize(x, sorted[1..]);
      InsertBySizeKeepsTies(x, sorted[1..], n);
      assert r[0] == sorted[0] && r[1..] == rest;
      assert OfSize(r, n) == (if sorted[0].size == n then [sorted[0]] else []) + OfSize(rest, n);
    }
  }

  /** The sort is a permutation. */
  lemma {:induction false} SortBySizeDescPermutes(xs: seq<Sample>)
    ensures multiset(SortBySizeDesc(xs)) == multiset(xs)
  {
    if xs != [] {
      SortBySizeDescPermutes(xs[1..]);
      InsertBySizePermutes(xs[0], SortBySizeDesc(xs[1..]));
      assert xs == [xs[0]] + xs[1..];
    }
  }

  /** The sort puts larger samples first. */
  lemma {:induction false} SortBySizeDescOrders(xs: seq<Sample>)
    ensures NonIncreasing(SortBySizeDesc(xs))
  {
    if xs != [] {
      SortBySizeDescOrders(xs[1..]);
      InsertBySizeOrders(xs[0], SortBySizeDesc(xs[1..]));
    }
  }

  /** The sort is stable: the samples of each size keep their input order. */
  lemma {:induction false} SortBySizeDescStable(xs: seq<Sample>, n: nat)
    ensures OfSize(SortBySizeDesc(xs), n) == OfSize(xs, n)
  {
    if xs != [] {
      SortBySizeDescStable(xs[1..], n);
      InsertBySizeKeepsTies(xs[0], SortBySizeDesc(xs[1..]), n);
    }
  }

  /** `[r for r in results if r[1] > THRESHOLD]`. */
  function Large(xs: seq<Sample>): (r: seq<Sample>)
    ensures forall i :: 0 <= i < |r| ==> r[i].size > LargeThreshold
  {
    if xs == [] then []
    else (if xs[0].size > LargeThreshold then [xs[0]] else []) + Large(xs[1..])
  }

  /** `[r for r in results if r[1] <= THRESHOLD]`. */
  function Small(xs: seq<Sample>): (r: seq<Sample>)
    ensures forall i :: 0 <= i < |r| ==> r[i].size <= LargeThreshold
  {
    if xs == [] then []
    else (if xs[0].size <= LargeThreshold then [xs[0]] else []) + Small(xs[1..])
  }

  /** The two filters split the results: together they hold each sample once. */
  lemma {:induction false} LargeSmallPermutes(xs: seq<Sample>)
    ensures multiset(Large(xs)) + multiset(Small(xs)) == multiset(xs)
  {
    if xs != [] {
      LargeSmallPermutes(xs[1..]);
      assert xs == [xs[0]] + xs[1..];
    }
  }

  /** Filtering by the threshold keeps the order among samples of each size. */
  lemma {:induction false} LargeSmallKeepTies(xs: seq<Sample>, n: nat)
    ensures n > LargeThreshold ==> OfSize(Large(xs), n) == OfSize(xs, n) && OfSize(Small(xs), n) == []
    ensures n <= LargeThreshold ==> OfSize(Small(xs), n) == OfSize(xs, n) && OfSize(Large(xs), n) == []
  {
    if xs != [] {
      LargeSmallKeepTies(xs[1..], n);
      var l := if xs[0].size > LargeThreshold then [xs[0]] else [];
      var s := if xs[0].size <= LargeThreshold then [xs[0]] else [];
      OfSizeAppend(l, Large(xs[1..]), n);
      OfSizeAppend(s, Small(xs[1..]), n);
    }
  }

  lemma {:induction false} OfSizeAppend(a: seq<Sample>, b: seq<Sample>, n: nat)
    ensures OfSize(a + b, n) == OfSize(a, n) + OfSize(b, n)
  {
    if a == [] {
      assert a + b == b;
    } else {
      var t := a[1..];
      var h := if a[0].size == n then [a[0]] else [];
      assert (a + b)[0] == a[0] && (a + b)[1..] == t + b;
      OfSizeAppend(t, b, n);
      assert OfSize(a + b, n) == h + OfSize(t + b, n);
      assert OfSize(a, n) == h + OfSize(t, n);
    }
  }

  /** The priority list of one chunk: the large samples sorted largest first, then the small ones. */
  function PriorityList(results: seq<Sample>): seq<Sample> {
    SortBySizeDesc(Large(results)) + Small(results)
  }

  /** Sorting the large samples keeps exactly the large samples. */
  lemma SortedLarge(results: seq<Sample>)
    ensures var sorted := SortBySizeDesc(Large(results));
      |sorted| == |Large(results)| &&
      (forall i :: 0 <= i < |sorted| ==> sorted[i].size > LargeThreshold)
  {
    var large := Large(results);
    var sorted := SortBySizeDesc(large);
    SortBySizeDescPermutes(large);
    assert |multiset(sorted)| == |sorted|;
    assert |multiset(large)| == |large|;
    forall i | 0 <= i < |sorted| ensures sorted[i].size > LargeThreshold {
      assert sorted[i] in multiset(large);
    }
  }

  /** The priority list holds every result exactly once. */
  lemma PriorityListPermutes(results: seq<Sample>)
    ensures multiset(PriorityList(results)) == multiset(results)
    ensures |PriorityList(results)| == |results|
  {
    var p := PriorityList(results);
    SortBySizeDescPermutes(Large(results));
    LargeSmallPermutes(results);
    assert multiset(p) == multiset(results);
    assert |multiset(p)| == |p|;
    assert |multiset(results)| == |results|;
  }

  /**
   * The priority list is a permutation of the results; its first `|Large(results)|`
   * entries are the large ones, largest first, and the rest are the small ones in
   * arrival order.
   */
  lemma PriorityListFacts(results: seq<Sample>)
    ensures multiset(PriorityList(results)) == multiset(results)
    ensures |PriorityList(results)| == |results|
    ensures var p, n := PriorityList(results), |Large(results)|;
      n <= |p| &&
      (forall i :: 0 <= i < n ==> p[i].size > LargeThreshold) &&
      (forall i :: n <= i < |p| ==> p[i].size <= LargeThreshold) &&
      (forall i, j :: 0 <= i < j < n ==> p[i].size >= p[j].size) &&
      p[n..] == Small(results)
  {
    PriorityListPermutes(results);
    SortedLarge(results);
    var sorted := SortBySizeDesc(Large(results));
    var small := Small(results);
    SortBySizeDescOrders(Large(results));
    SplitAt(sorted, small);
  }

  /** Indexing into a concatenation. */
  lemma SplitAt(a: seq<Sample>, b: seq<Sample>)
    ensures (a + b)[|a|..] == b
    ensures forall i :: 0 <= i < |a| ==> (a + b)[i] == a[i]
    ensures forall i :: |a| <= i < |a + b| ==> (a + b)[i] == b[i - |a|]
  {
  }

  /** Samples of equal size keep their arrival order in the priority list. */
  lemma PriorityListStable(results: seq<Sample>, n: nat)
    ensures OfSize(PriorityList(results), n) == OfSize(results, n)
  {
    SortBySizeDescStable(Large(results), n);
    LargeSmallKeepTies(results, n);
    OfSizeAppend(SortBySizeDesc(Large(results)), Small(results), n);
  }

  /** Every large entry of a priority list is larger than every small one. */
  lemma LargeBeforeSmall(results: seq<Sample>, i: nat, j: nat)
    requires i < |Large(results)| <= j < |PriorityList(results)|
    ensures PriorityList(results)[i].size > PriorityList(results)[j].size
  {
    PriorityListFacts(results);
  }

  /** `analyze_all_images(products)`. */
  function AnalyzeAllImages(products: seq<Product>, headSize: string -> Option<nat>, pick: seq<Sample> -> nat): seq<Sample> {
    PriorityList(Arrival(ProbeAll(CollectImages(products), headSize), pick))
  }

  /**
   * The list has one entry per image of the chunk, each carrying its product's
   * id and the probed size (0 for a failed probe), whatever the completion order.
   */
  lemma AnalyzeAllImagesFacts(products: seq<Product>, headSize: string -> Option<nat>, pick: seq<Sample> -> nat)
    ensures var infos := CollectImages(products);
      multiset(AnalyzeAllImages(products, headSize, pick)) == multiset(ProbeAll(infos, headSize)) &&
      |AnalyzeAllImages(products, headSize, pick)| == ImageCount(products)
    ensures forall s :: s in AnalyzeAllImages(products, headSize, pick) ==> s.productId in ProductIds(products)
  {
    AnalyzeAllImagesPermutes(products, headSize, pick);
    var samples := ProbeAll(CollectImages(products), headSize);
    var p := AnalyzeAllImages(products, headSize, pick);
    forall s | s in p ensures s.productId in ProductIds(products) {
      SampleOfChunk(products, headSize, s);
    }
  }

  /** The list is the chunk's probe results in some order. */
  lemma AnalyzeAllImagesPermutes(products: seq<Product>, headSize: string -> Option<nat>, pick: seq<Sample> -> nat)
    ensures multiset(AnalyzeAllImages(products, headSize, pick)) == multiset(ProbeAll(CollectImages(products), headSize))
    ensures |AnalyzeAllImages(products, headSize, pick)| == ImageCount(products)
  {
    var samples := ProbeAll(CollectImages(products), headSize);
    var arrived := Arrival(samples, pick);
    PriorityListPermutes(arrived);
    assert multiset(arrived) == multiset(samples);
    assert |multiset(samples)| == |samples|;
    assert |multiset(arrived)| == |arrived|;
  }

  /** A probe result of the chunk belongs to one of its products. */
  lemma SampleOfChunk(products: seq<Product>, headSize: string -> Option<nat>, s: Sample)
    requires s in multiset(ProbeAll(CollectImages(products), headSize))
    ensures s.productId in ProductIds(products)
  {
    var infos := CollectImages(products);
    var samples := ProbeAll(infos, headSize);
    var j :| 0 <= j < |samples| && samples[j] == s;
    assert infos[j] in infos;
  }

  /** Every image of every product of the chunk is collected. */
  lemma {:induction false} CollectImagesComplete(products: seq<Product>, p: Product, j: nat)
    requires p in products && j < |p.images|
    ensures ImageInfo(p.images[j].src, p.id, p.images[j].id, p.title) in CollectImages(products)
  {
    if products[0] == p {
      assert InfosOf(p)[j] == ImageInfo(p.images[j].src, p.id, p.images[j].id, p.title);
    } else {
      assert p in products[1..];
      CollectImagesComplete(products[1..], p, j);
    }
  }

  /** Every image of every product of the chunk has its probe result in the list. */
  lemma EveryImageProbed(products: seq<Product>, headSize: string -> Option<nat>, pick: seq<Sample> -> nat, p: Product, j: nat)
    requires p in products && j < |p.images|
    ensures ProbeSample(ImageInfo(p.images[j].src, p.id, p.images[j].id, p.title), headSize)
      in AnalyzeAllImages(products, headSize, pick)
  {
    var info := ImageInfo(p.images[j].src, p.id, p.images[j].id, p.title);
    var infos := CollectImages(products);
    CollectImagesComplete(products, p, j);
    var k :| 0 <= k < |infos| && infos[k] == info;
    var samples := ProbeAll(infos, headSize);
    assert samples[k] in multiset(samples);
    AnalyzeAllImagesFacts(products, headSize, pick);
  }
}
