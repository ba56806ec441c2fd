/**
 * The catalog stream source (`fetch_products_generator`): pages of products
 * are requested with a `since_id` cursor and grouped into chunks of
 * `batchesPerYield` pages.
 *
 * The list call is replaced by `answers`: `answers[i]` is what the i-th call
 * returns. The catalog is finite, so past the end of `answers` every call
 * returns no batch.
 */
module Catalog {
  import opened Config
  import opened Options
  import Arith

  type ProductId = nat

  datatype Image = Image(id: nat, src: string)

  datatype Product = Product(id: ProductId, title: string, images: seq<Image>)

  /** What one list call gives back. */
  datatype Answer =
    | Batch(products: seq<Product>)   // a list of products, possibly empty
    | Single(product: Product)        // a non-list object, wrapped as a one-element batch
    | NoBatch                         // `None`
    | FetchError                      // the call raised

  type Page = seq<Product>

  /** The products an answer contributes, after the script's normalisation. */
  function PageOf(a: Answer): (p: Page)
    ensures a.Batch? ==> p == a.products
    ensures a.Single? ==> p == [a.product]
    ensures a.NoBatch? || a.FetchError? ==> p == []
  {
    match a
    case Batch(ps) => ps
    case Single(q) => [q]
    case _ => []
  }

  function AnswerAt(answers: seq<Answer>, i: nat): Answer {
    if i < |answers| then answers[i] else NoBatch
  }

  /**
   * The pages the stream takes in: it stops before a failed or empty answer,
   * and after the first page shorter than PageSize.
   */
  function Consumed(answers: seq<Answer>): seq<Page>
    decreases |answers|
  {
    if answers == [] || answers[0].FetchError? || PageOf(answers[0]) == [] then []
    else if |PageOf(answers[0])| < PageSize then [PageOf(answers[0])]
    else [PageOf(answers[0])] + Consumed(answers[1..])
  }

  /** A consumed stream of pages starts with the first page of `answers`. */
  lemma ConsumedCons(answers: seq<Answer>)
    requires answers != [] && !answers[0].FetchError? && |PageOf(answers[0])| >= PageSize
    ensures Consumed(answers) == [PageOf(answers[0])] + Consumed(answers[1..])
  {
  }

  /** Consumed pages are the non-empty, non-failed leading answers. */
  lemma {:induction false} ConsumedPages(answers: seq<Answer>)
    ensures |Consumed(answers)| <= |answers|
    ensures forall i :: 0 <= i < |Consumed(answers)| ==>
      Consumed(answers)[i] == PageOf(answers[i]) && Consumed(answers)[i] != [] && !answers[i].FetchError?
  {
    if answers == [] || answers[0].FetchError? || PageOf(answers[0]) == [] || |PageOf(answers[0])| < PageSize {
    } else {
      var rest := answers[1..];
      ConsumedPages(rest);
      ConsumedCons(answers);
      var c, r := Consumed(answers), Consumed(rest);
      forall i | 0 < i < |c| ensures c[i] == PageOf(answers[i]) && c[i] != [] && !answers[i].FetchError? {
        assert c[i] == r[i - 1] && rest[i - 1] == answers[i];
      }
    }
  }

  /** All consumed pages but the last are full. */
  lemma {:induction false} ConsumedFull(answers: seq<Answer>)
    ensures forall i :: 0 <= i < |Consumed(answers)| - 1 ==> |Consumed(answers)[i]| >= PageSize
  {
    if answers == [] || answers[0].FetchError? || PageOf(answers[0]) == [] || |PageOf(answers[0])| < PageSize {
    } else {
      var rest := answers[1..];
      ConsumedFull(rest);
      ConsumedCons(answers);
      var c, r := Consumed(answers), Consumed(rest);
      forall i | 0 < i < |c| - 1 ensures |c[i]| >= PageSize {
        assert c[i] == r[i - 1];
      }
    }
  }

  /** The stream stops at the end of the answers, a failed call, an empty page or a short page. */
  lemma {:induction false} ConsumedStops(answers: seq<Answer>)
    ensures var n := |Consumed(answers)|;
      n == |answers| || (n < |answers| && (answers[n].FetchError? || PageOf(answers[n]) == [])) ||
      (n > 0 && |Consumed(answers)[n - 1]| < PageSize)
  {
    if answers == [] || answers[0].FetchError? || PageOf(answers[0]) == [] || |PageOf(answers[0])| < PageSize {
    } else {
      var rest := answers[1..];
      ConsumedStops(rest);
      ConsumedCons(answers);
      var c, r := Consumed(answers), Consumed(rest);
      var n := |c|;
      if n < |answers| {
        assert answers[n] == rest[n - 1];
      }
      if |r| > 0 {
        assert c[n - 1] == r[|r| - 1];
      }
    }
  }

  /**
   * Consumed pages are the non-empty leading answers; all but the last are
   * full, and the stream reads on past a page only when it is full.
   */
  lemma {:induction false} ConsumedShape(answers: seq<Answer>)
    ensures |Consumed(answers)| <= |answers|
    ensures forall i :: 0 <= i < |Consumed(answers)| ==>
      Consumed(answers)[i] == PageOf(answers[i]) && Consumed(answers)[i] != [] && !answers[i].FetchError?
    ensures forall i :: 0 <= i < |Consumed(answers)| - 1 ==> |Consumed(answers)[i]| >= PageSize
    ensures var n := |Consumed(answers)|;
      n == |answers| || answers[n].FetchError? || PageOf(answers[n]) == [] ||
      (n > 0 && |Consumed(answers)[n - 1]| < PageSize)
  {
    ConsumedPages(answers);
    ConsumedFull(answers);
    ConsumedStops(answers);
  }

  /**
   * A failed call after some full pages ends the stream, and the pages already
   * taken in are kept (they are still yielded, as the final chunk).
   */
  lemma {:induction false} ConsumedUntilError(answers: seq<Answer>, m: nat)
    requires m < |answers| && answers[m].FetchError?
    requires forall j :: 0 <= j < m ==> !answers[j].FetchError? && |PageOf(answers[j])| >= PageSize
    ensures Consumed(answers) == seq(m, j requires 0 <= j < m => PageOf(answers[j]))
  {
    if m == 0 {
    } else {
      assert PageOf(answers[0]) != [] by {
        assert |PageOf(answers[0])| >= PageSize;
      }
      ConsumedUntilError(answers[1..], m - 1);
      assert Consumed(answers) == [PageOf(answers[0])] + Consumed(answers[1..]);
    }
  }

  function Concat(pages: seq<Page>): (products: seq<Product>)
    ensures pages == [] ==> products == []
  {
    if pages == [] then [] else pages[0] + Concat(pages[1..])
  }

  lemma {:induction false} ConcatAppend(a: seq<Page>, b: seq<Page>)
    ensures Concat(a + b) == Concat(a) + Concat(b)
  {
    if a == [] {
      assert a + b == b;
    } else {
      assert (a + b)[1..] == a[1..] + b;
      ConcatAppend(a[1..], b);
    }
  }

  lemma {:induction false} ConcatNonEmpty(pages: seq<Page>)
    requires pages != [] && forall i :: 0 <= i < |pages| ==> pages[i] != []
    ensures Concat(pages) != []
  {
  }

  /**
   * The chunks emitted from `pages`: consecutive groups of `k` pages, each
   * flattened; the last group may be shorter.
   */
  function GroupPages(pages: seq<Page>, k: nat): seq<seq<Product>>
    requires k > 0
    decreases |pages|
  {
    if pages == [] then []
    else if |pages| <= k then [Concat(pages)]
    else [Concat(pages[..k])] + GroupPages(pages[k..], k)
  }

  /** Grouping loses, adds and reorders no product. */
  lemma {:induction false} GroupPagesFlatten(pages: seq<Page>, k: nat)
    requires k > 0
    ensures Concat(GroupPages(pages, k)) == Concat(pages)
  {
    if pages == [] {
    } else if |pages| <= k {
      assert Concat([Concat(pages)]) == Concat(pages) + Concat([]);
    } else {
      var g := GroupPages(pages, k);
      assert g == [Concat(pages[..k])] + GroupPages(pages[k..], k);
      assert g[1..] == GroupPages(pages[k..], k);
      GroupPagesFlatten(pages[k..], k);
      assert pages == pages[..k] + pages[k..];
      ConcatAppend(pages[..k], pages[k..]);
    }
  }

  /** No chunk is empty when no page is. */
  lemma {:induction false} GroupPagesNonEmpty(pages: seq<Page>, k: nat)
    requires k > 0
    requires forall i :: 0 <= i < |pages| ==> pages[i] != []
    ensures forall j :: 0 <= j < |GroupPages(pages, k)| ==> GroupPages(pages, k)[j] != []
  {
    if pages == [] {
    } else if |pages| <= k {
      ConcatNonEmpty(pages);
    } else {
      ConcatNonEmpty(pages[..k]);
      GroupPagesNonEmpty(pages[k..], k);
    }
  }

  /**
   * Chunk `j` holds exactly pages `j*k .. (j+1)*k` (the last one up to the
   * end): every chunk but the last is made of exactly `k` pages.
   */
  lemma GroupPagesAt(pages: seq<Page>, k: nat, j: nat)
    requires k > 0 && j < |GroupPages(pages, k)|
    ensures j * k < |pages|
    ensures j < |GroupPages(pages, k)| - 1 ==>
      (j + 1) * k < |pages| && GroupPages(pages, k)[j] == Concat(pages[j * k..(j + 1) * k])
    ensures j == |GroupPages(pages, k)| - 1 ==>
      |pages| <= (j + 1) * k && GroupPages(pages, k)[j] == Concat(pages[j * k..])
  {
    GroupAtStart(pages, k, j);
    ChunkStartIsProduct(j, k);
    ChunkStartIsProduct(j + 1, k);
  }

  /** The index of the first page of chunk `j`, counted without multiplying. */
  function ChunkStart(j: nat, k: nat): nat
  {
    if j == 0 then 0 else ChunkStart(j - 1, k) + k
  }

  lemma {:induction false} ChunkStartIsProduct(j: nat, k: nat)
    ensures ChunkStart(j, k) == j * k
  {
    if j > 0 {
      ChunkStartIsProduct(j - 1, k);
      Arith.MulSucc(j - 1, k);
    }
  }

  /** GroupPagesAt, with chunk boundaries given by ChunkStart. */
  lemma {:induction false} GroupAtStart(pages: seq<Page>, k: nat, j: nat)
    requires k > 0 && j < |GroupPages(pages, k)|
    ensures ChunkStart(j, k) < |pages|
    ensures j < |GroupPages(pages, k)| - 1 ==>
      ChunkStart(j + 1, k) < |pages| && GroupPages(pages, k)[j] == Concat(pages[ChunkStart(j, k)..ChunkStart(j + 1, k)])
    ensures j == |GroupPages(pages, k)| - 1 ==>
      |pages| <= ChunkStart(j + 1, k) && GroupPages(pages, k)[j] == Concat(pages[ChunkStart(j, k)..])
  {
    var g := GroupPages(pages, k);
    if |pages| <= k {
      assert g == [Concat(pages)];
    } else if j == 0 {
      GroupLength(pages[k..], k);
      assert g == [Concat(pages[..k])] + GroupPages(pages[k..], k);
    } else {
      var rest := pages[k..];
      var h := GroupPages(rest, k);
      assert g == [Concat(pages[..k])] + h;
      assert |g| == |h| + 1 && g[j] == h[j - 1];
      GroupAtStart(rest, k, j - 1);
      var lo := ChunkStart(j - 1, k);
      assert ChunkStart(j, k) == k + lo;
      DropTail(pages, k, lo);
      if j < |g| - 1 {
        assert ChunkStart(j + 1, k) == k + lo + k;
        DropRange(pages, k, lo, lo + k);
      }
    }
  }

  /** Dropping `k` pages and then `lo` more drops `k + lo`. */
  lemma DropTail(pages: seq<Page>, k: nat, lo: nat)
    requires k + lo <= |pages|
    ensures pages[k..][lo..] == pages[k + lo..]
  {
    forall i | 0 <= i < |pages| - (k + lo) ensures pages[k..][lo..][i] == pages[k + lo..][i] {
    }
  }

  /** A range of the pages after the first `k`, shifted by `k`. */
  lemma DropRange(pages: seq<Page>, k: nat, lo: nat, hi: nat)
    requires lo <= hi && k + hi <= |pages|
    ensures pages[k..][lo..hi] == pages[k + lo..k + hi]
  {
    forall i | 0 <= i < hi - lo ensures pages[k..][lo..hi][i] == pages[k + lo..k + hi][i] {
    }
  }

  lemma {:induction false} GroupLength(pages: seq<Page>, k: nat)
    requires k > 0
    ensures pages == [] <==> GroupPages(pages, k) == []
  {
  }

  /** Appending a group of at most `k` pages to `n` whole chunks adds one chunk. */
  lemma {:induction false} GroupPagesSnoc(a: seq<Page>, g: seq<Page>, k: nat, n: nat)
    requires k > 0 && |a| == n * k && 0 < |g| <= k
    ensures GroupPages(a + g, k) == GroupPages(a, k) + [Concat(g)]
  {
    if n == 0 {
      assert a + g == g;
    } else {
      assert |a| == (n - 1) * k + k;
      assert (a + g)[..k] == a[..k];
      assert (a + g)[k..] == a[k..] + g;
      GroupPagesSnoc(a[k..], g, k, n - 1);
    }
  }

  /** The `since_id` argument of a list call: Python passes it only when truthy. */
  function SinceParam(sinceId: Option<ProductId>): (p: Option<ProductId>)
    ensures p.Some? <==> sinceId.Some? && sinceId.value != 0
    ensures p.Some? ==> p == sinceId
  {
    if sinceId.Some? && sinceId.value != 0 then sinceId else None
  }

  function LastId(page: Page): ProductId
    requires page != []
  {
    page[|page| - 1].id
  }

  /**
   * The chunk bookkeeping after some pages: `chunks` groups the first `start`
   * pages (`n` whole chunks) and `chunk` flattens the fewer than `k` pages since.
   */
  ghost predicate Chunked(k: nat, pages: seq<Page>, start: nat, n: nat, chunk: seq<Product>, chunks: seq<seq<Product>>) {
    (forall j :: 0 <= j < |pages| ==> pages[j] != []) &&
    (k == 0 ==> pages == [] && chunk == [] && chunks == []) &&
    (k > 0 ==>
      start == n * k && start <= |pages| && |pages| - start < k &&
      chunks == GroupPages(pages[..start], k) && chunk == Concat(pages[start..]))
  }

  /** Whether the page count reaches a multiple of `k` when the current chunk fills up. */
  lemma CountReachesMultiple(count: nat, start: nat, n: nat, k: nat)
    requires k > 0 && start == n * k && start <= count && count - start < k
    ensures (count + 1) % k == 0 <==> count + 1 - start == k
    ensures count + 1 - start == k ==> count + 1 == (n + 1) * k
  {
    if count + 1 - start == k {
      assert count + 1 == (n + 1) * k + 0;
      Arith.ModUnique(count + 1, k, n + 1, 0);
    } else {
      Arith.ModUnique(count + 1, k, n, count + 1 - start);
    }
  }

  /** Taking in a non-empty page: the chunk is yielded exactly when the page count reaches a multiple of `k`. */
  lemma ChunkedAccept(k: nat, pages: seq<Page>, start: nat, n: nat, chunk: seq<Product>, chunks: seq<seq<Product>>, batch: Page)
    requires k > 0 && batch != [] && Chunked(k, pages, start, n, chunk, chunks)
    ensures (|pages| + 1) % k == 0 ==>
      Chunked(k, pages + [batch], |pages| + 1, n + 1, [], chunks + [chunk + batch])
    ensures (|pages| + 1) % k != 0 ==>
      Chunked(k, pages + [batch], start, n, chunk + batch, chunks)
  {
    CountReachesMultiple(|pages|, start, n, k);
    var next := pages + [batch];
    assert next[start..] == pages[start..] + [batch];
    ConcatAppend(pages[start..], [batch]);
    assert Concat(next[start..]) == chunk + batch;
    assert next[..start] == pages[..start];
    assert forall j :: 0 <= j < |next| ==> next[j] != [];
    if |pages| + 1 - start == k {
      ChunkCompleted(next, start, n, k);
      assert next[..|next|] == next;
      assert next[|next|..] == [];
      assert GroupPages(next[..|pages| + 1], k) == chunks + [chunk + batch];
    }
  }

  lemma ChunkCompleted(pages: seq<Page>, start: nat, n: nat, k: nat)
    requires k > 0 && start == n * k && start < |pages| && |pages| - start == k
    ensures GroupPages(pages, k) == GroupPages(pages[..start], k) + [Concat(pages[start..])]
  {
    assert pages == pages[..start] + pages[start..];
    GroupPagesSnoc(pages[..start], pages[start..], k, n);
  }

  /** At the end of the stream the partly filled chunk, if any, is the last group. */
  lemma ChunkedEnd(k: nat, pages: seq<Page>, start: nat, n: nat, chunk: seq<Product>, chunks: seq<seq<Product>>)
    requires k > 0 && Chunked(k, pages, start, n, chunk, chunks)
    ensures (if chunk != [] then chunks + [chunk] else chunks) == GroupPages(pages, k)
  {
    if start < |pages| {
      ConcatNonEmpty(pages[start..]);
      assert pages == pages[..start] + pages[start..];
      GroupPagesSnoc(pages[..start], pages[start..], k, n);
    } else {
      assert pages[..start] == pages;
    }
  }

  /** The cursors sent so far, for the pages taken in so far. */
  ghost predicate Cursors(pages: seq<Page>, requests: seq<Option<ProductId>>) {
    |requests| >= 1 && requests[0] == None && |requests| <= |pages| + 1 &&
    forall j :: 0 <= j < |requests| - 1 ==> pages[j] != [] && requests[j + 1] == SinceParam(Some(LastId(pages[j])))
  }

  /** Taking in a page keeps the cursors sent so far, and fixes the next one. */
  lemma CursorsAccept(pages: seq<Page>, requests: seq<Option<ProductId>>, batch: Page)
    requires Cursors(pages, requests) && |requests| == |pages| + 1 && batch != []
    ensures Cursors(pages + [batch], requests)
    ensures Cursors(pages + [batch], requests + [SinceParam(Some(LastId(batch)))])
  {
    var next := pages + [batch];
    assert forall j :: 0 <= j < |pages| ==> next[j] == pages[j];
    assert next[|pages|] == batch;
  }

  /** The stream's view of the answers: what has been taken in and what is still to come. */
  ghost predicate Reading(answers: seq<Answer>, i: nat, pages: seq<Page>) {
    i <= |answers| && |pages| == i && Consumed(answers) == pages + Consumed(answers[i..]) &&
    forall j :: 0 <= j < |pages| ==> |pages[j]| >= PageSize
  }

  /** A failed or empty answer ends the stream with exactly the pages taken in. */
  lemma ReadingStops(answers: seq<Answer>, i: nat, pages: seq<Page>)
    requires Reading(answers, i, pages)
    requires AnswerAt(answers, i).FetchError? || PageOf(AnswerAt(answers, i)) == []
    ensures Consumed(answers) == pages
  {
    ConsumedStep(answers, i);
    assert pages + [] == pages;
  }

  /** A non-empty answer is the next consumed page; a short one is the last. */
  lemma ReadingAccepts(answers: seq<Answer>, i: nat, pages: seq<Page>)
    requires Reading(answers, i, pages)
    requires !AnswerAt(answers, i).FetchError? && PageOf(AnswerAt(answers, i)) != []
    ensures |PageOf(AnswerAt(answers, i))| < PageSize ==> Consumed(answers) == pages + [PageOf(AnswerAt(answers, i))]
    ensures |PageOf(AnswerAt(answers, i))| >= PageSize ==> Reading(answers, i + 1, pages + [PageOf(AnswerAt(answers, i))])
  {
    ConsumedStep(answers, i);
    var p := PageOf(AnswerAt(answers, i));
    assert pages + ([p] + Consumed(answers[i + 1..])) == (pages + [p]) + Consumed(answers[i + 1..]);
  }

  /** One list call, seen from the pages consumed: the answer decides whether the stream goes on. */
  lemma ConsumedStep(answers: seq<Answer>, i: nat)
    requires i <= |answers|
    ensures AnswerAt(answers, i).FetchError? || PageOf(AnswerAt(answers, i)) == [] ==>
      Consumed(answers[i..]) == []
    ensures !AnswerAt(answers, i).FetchError? && PageOf(AnswerAt(answers, i)) != [] ==>
      i < |answers| && Consumed(answers[i..]) ==
        [PageOf(answers[i])] + (if |PageOf(answers[i])| < PageSize then [] else Consumed(answers[i + 1..]))
  {
    if i < |answers| {
      assert answers[i..][0] == answers[i];
      assert answers[i..][1..] == answers[i + 1..];
    }
  }

  /**
   * The generator's state after `i` list calls: `pages` taken in, the chunk
   * bookkeeping, the cursor for the next call, and the cursors sent. Once
   * `done`, every consumed page has been taken in.
   */
  ghost predicate Streaming(answers: seq<Answer>, k: nat, i: nat, pages: seq<Page>, start: nat, n: nat,
                            chunk: seq<Product>, chunks: seq<seq<Product>>,
                            requests: seq<Option<ProductId>>, sinceId: Option<ProductId>, done: bool) {
    |pages| == i &&
    (!done ==> Reading(answers, i, pages)) &&
    (done ==> Consumed(answers) == pages) &&
    Chunked(k, pages, start, n, chunk, chunks) &&
    sinceId == (if pages == [] then None else Some(LastId(pages[|pages| - 1]))) &&
    (!done ==> Cursors(pages, requests + [SinceParam(sinceId)]) && |requests| == |pages|) &&
    (done ==> Cursors(pages, requests) && |pages| <= |requests|)
  }

  /** A failed or empty answer ends the stream. */
  lemma StreamingStops(answers: seq<Answer>, k: nat, i: nat, pages: seq<Page>, start: nat, n: nat,
                       chunk: seq<Product>, chunks: seq<seq<Product>>,
                       requests: seq<Option<ProductId>>, sinceId: Option<ProductId>)
    requires Streaming(answers, k, i, pages, start, n, chunk, chunks, requests, sinceId, false)
    requires AnswerAt(answers, i).FetchError? || PageOf(AnswerAt(answers, i)) == []
    ensures Streaming(answers, k, i, pages, start, n, chunk, chunks, requests + [SinceParam(sinceId)], sinceId, true)
  {
    ReadingStops(answers, i, pages);
  }

  /**
   * A non-empty answer is taken in: it joins the current chunk, which is
   * yielded once the page count reaches a multiple of `k`; a short page ends
   * the stream.
   */
  lemma StreamingAccepts(answers: seq<Answer>, k: nat, i: nat, pages: seq<Page>, start: nat, n: nat,
                         chunk: seq<Product>, chunks: seq<seq<Product>>,
                         requests: seq<Option<ProductId>>, sinceId: Option<ProductId>, batch: Page)
    requires k > 0 && Streaming(answers, k, i, pages, start, n, chunk, chunks, requests, sinceId, false)
    requires !AnswerAt(answers, i).FetchError? && batch == PageOf(AnswerAt(answers, i)) && batch != []
    ensures (i + 1) % k == 0 ==>
      Streaming(answers, k, i + 1, pages + [batch], i + 1, n + 1, [], chunks + [chunk + batch],
                requests + [SinceParam(sinceId)], Some(LastId(batch)), |batch| < PageSize)
    ensures (i + 1) % k != 0 ==>
      Streaming(answers, k, i + 1, pages + [batch], start, n, chunk + batch, chunks,
                requests + [SinceParam(sinceId)], Some(LastId(batch)), |batch| < PageSize)
  {
    var sent := requests + [SinceParam(sinceId)];
    var next := pages + [batch];
    ReadingAccepts(answers, i, pages);
    assert |batch| < PageSize ==> Consumed(answers) == next;
    assert |batch| >= PageSize ==> Reading(answers, i + 1, next);
    CursorsAccept(pages, sent, batch);
    assert Cursors(next, sent) && Cursors(next, sent + [SinceParam(Some(LastId(batch)))]);
    ChunkedAccept(k, pages, start, n, chunk, chunks, batch);
    assert next[|next| - 1] == batch;
  }

  /**
   * Runs the generator to its end. `requests[i]` is the cursor sent with the
   * i-th list call; `chunks` are the chunks yielded, in order.
   */
  method StreamChunks(answers: seq<Answer>, batchesPerYield: nat)
    returns (chunks: seq<seq<Product>>, requests: seq<Option<ProductId>>)
    ensures batchesPerYield > 0 ==> chunks == GroupPages(Consumed(answers), batchesPerYield)
    ensures batchesPerYield == 0 ==> chunks == []
    ensures |requests| >= 1 && requests[0] == None
    ensures batchesPerYield > 0 ==>
      var pages := Consumed(answers);
      |pages| <= |requests| <= |pages| + 1 &&
      forall i :: 0 <= i < |requests| - 1 ==>
        pages[i] != [] && requests[i + 1] == SinceParam(Some(LastId(pages[i])))
  {
    var chunk: seq<Product> := [];
    var sinceId: Option<ProductId> := None;
    var batchCount: nat := 0;
    var done := false;
    ghost var pages: seq<Page> := [];
    ghost var start: nat := 0;
    ghost var n: nat := 0;
    chunks, requests := [], [];
    while !done
      invariant Streaming(answers, batchesPerYield, batchCount, pages, start, n, chunk, chunks, requests, sinceId, done)
      decreases !done, |answers| - batchCount
    {
      var answer := AnswerAt(answers, batchCount);
      if answer.FetchError? || PageOf(answer) == [] {
        StreamingStops(answers, batchesPerYield, batchCount, pages, start, n, chunk, chunks, requests, sinceId);
        requests := requests + [SinceParam(sinceId)];
        done := true;
      } else if batchesPerYield == 0 {
        // `batch_count % 0` raises; the generator's handler ends the stream
        // without yielding the accumulated products.
        requests := requests + [SinceParam(sinceId)];
        return;
      } else {
        var batch := PageOf(answer);
        StreamingAccepts(answers, batchesPerYield, batchCount, pages, start, n, chunk, chunks, requests, sinceId, batch);
        requests := requests + [SinceParam(sinceId)];
        chunk := chunk + batch;
        batchCount := batchCount + 1;
        pages := pages + [batch];
        sinceId := Some(batch[|batch| - 1].id);
        if batchCount % batchesPerYield == 0 {
          chunks := chunks + [chunk];
          chunk := [];
          start, n := |pages|, n + 1;
        }
        done := |batch| < PageSize;
      }
    }
    if batchesPerYield > 0 {
      ChunkedEnd(batchesPerYield, pages, start, n, chunk, chunks);
    }
    if chunk != [] {
      chunks := chunks + [chunk];
    }
  }
}
