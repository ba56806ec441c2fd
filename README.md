# Rolling image-optimisation controller, modelled in Dafny

This project models `run.py`, the batch script that walks the catalogue of a
Shopify store and shrinks its large product images.

- **Chunked streaming.** The catalogue is streamed page by page with a
  `since_id` cursor. Pages are grouped into chunks of `batches_per_yield`
  pages (`Catalog`).
- **Probing and priority order.** Every image of a chunk gets a concurrent
  HEAD request for its size. The results are put in priority order: images
  over 150 KiB first, largest first, then the rest in arrival order
  (`Probe`).
- **Quality search.** Each large image is re-encoded as WebP, starting at
  quality 50 and lowering it by 2 until the file is at most 100 KiB or the
  quality reaches 20 (`Transcode`).
- **Product job.** One call of the product job analyses and optimises a
  product's images. It decides whether to sync them and returns the
  product's "fully skipped" flag (`ProductJob`).
- **Ledger and controller.** A two-set ledger holds processed and skipped
  product ids, each mirrored by a JSON cache file (`Progress`). The main
  loop dispatches the products of each chunk in priority order, records
  each outcome at once, and abandons a chunk early (`Controller` for one
  chunk, `MainLoop` for the loop over chunks):
  - when its first dispatched product is fully skipped;
  - after three fully-skipped dispatches in a row.
- **Store choice.** The automatic store choice is in `Store`. The
  case-folding it uses, and the trimming of the sync prompt's answer, are
  in `Text`.

The outside world is modelled as inputs:
- the store API's answers to successive list calls are a sequence `answers`;
- the completion order of the thread pool is an oracle `pick`;
- a HEAD request is `headSize`;
- a product lookup is `find`;
- an image download is an `Option<Original>`;
- the WebP encoder is a function from quality to output size;
- the existence of a report file is a predicate on product ids;
- how each rewrite of a cache file ends is a function of the product id
  that triggered it: written, not opened (the file is left as it was), or
  opened and then failed while dumping. Opening with `'w'` empties the file
  (run.py:632, 656), so after a failed dump the next start loads nothing
  from it (run.py:528-544).

Four behaviours of the code a reader may not expect; the model follows the code:
- **A failed page fetch keeps what was fetched.** The generator's `break`
  (run.py:122-128) leaves the accumulated products in place, and they are
  yielded as the final chunk (`Catalog.ConsumedUntilError`). They are not
  discarded.
- **A second run is idempotent only partly.**
  - An abandoned chunk leaves its remaining products out of the ledger, so
    a second run dispatches them.
  - A product without images never enters the ledger, so a chunk that
    contains one is probed again on every run.

  `Controller.FinishedChunkHandled` states the part that holds.
- **A product whose lookup raised is recorded as processed.** The job
  returns `False` (run.py:477-479), so the product goes into the processed
  set and is never retried.
- **`total_processed` leaves out the abandoning dispatch.** Both `break`s
  (run.py:637-649) come before the counter is incremented, so the dispatch
  that abandons a chunk is not counted, nor added to
  `all_processed_product_ids`.

## Model

| member | source | states |
|---|---|---|
| Store.Stores | run.py:27-38 | each store key selects its own entry of the table: the store's name, its shop URL and the token typed in for that store |
| Store.AutoSelect | run.py:48-58 | an automatic choice selects JWL iff its lower-cased text is "1" or "jwl", JF iff it is "2" or "jf", and nothing otherwise (fall back to the prompt) |
| Store.AutoSelectIgnoresCase | run.py:49 | lower-casing the choice first does not change the store selected |
| Store.AutoSelectByName | run.py:49-57 | a store's key in any letter case selects that store |
| Store.MainSelectsJf | run.py:519 | the entry point's `select_store(2)` selects the JF store and its shop URL |
| Text.Lower | run.py:49 | lower-casing keeps the length and maps every upper-case letter to its lower-case form, leaving other characters alone |
| Text.LowerIdempotent | run.py:49 | lower-casing twice is lower-casing once |
| Text.Strip | run.py:498 | the result is a slice of the input with only white space cut off before and after it, and no white space left at either end; a string without end blanks is unchanged |
| Catalog.PageOf | run.py:130-136 | a list answer is its products, a single object becomes a one-product page, and an absent or failed answer is an empty page |
| Catalog.SinceParam | run.py:113-119 | the cursor is sent iff it is present and truthy (not 0), and then unchanged |
| Catalog.ConsumedPages | run.py:112-139 | the pages taken in are the leading answers, each non-empty and not a failed call |
| Catalog.ConsumedFull | run.py:161-162 | every page taken in except the last is a full page of 250 |
| Catalog.ConsumedStops | run.py:122-132 | the stream stops only at the end of the answers, at a failed or empty answer, or after a short page |
| Catalog.ConsumedShape | run.py:108-162 | the three facts above together |
| Catalog.ConsumedUntilError | run.py:122-128 | a failed call after full pages ends the stream with exactly the pages before it |
| Catalog.GroupPagesFlatten | run.py:138-167 | the chunks yielded, concatenated, are all consumed products in order: grouping loses, adds and reorders nothing |
| Catalog.GroupPagesNonEmpty | run.py:164-167 | no yielded chunk is empty |
| Catalog.GroupPagesAt | run.py:153-167 | chunk j holds exactly pages j·k to (j+1)·k; only the last chunk may hold fewer than k pages |
| Catalog.ChunkedAccept | run.py:138-157 | taking in a page yields the current chunk exactly when the page count reaches a multiple of k |
| Catalog.ChunkedEnd | run.py:164-167 | at the end of the stream the partial chunk, if non-empty, is the last group |
| Catalog.CursorsAccept | run.py:143 | after a page, the next cursor is the id of the page's last product |
| Catalog.StreamingStops | run.py:122-132 | a failed or empty answer ends the stream with every consumed page taken in |
| Catalog.StreamingAccepts | run.py:138-162 | a non-empty answer keeps the stream's invariant: pages, chunk bookkeeping and cursors |
| Catalog.StreamChunks | run.py:81-174 | the generator yields exactly the consumed pages grouped k at a time (nothing when k is 0); the first call has no cursor, and each later call's cursor is the last id of the page before it |
| Probe.InfosOf | run.py:198-205 | one entry per image of a product, carrying the image's src and id and the product's id and title |
| Probe.CollectImages | run.py:196-205 | one entry per image of the chunk, each naming a product of the chunk |
| Probe.CollectImagesComplete | run.py:196-205 | every image of every product of the chunk is collected |
| Probe.ProbeSample | run.py:176-184 | a probe records the reported Content-Length, or 0 when the request failed or had no length, with the image's identity |
| Probe.ProbeAll | run.py:212-216 | one probe per collected image, in collection order |
| Probe.Arrival | run.py:220-229 | the completion order is a permutation of the submitted probes |
| Probe.Large | run.py:233 | every kept sample is larger than 150 KiB |
| Probe.Small | run.py:234 | every kept sample is at most 150 KiB |
| Probe.LargeSmallPermutes | run.py:232-234 | the two filters split the results: together they hold each sample once |
| Probe.LargeSmallKeepTies | run.py:232-234 | each filter keeps the order of the samples of each size, and the other filter keeps none of them |
| Probe.SortBySizeDescPermutes | run.py:237 | the sort is a permutation |
| Probe.SortBySizeDescOrders | run.py:237 | the sort puts larger samples first |
| Probe.SortBySizeDescStable | run.py:237 | the sort is stable: samples of each size keep their order |
| Probe.InsertBySizeKeepsTies | run.py:237 | insertion puts the new sample before those of its size and keeps their order |
| Probe.PriorityListFacts | run.py:231-240 | the priority list is a permutation of the results: large ones first, sorted largest first, then the small ones in arrival order |
| Probe.PriorityListStable | run.py:237-240 | samples of equal size keep their arrival order |
| Probe.LargeBeforeSmall | run.py:231-240 | every large entry comes before and is larger than every small one |
| Probe.AnalyzeAllImagesFacts | run.py:186-252 | the list holds one entry per image of the chunk, whatever the completion order, each naming a product of the chunk |
| Probe.EveryImageProbed | run.py:196-229 | every image of every product of the chunk has its probe result in the list |
| Transcode.BitDepth | run.py:254-260 | a known mode maps to its depth (1 for "1", 32 for "I" and "F", 8 otherwise); any other mode is unknown |
| Transcode.EncodedMode | run.py:314-315 | a palette image is converted to RGBA before encoding; every other mode is kept |
| Transcode.SearchFacts | run.py:327-336 | the search ends at an even quality in [20, start] whose output is at most 100 KiB or which is 20; every higher quality tried gave more than 100 KiB; when it ends with none, the encoder failed at some even quality in that range |
| Transcode.ResizeAndSave | run.py:294-360 | no result for a failed download or an original under 150 KiB; otherwise the quality loop's result is the search above, starting from 50 (never the 85 branch) |
| ProductJob.Analyze | run.py:262-292 | an analysis exists iff the download succeeded, and carries its size, mode and bit depth |
| ProductJob.RecordsFacts | run.py:462-473 | each record comes from one image that was both analysed and optimised; there is no record iff no image yields one |
| ProductJob.JobSkips | run.py:455-511 | the job reports fully skipped iff the product is missing, or found and either sync is off or no image yields a record; a lookup error is not skipped |
| ProductJob.JobSyncs | run.py:483-507 | the job syncs iff there are records and sync is automatic, or asked and answered yes; a synced product is not skipped |
| ProductJob.AutoSyncSkipsOnlySmall | run.py:302-308 | under automatic sync a found product is fully skipped iff every image failed to probe or download, is under 150 KiB, or hit an encoder failure |
| ProductJob.GetProductImages | run.py:437-511 | the loop over images builds the records in image order, and the result is the job's outcome |
| Progress.Elements | run.py:528-544 | a missing or unreadable cache file gives the empty set, a readable one exactly its ids |
| Progress.Ledger.Load | run.py:528-544 | both sets start as their cache files' contents, which equal the files |
| Progress.Ledger.MarkReported | run.py:609-615 | a product with a report file joins the processed set; no file is written |
| Progress.AfterWrite | run.py:528-535 | what the next start loads from a rewritten cache file: the new set after a successful write, the old contents when the file could not be opened, and nothing after a dump that failed once the open had emptied the file |
| Progress.Ledger.RecordSkipped | run.py:627-635 | the product joins the skipped set and the processed set is unchanged; the skip cache is then what `AfterWrite` says for that rewrite's outcome |
| Progress.Ledger.RecordProcessed | run.py:651-659 | the product joins the processed set and the skipped set is unchanged; the processed cache is then what `AfterWrite` says for that rewrite's outcome |
| Controller.TrailingSkips | run.py:629-653 | the `consecutive_skips` counter is the number of trailing fully-skipped dispatches |
| Controller.SieveExactly | run.py:627-659 | an id gains a set through a dispatch iff it was dispatched with that set's outcome |
| Controller.EligibleInOrderPrefix | run.py:592-649 | what a walk dispatches before it stops is a prefix of what the walk over the whole list dispatches |
| Controller.EligibleInOrderMembers | run.py:595-615 | a full walk dispatches a product iff it appears in the list, is in neither set of the ledger and has no report file |
| Controller.EligibleInOrderDistinct | run.py:596-598 | a full walk dispatches no product twice |
| Controller.GuaranteedExactly | run.py:627-659 | after a chunk's dispatches a cache file is sure to hold a product iff either every rewrite of the file failed to open it and the product was in the file before, or some rewrite succeeded while the whole in-memory set (run.py:632-633, 656-657) held the product, and no later dump of the same file failed; that set is the one before the chunk plus that outcome's dispatches so far and, for the processed file, the products marked processed for their report file before that rewrite (run.py:613) |
| Controller.HeldAtGrows | run.py:609-657 | the in-memory set that a rewrite of a cache file writes, given that the marked products only accumulate, only grows from one dispatch to a later one |
| Controller.LastWriteNone | run.py:627-659 | a cache file has no rewrite in a run of dispatches iff no dispatch had its outcome |
| Controller.GuaranteedKeeps | run.py:627-659 | when no dump of a cache file failed, the file still holds everything it held before, given that memory held it too |
| Controller.GuaranteedLast | run.py:627-659 | when the last rewrite of a cache file succeeded, the file is sure to hold the whole in-memory set before the dispatches plus every dispatch with that file's outcome and, for the processed file, the products marked for their report file before that rewrite |
| Controller.PersistedFacts | run.py:627-659 | from files that held no more than memory: with no failed dump a file keeps what it held; after a successful last rewrite it holds the set before plus that outcome's dispatches and, for the processed file, the products marked for their report file before it; after a failed last dump it is empty; with no rewrite it is unchanged |
| Controller.EmptiedExactly | run.py:627-659 | the last rewrite of a cache file failed in the dump iff some dispatch with that file's outcome failed in the dump and no later dispatch had that outcome |
| Controller.AfterDispatch | run.py:627-659 | a fully-skipped dispatch joins the skipped set, any other the processed set, and the other set is unchanged |
| Controller.WalkKnown | run.py:595-607 | passing over a product handled in the chunk or in the ledger keeps the walk's invariant |
| Controller.WalkReported | run.py:609-615 | marking a product with a report file as processed keeps the walk's invariant |
| Controller.WalkDispatched | run.py:617-669 | a dispatch that does not end the chunk keeps the walk's invariant |
| Controller.WalkAbandons | run.py:637-649 | a fully-skipped first dispatch, or a third fully-skipped dispatch in a row, ends the chunk as abandoned |
| Controller.WalkEnds | run.py:592-671 | reaching the end of the list ends the chunk with every product of the list in the ledger |
| Controller.Visit | run.py:592-669 | one entry of the priority list dispatches its product, appending it and its fully-skipped flag, iff the product is new to the chunk, in neither set and without a report file; it abandons the chunk iff that dispatch is fully skipped and is the chunk's first or ends three in a row; otherwise the walk's invariant is kept |
| Controller.Dispatch | run.py:617-659 | the product is dispatched and its fully-skipped flag appended; the outcome joins the ledger at once; the chunk is abandoned iff the dispatch is fully skipped and is the chunk's first or the third in a row, and then the chunk ends as `Done` says; otherwise the walk's invariant is kept |
| Controller.DispatchChunk | run.py:585-671 | the dispatches are, in list order, a prefix of what a full walk dispatches, and all of it when the chunk is not abandoned; each outcome is the product job's flag and is recorded at once; the chunk is abandoned exactly under the two rules; an unabandoned chunk leaves the whole list in the ledger |
| Controller.ProcessChunk | run.py:558-671 | an empty chunk, a chunk already in the ledger and a chunk without images are passed over without change, and each of these ends is reported iff its condition holds; any other is probed and its priority list walked as `DispatchChunk` says, ending finished or abandoned |
| Controller.DoneFacts | run.py:585-671 | a chunk dispatches no product twice, and only products of the chunk in neither set; an abandoned chunk dispatched at least one; the ledger grows by exactly the dispatched and reported products; both sets only grow, and they stay disjoint |
| Controller.FinishedChunkHandled | run.py:564-615 | a chunk that was not abandoned leaves each of its products that has images in the ledger; a chunk with no imageless product is then passed over next time |
| Controller.FullySkippedMeans | run.py:624 | under automatic sync a dispatch is fully skipped iff the product is missing or none of its images can be optimised |
| MainLoop.DistinctCard | run.py:663-664 | distinct dispatches give as many distinct ids as dispatches |
| MainLoop.ProcessedEffect | run.py:558-671 | however a chunk is processed, its dispatches are distinct, each a product of the chunk in neither set before; the ledger grows by exactly the dispatched and reported products, only grows and stays disjoint; the chunk's count is its dispatches less the abandoning one; a finished chunk leaves its products with images in the ledger |
| MainLoop.HistoryStep | run.py:558-562 | the record of chunks processed so far, each related to the ledgers before and after it, extends by the next chunk |
| MainLoop.RunsSnoc | run.py:558-671 | the loop's totals over one more chunk are the totals so far plus that chunk's: its abandonment, its dispatches appended, its reported products added |
| MainLoop.RanStep | run.py:558-671 | processing one more chunk keeps the main loop's invariant: dispatches distinct, each from its chunk and new to the ledger; the ledger grown by exactly the dispatched and reported products; every finished chunk's products with images in the ledger |
| MainLoop.CountedStep | run.py:660-663 | counting a chunk's non-abandoning dispatches keeps the summary's ids distinct, among the dispatches, with the total their number |
| MainLoop.RanOwned | run.py:558-671 | each dispatched product belongs to a streamed chunk and was in neither set before the run |
| MainLoop.AllCountedSnoc | run.py:660-664 | the dispatches counted over one more chunk are those counted so far followed by that chunk's dispatches less the abandoning one |
| MainLoop.FilesStep | run.py:627-659 | the cache files after one more chunk follow from those before it and how the chunk was processed: each flag is the job's, and the files are as `Persisted` says over all dispatches so far |
| MainLoop.MarksAppend | run.py:609-615 | the products marked for their report file before each dispatch, over two stretches one after the other, are reported ones and only accumulate |
| MainLoop.FiledAppend | run.py:627-659 | two stretches of dispatches that each leave the files as the file invariant says leave them so together |
| MainLoop.FilesFacts | run.py:627-659 | from files that held no more than memory: with no failed dump a file keeps what it held; after a successful last rewrite it holds the set before the run plus every dispatch with that outcome and, for the processed file, every product marked for its report file before that rewrite |
| MainLoop.LoopStep | run.py:558-671 | processing one more chunk keeps the main loop's invariant: history, dispatches, ledger growth, totals and cache files |
| MainLoop.LoopDone | run.py:551-681 | once every chunk is processed, the main loop's invariant gives each of `Run`'s results |
| MainLoop.ProcessChunks | run.py:558-671 | the `for` over the streamed chunks processes each of them in turn, keeping the main loop's invariant |
| MainLoop.Run | run.py:551-681 | the chunks are the catalogue's pages grouped as the generator yields them, one page per chunk; there is one ledger state per chunk boundary, from the loaded ledger to the final one, and each chunk took the ledger from one to the next exactly as `ProcessChunk` says (passed over, or walked and finished or abandoned); the run's dispatches are the chunks' dispatches concatenated and its reported products their union; no product is dispatched twice and each was in neither set before and belongs to a streamed chunk; the ledger grows by exactly the dispatched and reported products and stays disjoint; every product with images of a finished chunk ends in the ledger; `all_processed_product_ids` is exactly the set of the counted dispatches, which are, chunk by chunk, each chunk's dispatches less the abandoning one; `total_processed` is their number, which equals that set's size and is the dispatches less one per abandoned chunk; each outcome is the job's flag; each cache file is as `Persisted` says, so with no failed dump it keeps everything it held at the start, and after a successful last rewrite it holds the ledger's set at the start plus every dispatch with that outcome (run.py:632-633, 656-657) and, for the processed file, every product marked for its report file before that rewrite (run.py:613); the products so marked before each dispatch are reported ones and only accumulate |

## Left out

- Network and file I/O are inputs. These are the HTTP GETs and HEADs, the JSON cache files, the store API, the report and index HTML. `report_generator.py` is not part of this model.
- Image decoding, `thumbnail` resizing and WebP encoding are a size oracle per quality. Width, height, format and channel strings are not modelled.
- `sync_images_to_shopify` is left out: it changes only the remote store, and its result does not affect the return value.
- The thread pool is modelled only through its completion order (`pick`). Timeouts and concurrency are not modelled.
- The token prompts, the store prompt loop and the sync question are inputs; the controller always syncs automatically.
- Logging and progress output are left out.
- Text.Lower: ASCII letters only; Python's Unicode case mapping is not modelled.
- Text.Strip: strips only the ASCII characters Python treats as whitespace (space, 9-13 and 28-31); other Unicode whitespace is not modelled.
- Probe.ProbeSample: sizes are natural numbers, so a negative Content-Length header is not modelled.
- An exception raised by `generate_html_report` or `generate_index_html` outside a `try` is not modelled. It would end the script.
- Catalog.StreamChunks: an error reading the last product's id (run.py:142-146) cannot happen here, because every page taken in is non-empty and product ids are integers.
- Ledger ids are product ids, not their decimal strings; `str` is injective on integers, so set membership agrees.
