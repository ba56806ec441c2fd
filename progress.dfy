/**
 * The two-set progress ledger of the batch controller: the ids of products
 * already processed and of products found to be fully skipped, each mirrored
 * by a JSON cache file. The files are the ghost `saved…` copies, each being
 * the set the next start would load from it.
 */
module Progress {
  import opened Options
  import opened Catalog

  /** The set read from a cache file; `None` when it is absent or unreadable. */
  function Elements(file: Option<seq<ProductId>>): (s: set<ProductId>)
    ensures file.None? ==> s == {}
    ensures file.Some? ==> forall id :: id in s <==> id in file.value
  {
    if file.None? then {} else set id | id in file.value
  }

  /**
   * How rewriting a cache file ended: the new contents were written, the
   * file could not be opened (it is left as it was), or the file was opened
   * for writing, which empties it, and the dump then raised, which leaves at
   * most a strict prefix of the JSON text: not a JSON list, so the next start
   * loads nothing from it.
   */
  datatype Write = Written | OpenFailed | DumpFailed

  /** The set the next start loads from a file that held `before` and was rewritten with `now`. */
  function AfterWrite(before: set<ProductId>, now: set<ProductId>, write: Write): (saved: set<ProductId>)
    ensures write.Written? ==> saved == now
    ensures write.OpenFailed? ==> saved == before
    ensures write.DumpFailed? ==> saved == {}
  {
    match write
    case Written => now
    case OpenFailed => before
    case DumpFailed => {}
  }

  /** A snapshot of the ledger: both sets and both cache files. */
  datatype Sets = Sets(processed: set<ProductId>, skipped: set<ProductId>, savedProcessed: set<ProductId>, savedSkipped: set<ProductId>)

  class Ledger {
    var processed: set<ProductId>
    var skipped: set<ProductId>
    ghost var savedProcessed: set<ProductId>
    ghost var savedSkipped: set<ProductId>

    /** Every id the cache files hold is also held in memory. */
    ghost predicate Valid()
      reads this
    {
      savedProcessed <= processed && savedSkipped <= skipped
    }

    ghost function Snapshot(): Sets
      reads this
    {
      Sets(processed, skipped, savedProcessed, savedSkipped)
    }

    /** Loads both caches at start-up. */
    constructor Load(skippedFile: Option<seq<ProductId>>, processedFile: Option<seq<ProductId>>)
      ensures Valid()
      ensures skipped == Elements(skippedFile) && processed == Elements(processedFile)
      ensures savedSkipped == skipped && savedProcessed == processed
    {
      skipped := Elements(skippedFile);
      processed := Elements(processedFile);
      savedSkipped := Elements(skippedFile);
      savedProcessed := Elements(processedFile);
    }

    /** The id is in one of the two sets. */
    predicate Handled(id: ProductId)
      reads this
    {
      id in processed || id in skipped
    }

    /** A product whose report file already exists: processed in memory, no file write. */
    method MarkReported(id: ProductId)
      requires Valid()
      modifies this
      ensures Valid()
      ensures processed == old(processed) + {id} && skipped == old(skipped)
      ensures savedProcessed == old(savedProcessed) && savedSkipped == old(savedSkipped)
    {
      processed := processed + {id};
    }

    /** A dispatched product that was fully skipped; the skip cache is then rewritten, ending as `write` says. */
    method RecordSkipped(id: ProductId, write: Write)
      requires Valid()
      modifies this
      ensures Valid()
      ensures skipped == old(skipped) + {id} && processed == old(processed)
      ensures savedSkipped == AfterWrite(old(savedSkipped), skipped, write)
      ensures savedProcessed == old(savedProcessed)
    {
      skipped := skipped + {id};
      savedSkipped := AfterWrite(savedSkipped, skipped, write);
    }

    /** A dispatched product that was processed; the processed cache is then rewritten, ending as `write` says. */
    method RecordProcessed(id: ProductId, write: Write)
      requires Valid()
      modifies this
      ensures Valid()
      ensures processed == old(processed) + {id} && skipped == old(skipped)
      ensures savedProcessed == AfterWrite(old(savedProcessed), processed, write)
      ensures savedSkipped == old(savedSkipped)
    {
      processed := processed + {id};
      savedProcessed := AfterWrite(savedProcessed, processed, write);
    }
  }
}
