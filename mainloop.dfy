/**
 * The controller's outer loop (the `__main__` loop over chunks): streams the
 * catalogue one page per chunk, processes each chunk in turn, and keeps the
 * final summary's counts.
 */
module MainLoop {
  import opened Options
  import opened Config
  import opened Catalog
  import opened Probe
  import opened Progress
  import opened Controller

  /** A sequence without repeats has as many distinct elements as entries. */
  lemma {:induction false} DistinctCard(s: seq<ProductId>)
    requires forall i, j :: 0 <= i < j < |s| ==> s[i] != s[j]
    ensures |Elems(s)| == |s|
  {
    if s != [] {
      var n := |s| - 1;
      DistinctCard(s[..n]);
      assert Elems(s) == Elems(s[..n]) + {s[n]} by {
        forall id | id in Elems(s) ensures id in Elems(s[..n]) + {s[n]} {
          var j :| 0 <= j < |s| && s[j] == id;
          if j < n {
            assert s[..n][j] == id;
          }
        }
      }
      assert s[n] !in Elems(s[..n]) by {
        forall j | 0 <= j < n ensures s[..n][j] != s[n] {
        }
      }
    }
  }

  /** The number of abandoned chunks. */
  function Abandonments(runs: seq<ChunkRun>): (n: nat)
    ensures n <= |runs|
  {
    if runs == [] then 0
    else Abandonments(runs[..|runs| - 1]) + (if runs[|runs| - 1].end == Abandoned then 1 else 0)
  }

  /** The products the chunks dispatched, chunk after chunk. */
  function AllDispatched(runs: seq<ChunkRun>): seq<ProductId> {
    if runs == [] then [] else AllDispatched(runs[..|runs| - 1]) + runs[|runs| - 1].dispatched
  }

  /** The products the chunks passed over for their report file. */
  function AllReported(runs: seq<ChunkRun>): set<ProductId> {
    if runs == [] then {} else AllReported(runs[..|runs| - 1]) + runs[|runs| - 1].reported
  }

  /** The sets `marks` each joined with `r`. */
  function Shift(r: set<ProductId>, marks: seq<set<ProductId>>): (s: seq<set<ProductId>>)
    ensures |s| == |marks| && forall j :: 0 <= j < |marks| ==> s[j] == r + marks[j]
  {
    seq(|marks|, j requires 0 <= j < |marks| => r + marks[j])
  }

  /**
   * For each dispatch of the chunks, chunk after chunk, the products found
   * to have a report file before it: those of the earlier chunks and those
   * of its own chunk before it.
   */
  function AllMarks(runs: seq<ChunkRun>): seq<set<ProductId>> {
    if runs == [] then []
    else
      var prefix := runs[..|runs| - 1];
      AllMarks(prefix) + Shift(AllReported(prefix), runs[|runs| - 1].marks)
  }

  /** Processing a chunk, as a relation between the ledger before, the chunk, what was done, and the ledger after. */
  ghost function ChunkStep(env: Env): (Sets, seq<Product>, ChunkRun, Sets) -> bool {
    (before, chunk, r, after) => Processed(before, chunk, env, r, after)
  }

  /**
   * The chunks have been processed one after another from the ledger
   * `start`, each as `step` relates it: `befores[c]` is the ledger before
   * chunk `c`, and the last one is the ledger after them all.
   */
  ghost predicate History(start: Sets, chunks: seq<seq<Product>>, step: (Sets, seq<Product>, ChunkRun, Sets) -> bool,
                          runs: seq<ChunkRun>, befores: seq<Sets>) {
    |runs| <= |chunks| && |befores| == |runs| + 1 && befores[0] == start &&
    forall c :: 0 <= c < |runs| ==> step(befores[c], chunks[c], runs[c], befores[c + 1])
  }

  /** Processing one more chunk extends the history by it. */
  lemma HistoryStep(start: Sets, chunks: seq<seq<Product>>, step: (Sets, seq<Product>, ChunkRun, Sets) -> bool,
                    runs: seq<ChunkRun>, befores: seq<Sets>, r: ChunkRun, now: Sets)
    requires History(start, chunks, step, runs, befores) && |runs| < |chunks|
    requires step(befores[|runs|], chunks[|runs|], r, now)
    ensures History(start, chunks, step, runs + [r], befores + [now])
  {
    var runs', befores' := runs + [r], befores + [now];
    forall c | 0 <= c < |runs'| ensures step(befores'[c], chunks[c], runs'[c], befores'[c + 1]) {
      if c < |runs| {
        assert runs'[c] == runs[c] && befores'[c] == befores[c] && befores'[c + 1] == befores[c + 1];
      } else {
        assert runs'[c] == r && befores'[c] == befores[c] && befores'[c + 1] == now;
      }
    }
  }

  /** The totals over the chunks after one more. */
  lemma RunsSnoc(runs: seq<ChunkRun>, r: ChunkRun)
    ensures Abandonments(runs + [r]) == Abandonments(runs) + (if r.end == Abandoned then 1 else 0)
    ensures AllDispatched(runs + [r]) == AllDispatched(runs) + r.dispatched
    ensures AllReported(runs + [r]) == AllReported(runs) + r.reported
    ensures AllOutcomes(runs + [r]) == AllOutcomes(runs) + r.outcomes
    ensures AllMarks(runs + [r]) == AllMarks(runs) + Shift(AllReported(runs), r.marks)
  {
    assert (runs + [r])[..|runs|] == runs;
  }

  /** The fully-skipped flags of the chunks' dispatches, chunk after chunk. */
  function AllOutcomes(runs: seq<ChunkRun>): seq<bool> {
    if runs == [] then [] else AllOutcomes(runs[..|runs| - 1]) + runs[|runs| - 1].outcomes
  }

  /** Each chunk's count is at most its dispatches. */
  ghost predicate CountsFit(runs: seq<ChunkRun>) {
    forall c :: 0 <= c < |runs| ==> runs[c].counted <= |runs[c].dispatched|
  }

  /** The dispatches the summary counts, chunk after chunk: each chunk's dispatches less the abandoning one. */
  function AllCounted(runs: seq<ChunkRun>): seq<ProductId>
    requires CountsFit(runs)
  {
    if runs == [] then []
    else
      var r := runs[|runs| - 1];
      AllCounted(runs[..|runs| - 1]) + r.dispatched[..r.counted]
  }

  lemma AllCountedSnoc(runs: seq<ChunkRun>, r: ChunkRun)
    requires CountsFit(runs) && r.counted <= |r.dispatched|
    ensures CountsFit(runs + [r]) && AllCounted(runs + [r]) == AllCounted(runs) + r.dispatched[..r.counted]
  {
    assert (runs + [r])[..|runs|] == runs;
  }

  /**
   * The files after the dispatches `d` with flags `o`, the products `rep`
   * being found to have a report file and `marks` saying which of them
   * before each dispatch, from the ledger `start` to `now`: each flag is the
   * job's, the files are as `Persisted` says, and each set held in memory
   * holds its dispatches, the processed one also the reported products.
   */
  ghost predicate Filed(start: Sets, env: Env, d: seq<ProductId>, o: seq<bool>, marks: seq<set<ProductId>>,
                        rep: set<ProductId>, now: Sets) {
    Judged(env, d, o) && Persisted(start, env, d, o, marks, now) && MarksFit(marks, rep) &&
    start.skipped + Sieve(d, o, true) <= now.skipped && start.processed + Sieve(d, o, false) + rep <= now.processed
  }

  /** Every way of processing a chunk leaves the files as `Filed` says. */
  lemma ProcessedFiled(before: Sets, chunk: seq<Product>, env: Env, r: ChunkRun, now: Sets)
    requires Processed(before, chunk, env, r, now)
    ensures Filed(before, env, r.dispatched, r.outcomes, r.marks, r.reported, now)
  {
  }

  /** The marks of two runs of dispatches one after the other, the second's joined with the first's reports. */
  lemma MarksAppend(m1: seq<set<ProductId>>, r1: set<ProductId>, m2: seq<set<ProductId>>, r2: set<ProductId>)
    requires MarksFit(m1, r1) && MarksFit(m2, r2)
    ensures MarksFit(m1 + Shift(r1, m2), r1 + r2)
  {
    var m := m1 + Shift(r1, m2);
    forall i, j | 0 <= i < j < |m| ensures m[i] <= m[j] {
      if j < |m1| {
        assert m[i] == m1[i] && m[j] == m1[j];
      } else if i < |m1| {
        assert m[i] == m1[i] && m[j] == r1 + m2[j - |m1|];
      } else {
        assert m[i] == r1 + m2[i - |m1|] && m[j] == r1 + m2[j - |m1|];
      }
    }
  }

  /** The dispatches with outcome `flag` of two runs of dispatches one after the other. */
  lemma {:induction false} SieveAppend(d1: seq<ProductId>, o1: seq<bool>, d2: seq<ProductId>, o2: seq<bool>, flag: bool)
    requires |o1| == |d1| && |o2| == |d2|
    ensures Sieve(d1 + d2, o1 + o2, flag) == Sieve(d1, o1, flag) + Sieve(d2, o2, flag)
  {
    if d2 == [] {
      assert d1 + d2 == d1 && o1 + o2 == o1;
    } else {
      var n := |d2| - 1;
      SieveAppend(d1, o1, d2[..n], o2[..n], flag);
      assert d1 + d2 == (d1 + d2[..n]) + [d2[n]] && o1 + o2 == (o1 + o2[..n]) + [o2[n]];
      SieveSnoc(d1 + d2[..n], o1 + o2[..n], d2[n], o2[n], flag);
    }
  }

  /** The last rewrite of a file over two runs of dispatches is the second run's, if it has one. */
  lemma {:induction false} LastWriteAppend(env: Env, d1: seq<ProductId>, o1: seq<bool>, d2: seq<ProductId>, o2: seq<bool>,
                                           flag: bool)
    requires |o1| == |d1| && |o2| == |d2|
    ensures LastWrite(env, d1 + d2, o1 + o2, flag) ==
      if LastWrite(env, d2, o2, flag) == None then LastWrite(env, d1, o1, flag) else LastWrite(env, d2, o2, flag)
  {
    if d2 == [] {
      assert d1 + d2 == d1 && o1 + o2 == o1;
    } else {
      var n := |d2| - 1;
      LastWriteAppend(env, d1, o1, d2[..n], o2[..n], flag);
      assert d1 + d2 == (d1 + d2[..n]) + [d2[n]] && o1 + o2 == (o1 + o2[..n]) + [o2[n]];
      LastWriteSnoc(env, d1 + d2[..n], o1 + o2[..n], d2[n], o2[n], flag);
    }
  }

  /**
   * What the dispatches `d1` then `d2` guarantee in a file from the ledger
   * `start`, the ledger after `d1` being `mid` and the products found to
   * have a report file during `d1` being `r1`, is guaranteed by `d2` alone
   * from `mid`.
   */
  lemma {:induction false} GuaranteedAppend(start: Sets, mid: Sets, env: Env, d1: seq<ProductId>, o1: seq<bool>,
                                            m1: seq<set<ProductId>>, r1: set<ProductId>,
                                            d2: seq<ProductId>, o2: seq<bool>, m2: seq<set<ProductId>>, flag: bool)
    requires |o1| == |d1| && |m1| == |d1| && |o2| == |d2| && |m2| == |d2|
    requires Guaranteed(start, env, d1, o1, m1, flag) <= SavedOf(mid, flag)
    requires HeldOf(start, flag) + Sieve(d1, o1, flag) + (if flag then {} else r1) <= HeldOf(mid, flag)
    ensures Guaranteed(start, env, d1 + d2, o1 + o2, m1 + Shift(r1, m2), flag) <= Guaranteed(mid, env, d2, o2, m2, flag)
  {
    if d2 == [] {
      assert d1 + d2 == d1 && o1 + o2 == o1 && m1 + Shift(r1, m2) == m1;
    } else {
      var n := |d2| - 1;
      GuaranteedAppend(start, mid, env, d1, o1, m1, r1, d2[..n], o2[..n], m2[..n], flag);
      assert d1 + d2 == (d1 + d2[..n]) + [d2[n]] && o1 + o2 == (o1 + o2[..n]) + [o2[n]];
      assert m1 + Shift(r1, m2) == (m1 + Shift(r1, m2[..n])) + [r1 + m2[n]];
      assert d2 == d2[..n] + [d2[n]] && o2 == o2[..n] + [o2[n]] && m2 == m2[..n] + [m2[n]];
      GuaranteedSnoc(start, env, d1 + d2[..n], o1 + o2[..n], m1 + Shift(r1, m2[..n]), d2[n], o2[n], r1 + m2[n], flag);
      GuaranteedSnoc(mid, env, d2[..n], o2[..n], m2[..n], d2[n], o2[n], m2[n], flag);
      SieveAppend(d1, o1, d2, o2, flag);
    }
  }

  /** `Filed` as a function value, so that the main loop's invariant does not unfold it. */
  ghost function Files(env: Env): (Sets, seq<ProductId>, seq<bool>, seq<set<ProductId>>, set<ProductId>, Sets) -> bool {
    (start, d, o, marks, rep, now) => Filed(start, env, d, o, marks, rep, now)
  }

  /** The files after one more chunk, from those before it and how the chunk was processed. */
  lemma FilesStep(start: Sets, mid: Sets, env: Env, d: seq<ProductId>, o: seq<bool>, marks: seq<set<ProductId>>,
                  rep: set<ProductId>, chunk: seq<Product>, r: ChunkRun, now: Sets)
    requires Files(env)(start, d, o, marks, rep, mid) && ChunkStep(env)(mid, chunk, r, now)
    ensures Files(env)(start, d + r.dispatched, o + r.outcomes, marks + Shift(rep, r.marks), rep + r.reported, now)
  {
    ProcessedFiled(mid, chunk, env, r, now);
    FiledAppend(start, mid, env, d, o, marks, rep, r.dispatched, r.outcomes, r.marks, r.reported, now);
  }

  /**
   * What the files hold after dispatches that leave them as `Files` says,
   * from files that held no more than memory.
   */
  lemma FilesFacts(start: Sets, env: Env, d: seq<ProductId>, o: seq<bool>, marks: seq<set<ProductId>>,
                   rep: set<ProductId>, now: Sets)
    requires Files(env)(start, d, o, marks, rep, now)
    requires start.savedProcessed <= start.processed && start.savedSkipped <= start.skipped
    ensures Judged(env, d, o) && Persisted(start, env, d, o, marks, now) && MarksFit(marks, rep)
    ensures NeverEmptied(env, d, o, false) ==> start.savedProcessed <= now.savedProcessed
    ensures NeverEmptied(env, d, o, true) ==> start.savedSkipped <= now.savedSkipped
    ensures LastWrite(env, d, o, false) == Some(Written) ==>
      start.processed + Sieve(d, o, false) + LastMarks(o, marks, false) <= now.savedProcessed
    ensures LastWrite(env, d, o, true) == Some(Written) ==> start.skipped + Sieve(d, o, true) <= now.savedSkipped
  {
    assert Filed(start, env, d, o, marks, rep, now);
    PersistedFacts(start, env, d, o, marks, now, false);
    PersistedFacts(start, env, d, o, marks, now, true);
  }

  /** Two steps that each leave the files as `Filed` says leave them so together. */
  lemma FiledAppend(start: Sets, mid: Sets, env: Env, d1: seq<ProductId>, o1: seq<bool>, m1: seq<set<ProductId>>,
                    r1: set<ProductId>, d2: seq<ProductId>, o2: seq<bool>, m2: seq<set<ProductId>>, r2: set<ProductId>,
                    now: Sets)
    requires Filed(start, env, d1, o1, m1, r1, mid) && Filed(mid, env, d2, o2, m2, r2, now)
    ensures Filed(start, env, d1 + d2, o1 + o2, m1 + Shift(r1, m2), r1 + r2, now)
  {
    MarksAppend(m1, r1, m2, r2);
    forall flag: bool ensures SavedOf(now, flag) == {} || !Emptied(env, d1 + d2, o1 + o2, flag) {
      LastWriteAppend(env, d1, o1, d2, o2, flag);
      LastWriteNone(env, d2, o2, flag);
    }
    SieveAppend(d1, o1, d2, o2, true);
    SieveAppend(d1, o1, d2, o2, false);
    GuaranteedAppend(start, mid, env, d1, o1, m1, r1, d2, o2, m2, true);
    GuaranteedAppend(start, mid, env, d1, o1, m1, r1, d2, o2, m2, false);
    assert SavedOf(now, true) == now.savedSkipped && SavedOf(now, false) == now.savedProcessed;
    forall j | 0 <= j < |d1 + d2| ensures (o1 + o2)[j] == FullySkipped(env, (d1 + d2)[j]) {
      if j >= |d1| {
        assert (o1 + o2)[j] == o2[j - |d1|] && (d1 + d2)[j] == d2[j - |d1|];
      }
    }
  }


  /**
   * What the main loop has done after the chunks it has processed as `runs`,
   * starting from the ledger `start`: the products it dispatched, in order,
   * each from the chunk `owner` names and none twice, the products it found
   * a report file for, the ledger `now` grown by exactly those, and every
   * product with images of a finished chunk in the ledger.
   */
  ghost predicate Ran(start: Sets, chunks: seq<seq<Product>>, runs: seq<ChunkRun>, env: Env,
                      dispatched: seq<ProductId>, owner: seq<nat>, reported: set<ProductId>, now: Sets) {
    |runs| <= |chunks| && |owner| == |dispatched| &&
    start.processed <= now.processed && start.skipped <= now.skipped &&
    (start.processed !! start.skipped ==> now.processed !! now.skipped) &&
    (forall i, j :: 0 <= i < j < |dispatched| ==> dispatched[i] != dispatched[j]) &&
    (forall j :: 0 <= j < |dispatched| ==>
      dispatched[j] !in start.processed && dispatched[j] !in start.skipped &&
      owner[j] < |runs| && dispatched[j] in ProductIds(chunks[owner[j]])) &&
    (forall id :: id in reported ==> id !in start.processed && id !in start.skipped && env.reportExists(id)) &&
    now.processed + now.skipped == start.processed + start.skipped + Elems(dispatched) + reported &&
    (forall c :: 0 <= c < |runs| && runs[c].end == Finished ==>
      forall p :: p in chunks[c] && |p.images| > 0 ==> p.id in now.processed + now.skipped)
  }

  /**
   * What processing a chunk did to the ledger, from `before` to `now`: the
   * chunk's count is its dispatches less the abandoning one; it dispatched
   * products of the chunk in neither set, none twice; the products it
   * passed over for their report file were in neither set either; the
   * ledger grew by exactly those products and stays disjoint; and a finished
   * chunk left each of its products with images in the ledger.
   */
  ghost predicate ChunkEffect(before: Sets, chunk: seq<Product>, env: Env, r: ChunkRun, now: Sets) {
    var d := r.dispatched;
    r.counted + (if r.end == Abandoned then 1 else 0) == |d| &&
    (forall i, j :: 0 <= i < j < |d| ==> d[i] != d[j]) &&
    (forall j :: 0 <= j < |d| ==> d[j] in ProductIds(chunk) && d[j] !in before.processed && d[j] !in before.skipped) &&
    (forall id :: id in r.reported ==> id !in before.processed && id !in before.skipped && env.reportExists(id)) &&
    now.processed + now.skipped == before.processed + before.skipped + Elems(d) + r.reported &&
    before.processed <= now.processed && before.skipped <= now.skipped &&
    (before.processed !! before.skipped ==> now.processed !! now.skipped) &&
    (r.end == Finished ==> forall p :: p in chunk && |p.images| > 0 ==> p.id in now.processed + now.skipped)
  }

  /** Every way of processing a chunk has the effect `ChunkEffect` describes. */
  lemma ProcessedEffect(before: Sets, chunk: seq<Product>, env: Env, r: ChunkRun, now: Sets)
    requires Processed(before, chunk, env, r, now)
    ensures ChunkEffect(before, chunk, env, r, now)
  {
    if r.end in {Finished, Abandoned} {
      WalkedEffect(before, chunk, env, r, now);
    } else {
      assert Elems(r.dispatched) == {};
    }
  }

  /** A chunk whose priority list was walked has the effect `ChunkEffect` describes. */
  lemma WalkedEffect(before: Sets, chunk: seq<Product>, env: Env, r: ChunkRun, now: Sets)
    requires r.end in {Finished, Abandoned}
    requires Done(before, AnalyzeAllImages(chunk, env.headSize, env.pick), ProductIds(chunk), env,
                  r.end == Abandoned, r.dispatched, r.outcomes, r.marks, r.reported, r.counted, now)
    ensures ChunkEffect(before, chunk, env, r, now)
  {
    var samples := AnalyzeAllImages(chunk, env.headSize, env.pick);
    DoneFacts(before, samples, ProductIds(chunk), env, r.end == Abandoned, r.dispatched, r.outcomes, r.marks, r.reported, r.counted, now);
    if r.end == Finished {
      FinishedChunkHandled(before, chunk, env, r.dispatched, r.outcomes, r.marks, r.reported, r.counted, now);
    }
  }

  /** Processing one more chunk keeps `Ran`. */
  lemma RanStep(start: Sets, chunks: seq<seq<Product>>, runs: seq<ChunkRun>, env: Env,
                dispatched: seq<ProductId>, owner: seq<nat>, reported: set<ProductId>, before: Sets,
                r: ChunkRun, now: Sets)
    requires Ran(start, chunks, runs, env, dispatched, owner, reported, before) && |runs| < |chunks|
    requires ChunkEffect(before, chunks[|runs|], env, r, now)
    ensures Ran(start, chunks, runs + [r], env, dispatched + r.dispatched, owner + Repeat(|runs|, |r.dispatched|),
                reported + r.reported, now)
  {
    var c := |runs|;
    var d := r.dispatched;
    AppendOwned(start, chunks, c + 1, dispatched, owner, d, c);
    assert forall id :: id in Elems(dispatched) ==> id in before.processed + before.skipped;
    AppendDistinct(dispatched, d);
    ElemsAppend(dispatched, d);
    FinishedKept(chunks, runs, r, now);
    UnionStep(start.processed + start.skipped, Elems(dispatched), reported, before.processed + before.skipped,
              Elems(d), r.reported, now.processed + now.skipped);
  }

  /** `n` copies of the chunk number `c`: the owners of a chunk's `n` dispatches. */
  function Repeat(c: nat, n: nat): (r: seq<nat>)
    ensures |r| == n && forall j :: 0 <= j < n ==> r[j] == c
  {
    if n == 0 then [] else Repeat(c, n - 1) + [c]
  }

  /** Growing a ledger by `e1` and `r1`, then by `e2` and `r2`, grows it by their unions. */
  lemma UnionStep(s: set<ProductId>, e1: set<ProductId>, r1: set<ProductId>, b: set<ProductId>,
                  e2: set<ProductId>, r2: set<ProductId>, n: set<ProductId>)
    requires b == s + e1 + r1 && n == b + e2 + r2
    ensures n == s + (e1 + e2) + (r1 + r2)
  {
  }

  /** Appending a chunk's dispatches, all owned by chunk `c`, keeps every dispatch owned by a chunk it came from. */
  lemma AppendOwned(start: Sets, chunks: seq<seq<Product>>, n: nat, dispatched: seq<ProductId>, owner: seq<nat>,
                    d: seq<ProductId>, c: nat)
    requires |owner| == |dispatched| && c < n && c < |chunks|
    requires forall j :: 0 <= j < |dispatched| ==>
      dispatched[j] !in start.processed && dispatched[j] !in start.skipped &&
      owner[j] < n && owner[j] < |chunks| && dispatched[j] in ProductIds(chunks[owner[j]])
    requires forall j :: 0 <= j < |d| ==> d[j] !in start.processed && d[j] !in start.skipped && d[j] in ProductIds(chunks[c])
    ensures var d', owner' := dispatched + d, owner + Repeat(c, |d|);
      |owner'| == |d'| &&
      forall j :: 0 <= j < |d'| ==>
        d'[j] !in start.processed && d'[j] !in start.skipped &&
        owner'[j] < n && owner'[j] < |chunks| && d'[j] in ProductIds(chunks[owner'[j]])
  {
    var d', owner' := dispatched + d, owner + Repeat(c, |d|);
    forall j | 0 <= j < |d'| ensures
      d'[j] !in start.processed && d'[j] !in start.skipped && owner'[j] < n && owner'[j] < |chunks| &&
      d'[j] in ProductIds(chunks[owner'[j]])
    {
      if j < |dispatched| {
        assert d'[j] == dispatched[j] && owner'[j] == owner[j];
      } else {
        assert d'[j] == d[j - |dispatched|] && owner'[j] == c;
      }
    }
  }

  /** Two sequences without repeats and with no common element join into one without repeats. */
  lemma AppendDistinct(a: seq<ProductId>, b: seq<ProductId>)
    requires forall i, j :: 0 <= i < j < |a| ==> a[i] != a[j]
    requires forall i, j :: 0 <= i < j < |b| ==> b[i] != b[j]
    requires forall j :: 0 <= j < |b| ==> b[j] !in Elems(a)
    ensures forall i, j :: 0 <= i < j < |a + b| ==> (a + b)[i] != (a + b)[j]
  {
    forall i, j | 0 <= i < j < |a + b| ensures (a + b)[i] != (a + b)[j] {
      if j >= |a| && i < |a| {
        assert (a + b)[i] == a[i] && (a + b)[j] == b[j - |a|];
      } else if i >= |a| {
        assert (a + b)[i] == b[i - |a|] && (a + b)[j] == b[j - |a|];
      }
    }
  }

  /** The elements of a join are those of its parts. */
  lemma ElemsAppend(a: seq<ProductId>, b: seq<ProductId>)
    ensures Elems(a + b) == Elems(a) + Elems(b)
  {
    forall id | id in Elems(a + b) ensures id in Elems(a) + Elems(b) {
      var j :| 0 <= j < |a + b| && (a + b)[j] == id;
      if j >= |a| {
        assert b[j - |a|] == id;
      }
    }
  }

  /** A prefix of a sequence without repeats has none and no element outside it. */
  lemma TakeDistinct(s: seq<ProductId>, k: nat)
    requires k <= |s| && forall i, j :: 0 <= i < j < |s| ==> s[i] != s[j]
    ensures forall i, j :: 0 <= i < j < |s[..k]| ==> s[..k][i] != s[..k][j]
    ensures Elems(s[..k]) <= Elems(s)
  {
  }

  /** Ending one more chunk keeps each finished chunk's products with images in the ledger. */
  lemma FinishedKept(chunks: seq<seq<Product>>, runs: seq<ChunkRun>, r: ChunkRun, now: Sets)
    requires |runs| < |chunks|
    requires forall c :: 0 <= c < |runs| && runs[c].end == Finished ==>
      forall p :: p in chunks[c] && |p.images| > 0 ==> p.id in now.processed + now.skipped
    requires r.end == Finished ==>
      forall p :: p in chunks[|runs|] && |p.images| > 0 ==> p.id in now.processed + now.skipped
    ensures forall c :: 0 <= c < |runs| + 1 && (runs + [r])[c].end == Finished ==>
      forall p :: p in chunks[c] && |p.images| > 0 ==> p.id in now.processed + now.skipped
  {
    forall k | 0 <= k < |runs| + 1 && (runs + [r])[k].end == Finished
      ensures forall p :: p in chunks[k] && |p.images| > 0 ==> p.id in now.processed + now.skipped
    {
      if k < |runs| {
        assert (runs + [r])[k] == runs[k];
      }
    }
  }

  /**
   * The products the summary counts, `ids` without repeats, are all
   * dispatched ones; `all` and `total` are their set and number.
   */
  ghost predicate Counted(ids: seq<ProductId>, all: set<ProductId>, total: nat, dispatched: seq<ProductId>) {
    (forall i, j :: 0 <= i < j < |ids| ==> ids[i] != ids[j]) &&
    all == Elems(ids) && all <= Elems(dispatched) && total == |ids|
  }

  /** Counting the first `counted` dispatches of a chunk keeps `Counted`. */
  lemma CountedStep(ids: seq<ProductId>, all: set<ProductId>, total: nat, dispatched: seq<ProductId>,
                    d: seq<ProductId>, counted: nat)
    requires Counted(ids, all, total, dispatched) && counted <= |d|
    requires forall i, j :: 0 <= i < j < |dispatched + d| ==> (dispatched + d)[i] != (dispatched + d)[j]
    ensures Counted(ids + d[..counted], all + Elems(d[..counted]), total + counted, dispatched + d)
  {
    var kept := d[..counted];
    forall i, j | 0 <= i < j < |d| ensures d[i] != d[j] {
      assert (dispatched + d)[|dispatched| + i] == d[i] && (dispatched + d)[|dispatched| + j] == d[j];
    }
    TakeDistinct(d, counted);
    forall j | 0 <= j < |kept| ensures kept[j] !in Elems(dispatched) {
      forall m | 0 <= m < |dispatched| ensures dispatched[m] != kept[j] {
        assert (dispatched + d)[m] == dispatched[m] && (dispatched + d)[|dispatched| + j] == kept[j];
      }
    }
    AppendDistinct(ids, kept);
    ElemsAppend(ids, kept);
    ElemsAppend(dispatched, d);
  }

  /** Every dispatch of a run belongs to one of its chunks. */
  lemma RanOwned(start: Sets, chunks: seq<seq<Product>>, runs: seq<ChunkRun>, env: Env,
                 dispatched: seq<ProductId>, owner: seq<nat>, reported: set<ProductId>, now: Sets)
    requires Ran(start, chunks, runs, env, dispatched, owner, reported, now)
    ensures forall j :: 0 <= j < |dispatched| ==> exists c :: 0 <= c < |chunks| && dispatched[j] in ProductIds(chunks[c])
  {
    forall j | 0 <= j < |dispatched| ensures exists c :: 0 <= c < |chunks| && dispatched[j] in ProductIds(chunks[c]) {
      var c := owner[j];
      assert 0 <= c < |chunks| && dispatched[j] in ProductIds(chunks[c]);
    }
  }

  /**
   * The main loop's ghost record of the chunks processed so far: what each
   * did, the ledger before each (and after the last), the chunk each
   * dispatch came from, and the dispatches the summary counts.
   */
  datatype Tally = Tally(runs: seq<ChunkRun>, befores: seq<Sets>, owner: seq<nat>, countedIds: seq<ProductId>)

  /**
   * The history half of the main loop's invariant after the chunks `t.runs`
   * of `chunks`, from the ledger `start` to `now`: each chunk's step, the
   * dispatches and reports collected, and what `Ran` says about them.
   */
  ghost predicate Traced(start: Sets, chunks: seq<seq<Product>>, env: Env, t: Tally,
                         dispatched: seq<ProductId>, reported: set<ProductId>, now: Sets) {
    History(start, chunks, ChunkStep(env), t.runs, t.befores) && t.befores[|t.runs|] == now &&
    dispatched == AllDispatched(t.runs) && reported == AllReported(t.runs) &&
    Ran(start, chunks, t.runs, env, dispatched, t.owner, reported, now)
  }

  /** The totals half of the main loop's invariant: the summary's counts and the cache files as `Files` says. */
  ghost predicate Tallied(start: Sets, env: Env, t: Tally, total: nat, all: set<ProductId>,
                          dispatched: seq<ProductId>, now: Sets) {
    total + Abandonments(t.runs) == |dispatched| &&
    Counted(t.countedIds, all, total, dispatched) &&
    CountsFit(t.runs) && t.countedIds == AllCounted(t.runs) &&
    Files(env)(start, dispatched, AllOutcomes(t.runs), AllMarks(t.runs), AllReported(t.runs), now)
  }

  /** The main loop's invariant: both halves. */
  ghost predicate Looped(start: Sets, chunks: seq<seq<Product>>, env: Env, t: Tally, total: nat, all: set<ProductId>,
                         dispatched: seq<ProductId>, reported: set<ProductId>, now: Sets) {
    Traced(start, chunks, env, t, dispatched, reported, now) && Tallied(start, env, t, total, all, dispatched, now)
  }

  /** `Looped` as a function value, so that the main loop's invariant does not unfold it. */
  ghost function Loop(start: Sets, chunks: seq<seq<Product>>, env: Env):
    (Tally, nat, set<ProductId>, seq<ProductId>, set<ProductId>, Sets) -> bool
  {
    (t: Tally, total: nat, all: set<ProductId>, dispatched: seq<ProductId>, reported: set<ProductId>, now: Sets) =>
      Looped(start, chunks, env, t, total, all, dispatched, reported, now)
  }

  /** The ghost record after one more chunk, processed as `r`, left the ledger `now`. */
  function Next(t: Tally, r: ChunkRun, now: Sets): Tally
    requires r.counted <= |r.dispatched|
  {
    Tally(t.runs + [r], t.befores + [now], t.owner + Repeat(|t.runs|, |r.dispatched|),
          t.countedIds + r.dispatched[..r.counted])
  }

  /** Before the first chunk the main loop's invariant holds. */
  lemma LoopStart(start: Sets, chunks: seq<seq<Product>>, env: Env)
    ensures Loop(start, chunks, env)(Tally([], [start], [], []), 0, {}, [], {}, start)
  {
    assert Filed(start, env, [], [], [], {}, start);
    assert Files(env)(start, [], AllOutcomes([]), AllMarks([]), AllReported([]), start);
    assert Looped(start, chunks, env, Tally([], [start], [], []), 0, {}, [], {}, start);
  }

  /** Processing one more chunk keeps `Ran`, and the chunk's count leaves out only an abandoning dispatch. */
  lemma ChunkRan(start: Sets, chunks: seq<seq<Product>>, runs: seq<ChunkRun>, env: Env,
                 dispatched: seq<ProductId>, owner: seq<nat>, reported: set<ProductId>, before: Sets,
                 r: ChunkRun, now: Sets)
    requires Ran(start, chunks, runs, env, dispatched, owner, reported, before) && |runs| < |chunks|
    requires ChunkStep(env)(before, chunks[|runs|], r, now)
    ensures Ran(start, chunks, runs + [r], env, dispatched + r.dispatched, owner + Repeat(|runs|, |r.dispatched|),
                reported + r.reported, now)
    ensures r.counted + (if r.end == Abandoned then 1 else 0) == |r.dispatched|
  {
    assert Processed(before, chunks[|runs|], env, r, now);
    ProcessedEffect(before, chunks[|runs|], env, r, now);
    RanStep(start, chunks, runs, env, dispatched, owner, reported, before, r, now);
  }

  /** Processing one more chunk keeps the history half of the main loop's invariant. */
  lemma TraceStep(start: Sets, chunks: seq<seq<Product>>, env: Env, t: Tally,
                  dispatched: seq<ProductId>, reported: set<ProductId>, before: Sets, r: ChunkRun, now: Sets,
                  t': Tally, dispatched': seq<ProductId>, reported': set<ProductId>)
    requires Traced(start, chunks, env, t, dispatched, reported, before) && |t.runs| < |chunks|
    requires ChunkStep(env)(before, chunks[|t.runs|], r, now) && r.counted <= |r.dispatched|
    requires t' == Next(t, r, now) && dispatched' == dispatched + r.dispatched && reported' == reported + r.reported
    ensures Traced(start, chunks, env, t', dispatched', reported', now)
    ensures r.counted + (if r.end == Abandoned then 1 else 0) == |r.dispatched|
    ensures forall i, j :: 0 <= i < j < |dispatched'| ==> dispatched'[i] != dispatched'[j]
  {
    ChunkRan(start, chunks, t.runs, env, dispatched, t.owner, reported, before, r, now);
    HistoryStep(start, chunks, ChunkStep(env), t.runs, t.befores, r, now);
    RunsSnoc(t.runs, r);
  }

  /** The files after one more chunk, in terms of all the chunks processed. */
  lemma FilesNext(start: Sets, env: Env, runs: seq<ChunkRun>, dispatched: seq<ProductId>, before: Sets,
                  chunk: seq<Product>, r: ChunkRun, now: Sets)
    requires Files(env)(start, dispatched, AllOutcomes(runs), AllMarks(runs), AllReported(runs), before)
    requires ChunkStep(env)(before, chunk, r, now)
    ensures Files(env)(start, dispatched + r.dispatched, AllOutcomes(runs + [r]), AllMarks(runs + [r]),
                       AllReported(runs + [r]), now)
  {
    FilesStep(start, before, env, dispatched, AllOutcomes(runs), AllMarks(runs), AllReported(runs), chunk, r, now);
    RunsSnoc(runs, r);
  }

  /** Processing one more chunk keeps the totals half of the main loop's invariant. */
  lemma TallyStep(start: Sets, env: Env, t: Tally, total: nat, all: set<ProductId>,
                  dispatched: seq<ProductId>, before: Sets, chunk: seq<Product>, r: ChunkRun, now: Sets,
                  t': Tally, total': nat, all': set<ProductId>, dispatched': seq<ProductId>)
    requires Tallied(start, env, t, total, all, dispatched, before)
    requires ChunkStep(env)(before, chunk, r, now) && r.counted + (if r.end == Abandoned then 1 else 0) == |r.dispatched|
    requires t' == Next(t, r, now) && total' == total + r.counted && all' == all + Elems(r.dispatched[..r.counted])
    requires dispatched' == dispatched + r.dispatched
    requires forall i, j :: 0 <= i < j < |dispatched'| ==> dispatched'[i] != dispatched'[j]
    ensures Tallied(start, env, t', total', all', dispatched', now)
  {
    FilesNext(start, env, t.runs, dispatched, before, chunk, r, now);
    RunsSnoc(t.runs, r);
    AllCountedSnoc(t.runs, r);
    CountedStep(t.countedIds, all, total, dispatched, r.dispatched, r.counted);
  }

  /**
   * Processing one more chunk as `r`, which took the ledger from `before` to
   * `now`, keeps the main loop's invariant for the totals and records grown
   * by that chunk.
   */
  lemma LoopStep(start: Sets, chunks: seq<seq<Product>>, env: Env, t: Tally, total: nat, all: set<ProductId>,
                 dispatched: seq<ProductId>, reported: set<ProductId>, before: Sets, r: ChunkRun, now: Sets,
                 t': Tally, total': nat, all': set<ProductId>, dispatched': seq<ProductId>, reported': set<ProductId>)
    requires Loop(start, chunks, env)(t, total, all, dispatched, reported, before) && |t.runs| < |chunks|
    requires ChunkStep(env)(before, chunks[|t.runs|], r, now) && r.counted <= |r.dispatched|
    requires t' == Next(t, r, now) && total' == total + r.counted && all' == all + Elems(r.dispatched[..r.counted])
    requires dispatched' == dispatched + r.dispatched && reported' == reported + r.reported
    ensures Loop(start, chunks, env)(t', total', all', dispatched', reported', now)
  {
    assert Looped(start, chunks, env, t, total, all, dispatched, reported, before);
    TraceStep(start, chunks, env, t, dispatched, reported, before, r, now, t', dispatched', reported');
    TallyStep(start, env, t, total, all, dispatched, before, chunks[|t.runs|], r, now, t', total', all', dispatched');
    assert Looped(start, chunks, env, t', total', all', dispatched', reported', now);
  }

  /** What the main loop's invariant says once every chunk is processed. */
  lemma LoopDone(start: Sets, chunks: seq<seq<Product>>, env: Env, t: Tally, total: nat, all: set<ProductId>,
                 dispatched: seq<ProductId>, reported: set<ProductId>, now: Sets)
    requires Loop(start, chunks, env)(t, total, all, dispatched, reported, now) && |t.runs| == |chunks|
    requires start.savedProcessed <= start.processed && start.savedSkipped <= start.skipped
    ensures |t.befores| == |chunks| + 1 && t.befores[0] == start && t.befores[|chunks|] == now
    ensures forall c :: 0 <= c < |chunks| ==> Processed(t.befores[c], chunks[c], env, t.runs[c], t.befores[c + 1])
    ensures dispatched == AllDispatched(t.runs) && reported == AllReported(t.runs)
    ensures forall i, j :: 0 <= i < j < |dispatched| ==> dispatched[i] != dispatched[j]
    ensures forall j :: 0 <= j < |dispatched| ==>
      dispatched[j] !in start.processed && dispatched[j] !in start.skipped &&
      exists c :: 0 <= c < |chunks| && dispatched[j] in ProductIds(chunks[c])
    ensures forall id :: id in reported ==> id !in start.processed && id !in start.skipped && env.reportExists(id)
    ensures now.processed + now.skipped == start.processed + start.skipped + Elems(dispatched) + reported
    ensures start.processed <= now.processed && start.skipped <= now.skipped
    ensures start.processed !! start.skipped ==> now.processed !! now.skipped
    ensures forall c :: 0 <= c < |chunks| && t.runs[c].end == Finished ==>
      forall p :: p in chunks[c] && |p.images| > 0 ==> p.id in now.processed + now.skipped
    ensures total == |dispatched| - Abandonments(t.runs)
    ensures CountsFit(t.runs) && all == Elems(AllCounted(t.runs))
    ensures total == |AllCounted(t.runs)| == |all|
    ensures Judged(env, dispatched, AllOutcomes(t.runs))
    ensures Persisted(start, env, dispatched, AllOutcomes(t.runs), AllMarks(t.runs), now) && MarksFit(AllMarks(t.runs), reported)
    ensures NeverEmptied(env, dispatched, AllOutcomes(t.runs), false) ==> start.savedProcessed <= now.savedProcessed
    ensures NeverEmptied(env, dispatched, AllOutcomes(t.runs), true) ==> start.savedSkipped <= now.savedSkipped
    ensures LastWrite(env, dispatched, AllOutcomes(t.runs), false) == Some(Written) ==>
      start.processed + Sieve(dispatched, AllOutcomes(t.runs), false) + LastMarks(AllOutcomes(t.runs), AllMarks(t.runs), false)
        <= now.savedProcessed
    ensures LastWrite(env, dispatched, AllOutcomes(t.runs), true) == Some(Written) ==>
      start.skipped + Sieve(dispatched, AllOutcomes(t.runs), true) <= now.savedSkipped
  {
    assert Looped(start, chunks, env, t, total, all, dispatched, reported, now);
    DistinctCard(t.countedIds);
    forall c | 0 <= c < |chunks| ensures Processed(t.befores[c], chunks[c], env, t.runs[c], t.befores[c + 1]) {
      assert ChunkStep(env)(t.befores[c], chunks[c], t.runs[c], t.befores[c + 1]);
    }
    RanOwned(start, chunks, t.runs, env, dispatched, t.owner, reported, now);
    FilesFacts(start, env, dispatched, AllOutcomes(t.runs), AllMarks(t.runs), AllReported(t.runs), now);
  }

  /**
   * The controller's main loop: streams the catalogue with one page per
   * chunk and processes each chunk in turn. `totalProcessed` and
   * `allProcessed` are the final summary's `total_processed` and
   * `all_processed_product_ids`; `dispatched` lists every product the job
   * ran for, in order. The ghost results are the streamed chunks, what
   * processing each of them did, the ledger before each chunk (and, last,
   * after the run), and the products passed over for their report file.
   */
  method Run(ledger: Ledger, answers: seq<Answer>, env: Env)
    returns (totalProcessed: nat, allProcessed: set<ProductId>, dispatched: seq<ProductId>,
             ghost chunks: seq<seq<Product>>, ghost runs: seq<ChunkRun>, ghost befores: seq<Sets>,
             ghost reported: set<ProductId>)
    requires ledger.Valid()
    modifies ledger
    ensures ledger.Valid()
    ensures chunks == GroupPages(Consumed(answers), MainBatchesPerYield) && |runs| == |chunks|
    ensures |befores| == |chunks| + 1 && befores[0] == old(ledger.Snapshot()) && befores[|chunks|] == ledger.Snapshot()
    ensures forall c :: 0 <= c < |chunks| ==> Processed(befores[c], chunks[c], env, runs[c], befores[c + 1])
    ensures dispatched == AllDispatched(runs) && reported == AllReported(runs)
    ensures forall i, j :: 0 <= i < j < |dispatched| ==> dispatched[i] != dispatched[j]
    ensures forall j :: 0 <= j < |dispatched| ==>
      dispatched[j] !in old(ledger.processed) && dispatched[j] !in old(ledger.skipped) &&
      exists c :: 0 <= c < |chunks| && dispatched[j] in ProductIds(chunks[c])
    ensures forall id :: id in reported ==> id !in old(ledger.processed) && id !in old(ledger.skipped) && env.reportExists(id)
    ensures ledger.processed + ledger.skipped == old(ledger.processed + ledger.skipped) + Elems(dispatched) + reported
    ensures old(ledger.processed) <= ledger.processed && old(ledger.skipped) <= ledger.skipped
    ensures old(ledger.processed) !! old(ledger.skipped) ==> ledger.processed !! ledger.skipped
    ensures forall c :: 0 <= c < |chunks| && runs[c].end == Finished ==>
      forall p :: p in chunks[c] && |p.images| > 0 ==> p.id in ledger.processed + ledger.skipped
    ensures totalProcessed == |dispatched| - Abandonments(runs)
    ensures CountsFit(runs) && allProcessed == Elems(AllCounted(runs))
    ensures totalProcessed == |AllCounted(runs)| == |allProcessed|
    ensures Judged(env, dispatched, AllOutcomes(runs))
    ensures Persisted(old(ledger.Snapshot()), env, dispatched, AllOutcomes(runs), AllMarks(runs), ledger.Snapshot())
    ensures MarksFit(AllMarks(runs), reported)
    ensures NeverEmptied(env, dispatched, AllOutcomes(runs), false) ==> old(ledger.savedProcessed) <= ledger.savedProcessed
    ensures NeverEmptied(env, dispatched, AllOutcomes(runs), true) ==> old(ledger.savedSkipped) <= ledger.savedSkipped
    ensures LastWrite(env, dispatched, AllOutcomes(runs), false) == Some(Written) ==>
      old(ledger.processed) + Sieve(dispatched, AllOutcomes(runs), false) + LastMarks(AllOutcomes(runs), AllMarks(runs), false)
        <= ledger.savedProcessed
    ensures LastWrite(env, dispatched, AllOutcomes(runs), true) == Some(Written) ==>
      old(ledger.skipped) + Sieve(dispatched, AllOutcomes(runs), true) <= ledger.savedSkipped
  {
    ghost var start := ledger.Snapshot();
    var streamed, _ := StreamChunks(answers, MainBatchesPerYield);
    chunks := streamed;
    ghost var t;
    totalProcessed, allProcessed, dispatched, t, reported := ProcessChunks(ledger, streamed, env);
    LoopDone(start, chunks, env, t, totalProcessed, allProcessed, dispatched, reported, ledger.Snapshot());
    runs, befores := t.runs, t.befores;
  }

  /**
   * The `for` over the streamed chunks: processes each in turn and keeps
   * the main loop's invariant, whose consequences `LoopDone` states.
   */
  method ProcessChunks(ledger: Ledger, chunks: seq<seq<Product>>, env: Env)
    returns (totalProcessed: nat, allProcessed: set<ProductId>, dispatched: seq<ProductId>,
             ghost t: Tally, ghost reported: set<ProductId>)
    requires ledger.Valid()
    modifies ledger
    ensures ledger.Valid() && |t.runs| == |chunks|
    ensures Loop(old(ledger.Snapshot()), chunks, env)(t, totalProcessed, allProcessed, dispatched, reported, ledger.Snapshot())
  {
    ghost var start := ledger.Snapshot();
    totalProcessed, allProcessed, dispatched := 0, {}, [];
    reported := {};
    t := Tally([], [start], [], []);
    LoopStart(start, chunks, env);
    for c := 0 to |chunks|
      invariant ledger.Valid() && |t.runs| == c
      invariant Loop(start, chunks, env)(t, totalProcessed, allProcessed, dispatched, reported, ledger.Snapshot())
    {
      ghost var before := ledger.Snapshot();
      var end, d, o, rep, counted, marks := ProcessChunk(ledger, chunks[c], env);
      ghost var r := ChunkRun(end, d, o, rep, counted, marks);
      ghost var now := ledger.Snapshot();
      assert ChunkStep(env)(before, chunks[c], r, now);
      // the abandoning dispatch, if any, is not counted in the totals
      var kept := d[..counted];
      var total', all', dispatched' := totalProcessed + counted, allProcessed + Elems(kept), dispatched + d;
      ghost var t', reported' := Next(t, r, now), reported + rep;
      LoopStep(start, chunks, env, t, totalProcessed, allProcessed, dispatched, reported, before, r, now,
               t', total', all', dispatched', reported');
      totalProcessed, allProcessed, dispatched, t, reported := total', all', dispatched', t', reported';
    }
  }
}
