/**
 * The rolling batch controller (the `__main__` loop): stream product chunks,
 * skip chunks whose products are all in the ledger, order a chunk's images
 * by priority, and dispatch each product not yet handled, recording the
 * outcome in the ledger at once and abandoning the chunk early when its
 * products turn out to be fully skipped.
 */
module Controller {
  import opened Options
  import opened Config
  import opened Catalog
  import opened Probe
  import opened ProductJob
  import opened Progress
  import Transcode

  /**
   * The effects the controller consults: the probe's HEAD sizes and arrival
   * order, each product's lookup, whether a product's report file exists,
   * and how rewriting a cache file after a product ends.
   */
  datatype Env = Env(
    headSize: string -> Option<nat>,
    pick: seq<Sample> -> nat,
    find: ProductId -> Lookup,
    reportExists: ProductId -> bool,
    write: ProductId -> Write)

  /** The controller runs every product job with automatic sync, so no answer is ever read. */
  const Sync: SyncMode := AutoSync

  /** How the processing of a chunk ended. */
  datatype ChunkEnd = EmptyChunk | AllHandled | NoImages | Finished | Abandoned

  /**
   * What processing one chunk did: how it ended, the products dispatched in
   * order with their fully-skipped flags, the products passed over for their
   * report file, `chunk_processed_count`, and for each dispatch the products
   * passed over for their report file before it.
   */
  datatype ChunkRun = ChunkRun(end: ChunkEnd, dispatched: seq<ProductId>, outcomes: seq<bool>,
                               reported: set<ProductId>, counted: nat, marks: seq<set<ProductId>>)

  /** The job's return value for a dispatched product. */
  function FullySkipped(env: Env, id: ProductId): bool {
    Job(env.find(id), Sync, "").fullySkipped
  }

  /** The number of fully-skipped dispatches at the end of `outcomes`: the `consecutive_skips` counter. */
  function TrailingSkips(outcomes: seq<bool>): (n: nat)
    ensures n <= |outcomes|
    ensures forall i :: |outcomes| - n <= i < |outcomes| ==> outcomes[i]
    ensures n < |outcomes| ==> !outcomes[|outcomes| - 1 - n]
  {
    if outcomes == [] || !outcomes[|outcomes| - 1] then 0
    else 1 + TrailingSkips(outcomes[..|outcomes| - 1])
  }

  lemma TrailingSkipsSnoc(outcomes: seq<bool>, b: bool)
    ensures TrailingSkips(outcomes + [b]) == if b then TrailingSkips(outcomes) + 1 else 0
  {
    assert (outcomes + [b])[..|outcomes|] == outcomes;
  }

  /** The ids of `dispatched` whose outcome is `flag`. */
  function Sieve(dispatched: seq<ProductId>, outcomes: seq<bool>, flag: bool): (ids: set<ProductId>)
    requires |outcomes| == |dispatched|
    ensures forall j :: 0 <= j < |dispatched| && outcomes[j] == flag ==> dispatched[j] in ids
  {
    if dispatched == [] then {}
    else
      var n := |dispatched| - 1;
      Sieve(dispatched[..n], outcomes[..n], flag) + (if outcomes[n] == flag then {dispatched[n]} else {})
  }

  /** `Sieve` holds exactly the ids dispatched with outcome `flag`. */
  lemma {:induction false} SieveExactly(dispatched: seq<ProductId>, outcomes: seq<bool>, flag: bool, id: ProductId)
    requires |outcomes| == |dispatched|
    ensures id in Sieve(dispatched, outcomes, flag) <==>
      exists j :: 0 <= j < |dispatched| && outcomes[j] == flag && dispatched[j] == id
  {
    if dispatched != [] {
      var n := |dispatched| - 1;
      SieveExactly(dispatched[..n], outcomes[..n], flag, id);
      if id in Sieve(dispatched[..n], outcomes[..n], flag) {
        var j :| 0 <= j < n && outcomes[..n][j] == flag && dispatched[..n][j] == id;
        assert outcomes[j] == flag && dispatched[j] == id;
      }
      if exists j :: 0 <= j < |dispatched| && outcomes[j] == flag && dispatched[j] == id {
        var j :| 0 <= j < |dispatched| && outcomes[j] == flag && dispatched[j] == id;
        if j < n {
          assert outcomes[..n][j] == flag && dispatched[..n][j] == id;
        }
      }
    }
  }

  lemma SieveSnoc(dispatched: seq<ProductId>, outcomes: seq<bool>, id: ProductId, b: bool, flag: bool)
    requires |outcomes| == |dispatched|
    ensures Sieve(dispatched + [id], outcomes + [b], flag) ==
      Sieve(dispatched, outcomes, flag) + (if b == flag then {id} else {})
  {
    assert (dispatched + [id])[..|dispatched|] == dispatched;
    assert (outcomes + [b])[..|outcomes|] == outcomes;
  }

  /** Dispatches `i`, `i + 1` and `i + 2` were all fully skipped. */
  ghost predicate SkipRun(outcomes: seq<bool>, i: int)
    requires 0 <= i && i + 2 < |outcomes|
  {
    outcomes[i] && outcomes[i + 1] && outcomes[i + 2]
  }

  /** A product the controller may dispatch: in the chunk, in neither set of the ledger, and without a report file. */
  ghost predicate Eligible(processed: set<ProductId>, skipped: set<ProductId>, ids: set<ProductId>, env: Env, id: ProductId) {
    id in ids && id !in processed && id !in skipped && !env.reportExists(id)
  }

  /** The products of the first `n` entries of a priority list. */
  ghost function Seen(samples: seq<Sample>, n: nat): set<ProductId>
    requires n <= |samples|
  {
    set k | 0 <= k < n :: samples[k].productId
  }

  lemma SeenStep(samples: seq<Sample>, n: nat)
    requires n < |samples|
    ensures Seen(samples, n + 1) == Seen(samples, n) + {samples[n].productId}
  {
    forall id | id in Seen(samples, n + 1) ensures id in Seen(samples, n) + {samples[n].productId} {
      var k :| 0 <= k < n + 1 && samples[k].productId == id;
    }
  }

  /**
   * The products the walk over the first `n` entries of a priority list
   * dispatches when nothing abandons it: each product once, at its first
   * (largest) entry, unless the ledger `start` holds it or it has a report
   * file.
   */
  ghost function EligibleInOrder(samples: seq<Sample>, n: nat, start: Sets, env: Env): seq<ProductId>
    requires n <= |samples|
  {
    if n == 0 then []
    else
      var id := samples[n - 1].productId;
      EligibleInOrder(samples, n - 1, start, env) +
        (if id in Seen(samples, n - 1) || id in start.processed || id in start.skipped || env.reportExists(id) then []
         else [id])
  }

  /** A walk that stops early has dispatched a prefix of what a full walk dispatches. */
  lemma {:induction false} EligibleInOrderPrefix(samples: seq<Sample>, m: nat, n: nat, start: Sets, env: Env)
    requires m <= n <= |samples|
    ensures EligibleInOrder(samples, m, start, env) <= EligibleInOrder(samples, n, start, env)
  {
    if m < n {
      EligibleInOrderPrefix(samples, m, n - 1, start, env);
    }
  }

  /**
   * The products a full walk dispatches are exactly those of the list that
   * are in neither set and have no report file, each once.
   */
  lemma {:induction false} EligibleInOrderMembers(samples: seq<Sample>, n: nat, start: Sets, env: Env, id: ProductId)
    requires n <= |samples|
    ensures var r := EligibleInOrder(samples, n, start, env);
      id in r <==>
        id in Seen(samples, n) && id !in start.processed && id !in start.skipped && !env.reportExists(id)
  {
    if n > 0 {
      EligibleInOrderMembers(samples, n - 1, start, env, id);
      SeenStep(samples, n - 1);
    }
  }

  /** No product occurs twice in what a walk dispatches. */
  lemma {:induction false} EligibleInOrderDistinct(samples: seq<Sample>, n: nat, start: Sets, env: Env)
    requires n <= |samples|
    ensures forall a, b :: 0 <= a < b < |EligibleInOrder(samples, n, start, env)| ==>
      EligibleInOrder(samples, n, start, env)[a] != EligibleInOrder(samples, n, start, env)[b]
  {
    if n > 0 {
      var r := EligibleInOrder(samples, n, start, env);
      var r0 := EligibleInOrder(samples, n - 1, start, env);
      var id := samples[n - 1].productId;
      EligibleInOrderDistinct(samples, n - 1, start, env);
      var isNew := !(id in Seen(samples, n - 1) || id in start.processed || id in start.skipped || env.reportExists(id));
      assert r == r0 + (if isNew then [id] else []);
      forall a, b | 0 <= a < b < |r| ensures r[a] != r[b] {
        assert r[a] == r0[a];
        if b < |r0| {
          assert r[b] == r0[b];
          assert r0[a] != r0[b];
        } else {
          assert isNew && r[b] == id && r0[a] in r0;
          EligibleInOrderMembers(samples, n - 1, start, env, r0[a]);
          assert r0[a] in Seen(samples, n - 1);
          assert id !in Seen(samples, n - 1);
        }
      }
    }
  }

  /** Fewer than two trailing skips rule out a run of three ending with one more skip. */
  lemma ShortTrail(outcomes: seq<bool>)
    requires |outcomes| >= 2 && TrailingSkips(outcomes) < 2
    ensures !(outcomes[|outcomes| - 2] && outcomes[|outcomes| - 1])
  {
    var n := TrailingSkips(outcomes);
    assert !outcomes[|outcomes| - 1 - n];
  }

  /**
   * The state of a chunk's walk over its priority list: the chunk's handled
   * set (`chunk_processed_ids`), the products dispatched so far with their
   * fully-skipped flags, the products found to have a report file, the
   * `consecutive_skips` counter, and, for each dispatch, the products found
   * to have a report file before it (a record the script does not keep; it
   * says what each cache rewrite writes).
   */
  datatype Walked = Walked(
    handled: set<ProductId>,
    dispatched: seq<ProductId>,
    outcomes: seq<bool>,
    reported: set<ProductId>,
    consecutive: nat,
    marks: seq<set<ProductId>>)

  /**
   * What a chunk's dispatches did to the ledger, which was `start` before the
   * chunk and is `now`:
   *  - each dispatched product belongs to the chunk, was in neither set and
   *    had no report file, and no product is dispatched twice;
   *  - each product with a report file belongs to the chunk and was in
   *    neither set, and is not dispatched;
   *  - the skipped set gained exactly the fully-skipped dispatches and the
   *    processed set exactly the other dispatches and the reported products,
   *    so both only grow and stay disjoint if they were;
   *  - each cache file holds what the last rewrite left in it;
   *  - the products marked before each dispatch are reported ones, and
   *    only accumulate.
   */
  ghost predicate Recorded(start: Sets, ids: set<ProductId>, env: Env,
                           d: seq<ProductId>, o: seq<bool>, marks: seq<set<ProductId>>, reported: set<ProductId>, now: Sets) {
    Dispatches(start, ids, env, d, o, reported) && Ledgered(start, d, o, reported, now) &&
    Persisted(start, env, d, o, marks, now) && MarksFit(marks, reported)
  }

  /** Each entry of `marks` is among the reported products, and the entries only accumulate. */
  ghost predicate MarksFit(marks: seq<set<ProductId>>, reported: set<ProductId>) {
    Growing(marks) && forall j :: 0 <= j < |marks| ==> marks[j] <= reported
  }

  /** Each outcome is the product job's fully-skipped flag for the product dispatched there. */
  ghost predicate Judged(env: Env, d: seq<ProductId>, o: seq<bool>) {
    |o| == |d| && forall j :: 0 <= j < |d| ==> o[j] == FullySkipped(env, d[j])
  }

  lemma JudgedSnoc(env: Env, d: seq<ProductId>, o: seq<bool>, id: ProductId)
    requires Judged(env, d, o)
    ensures Judged(env, d + [id], o + [FullySkipped(env, id)])
  {
  }

  /** The dispatches and report-file skips of a chunk, against the ledger `start` before it. */
  ghost predicate Dispatches(start: Sets, ids: set<ProductId>, env: Env, d: seq<ProductId>, o: seq<bool>, reported: set<ProductId>) {
    |o| == |d| &&
    (forall j :: 0 <= j < |d| ==> Eligible(start.processed, start.skipped, ids, env, d[j]) && d[j] !in reported) &&
    (forall i, j :: 0 <= i < j < |d| ==> d[i] != d[j]) &&
    (forall id :: id in reported ==>
      id in ids && id !in start.processed && id !in start.skipped && env.reportExists(id))
  }

  /** The two sets of the ledger `now` after those dispatches. */
  ghost predicate Ledgered(start: Sets, d: seq<ProductId>, o: seq<bool>, reported: set<ProductId>, now: Sets) {
    |o| == |d| &&
    now.skipped == start.skipped + Sieve(d, o, true) &&
    now.processed == start.processed + Sieve(d, o, false) + reported &&
    (start.processed !! start.skipped ==> now.processed !! now.skipped)
  }

  /** The cache file for outcome `flag` in the ledger `s`: the skip cache for `true`, the processed cache for `false`. */
  function SavedOf(s: Sets, flag: bool): set<ProductId> {
    if flag then s.savedSkipped else s.savedProcessed
  }

  /** The in-memory set for outcome `flag` in the ledger `s`. */
  function HeldOf(s: Sets, flag: bool): set<ProductId> {
    if flag then s.skipped else s.processed
  }

  /** How the last dispatch with outcome `flag` ended its rewrite of that outcome's cache file; `None` when none did. */
  function LastWrite(env: Env, d: seq<ProductId>, o: seq<bool>, flag: bool): Option<Write>
    requires |o| == |d|
  {
    if d == [] then None
    else
      var n := |d| - 1;
      if o[n] == flag then Some(env.write(d[n])) else LastWrite(env, d[..n], o[..n], flag)
  }

  /**
   * The set held in memory for outcome `flag` just after dispatch `j` is
   * recorded: the set before the dispatches, the dispatches with that
   * outcome up to `j`, and, for the processed set, `marks[j]`, the products
   * marked as processed through their report file before that dispatch.
   */
  function HeldAt(start: Sets, d: seq<ProductId>, o: seq<bool>, marks: seq<set<ProductId>>, flag: bool, j: int): set<ProductId>
    requires |o| == |d| && |marks| == |d| && 0 <= j < |d|
  {
    HeldOf(start, flag) + Sieve(d[..j + 1], o[..j + 1], flag) + (if flag then {} else marks[j])
  }

  /**
   * The ids the dispatches guarantee to be in the cache file that outcome
   * `flag` rewrites, the ledger before them being `start`: with no rewrite
   * the file is as it was; a rewrite that succeeded wrote the whole set
   * held in memory at that point (`HeldAt`); a rewrite that could not open
   * the file left it as it was; and a dump that failed emptied it.
   */
  function Guaranteed(start: Sets, env: Env, d: seq<ProductId>, o: seq<bool>, marks: seq<set<ProductId>>, flag: bool):
    set<ProductId>
    requires |o| == |d| && |marks| == |d|
  {
    if d == [] then SavedOf(start, flag)
    else
      var n := |d| - 1;
      var g := Guaranteed(start, env, d[..n], o[..n], marks[..n], flag);
      if o[n] != flag then g
      else match env.write(d[n])
        case Written => HeldAt(start, d, o, marks, flag, n)
        case OpenFailed => g
        case DumpFailed => {}
  }

  /** The last rewrite of the file for outcome `flag` failed in the dump. */
  predicate Emptied(env: Env, d: seq<ProductId>, o: seq<bool>, flag: bool)
    requires |o| == |d|
  {
    LastWrite(env, d, o, flag) == Some(DumpFailed)
  }

  lemma GuaranteedSnoc(start: Sets, env: Env, d: seq<ProductId>, o: seq<bool>, marks: seq<set<ProductId>>,
                       id: ProductId, b: bool, mark: set<ProductId>, flag: bool)
    requires |o| == |d| && |marks| == |d|
    ensures Guaranteed(start, env, d + [id], o + [b], marks + [mark], flag) ==
      if b != flag then Guaranteed(start, env, d, o, marks, flag)
      else match env.write(id)
        case Written => HeldOf(start, flag) + Sieve(d + [id], o + [b], flag) + (if flag then {} else mark)
        case OpenFailed => Guaranteed(start, env, d, o, marks, flag)
        case DumpFailed => {}
  {
    assert (d + [id])[..|d|] == d && (o + [b])[..|o|] == o && (marks + [mark])[..|marks|] == marks;
    assert (d + [id])[..|d| + 1] == d + [id] && (o + [b])[..|o| + 1] == o + [b];
  }

  lemma LastWriteSnoc(env: Env, d: seq<ProductId>, o: seq<bool>, id: ProductId, b: bool, flag: bool)
    requires |o| == |d|
    ensures LastWrite(env, d + [id], o + [b], flag) == if b != flag then LastWrite(env, d, o, flag) else Some(env.write(id))
  {
    assert (d + [id])[..|d|] == d && (o + [b])[..|o|] == o;
  }

  /** No later dispatch rewriting the same file as dispatch `j` emptied it. */
  ghost predicate Kept(env: Env, d: seq<ProductId>, o: seq<bool>, j: int)
    requires |o| == |d| && 0 <= j < |d|
  {
    forall k :: j < k < |d| && o[k] == o[j] ==> !env.write(d[k]).DumpFailed?
  }

  /** The dispatches with outcome `flag` among the first `m` are among all of them. */
  lemma SievePrefix(d: seq<ProductId>, o: seq<bool>, flag: bool, m: nat)
    requires |o| == |d| && m <= |d|
    ensures Sieve(d[..m], o[..m], flag) <= Sieve(d, o, flag)
  {
    forall id | id in Sieve(d[..m], o[..m], flag) ensures id in Sieve(d, o, flag) {
      SieveExactly(d[..m], o[..m], flag, id);
      var j :| 0 <= j < m && o[..m][j] == flag && d[..m][j] == id;
      assert o[j] == flag && d[j] == id;
    }
  }

  /** Every rewrite of the file for outcome `flag` failed to open it. */
  ghost predicate Untouched(env: Env, d: seq<ProductId>, o: seq<bool>, flag: bool)
    requires |o| == |d|
  {
    forall j :: 0 <= j < |d| && o[j] == flag ==> env.write(d[j]).OpenFailed?
  }

  /** The products marked through their report file before each dispatch only accumulate. */
  ghost predicate Growing(marks: seq<set<ProductId>>) {
    forall i, j :: 0 <= i < j < |marks| ==> marks[i] <= marks[j]
  }

  /**
   * Dispatch `j` rewrote the file for outcome `flag` successfully, with `id`
   * in the set then held in memory, and no later failed dump wiped it out.
   */
  ghost predicate WroteWith(start: Sets, env: Env, d: seq<ProductId>, o: seq<bool>, marks: seq<set<ProductId>>,
                            flag: bool, j: int, id: ProductId)
    requires |o| == |d| && |marks| == |d| && 0 <= j < |d|
  {
    o[j] == flag && env.write(d[j]).Written? && Kept(env, d, o, j) && id in HeldAt(start, d, o, marks, flag, j)
  }

  lemma WroteWithSnoc(start: Sets, env: Env, d: seq<ProductId>, o: seq<bool>, marks: seq<set<ProductId>>,
                      flag: bool, j: int, id: ProductId)
    requires |o| == |d| && |marks| == |d| && 0 <= j < |d| - 1
    ensures var n := |d| - 1;
      WroteWith(start, env, d, o, marks, flag, j, id) <==>
        WroteWith(start, env, d[..n], o[..n], marks[..n], flag, j, id) && (o[n] == o[j] ==> !env.write(d[n]).DumpFailed?)
  {
    var n := |d| - 1;
    KeptSnoc(env, d, o, j);
    assert d[..n][..j + 1] == d[..j + 1] && o[..n][..j + 1] == o[..j + 1] && marks[..n][j] == marks[j];
  }

  /** Some successful rewrite of the file for outcome `flag`, not wiped out later, held `id`. */
  ghost predicate Witnessed(start: Sets, env: Env, d: seq<ProductId>, o: seq<bool>, marks: seq<set<ProductId>>,
                            flag: bool, id: ProductId)
    requires |o| == |d| && |marks| == |d|
  {
    exists j :: 0 <= j < |d| && WroteWith(start, env, d, o, marks, flag, j, id)
  }

  /** The set held in memory after an earlier dispatch is within the set held after a later one. */
  lemma HeldAtGrows(start: Sets, d: seq<ProductId>, o: seq<bool>, marks: seq<set<ProductId>>, flag: bool, i: int, j: int)
    requires |o| == |d| && |marks| == |d| && Growing(marks) && 0 <= i <= j < |d|
    ensures HeldAt(start, d, o, marks, flag, i) <= HeldAt(start, d, o, marks, flag, j)
  {
    assert d[..j + 1][..i + 1] == d[..i + 1] && o[..j + 1][..i + 1] == o[..i + 1];
    SievePrefix(d[..j + 1], o[..j + 1], flag, i + 1);
  }

  /** When the last dispatch rewrote the file successfully, a surviving rewrite held `id` iff that last one did. */
  lemma WitnessedByLast(start: Sets, env: Env, d: seq<ProductId>, o: seq<bool>, marks: seq<set<ProductId>>,
                        flag: bool, id: ProductId)
    requires |o| == |d| && |marks| == |d| && Growing(marks)
    requires d != [] && o[|d| - 1] == flag && env.write(d[|d| - 1]).Written?
    ensures Witnessed(start, env, d, o, marks, flag, id) <==> id in HeldAt(start, d, o, marks, flag, |d| - 1)
    ensures !Untouched(env, d, o, flag)
  {
    var n := |d| - 1;
    assert Kept(env, d, o, n);
    if id in HeldAt(start, d, o, marks, flag, n) {
      assert WroteWith(start, env, d, o, marks, flag, n, id);
    }
    if Witnessed(start, env, d, o, marks, flag, id) {
      var j :| 0 <= j < |d| && WroteWith(start, env, d, o, marks, flag, j, id);
      HeldAtGrows(start, d, o, marks, flag, j, n);
    }
  }

  /** When the last dispatch's dump for the file failed, no earlier rewrite survives. */
  lemma WitnessedNone(start: Sets, env: Env, d: seq<ProductId>, o: seq<bool>, marks: seq<set<ProductId>>,
                      flag: bool, id: ProductId)
    requires |o| == |d| && |marks| == |d| && d != [] && o[|d| - 1] == flag && env.write(d[|d| - 1]).DumpFailed?
    ensures !Witnessed(start, env, d, o, marks, flag, id)
    ensures !Untouched(env, d, o, flag)
  {
    forall j | 0 <= j < |d| - 1 ensures !WroteWith(start, env, d, o, marks, flag, j, id) {
      WroteWithSnoc(start, env, d, o, marks, flag, j, id);
    }
  }

  /** When the last dispatch neither rewrote the file nor emptied it, the surviving rewrites are those before it. */
  lemma WitnessedBefore(start: Sets, env: Env, d: seq<ProductId>, o: seq<bool>, marks: seq<set<ProductId>>,
                        flag: bool, id: ProductId)
    requires |o| == |d| && |marks| == |d| && d != []
    requires var n := |d| - 1; o[n] != flag || env.write(d[n]).OpenFailed?
    ensures var n := |d| - 1;
      Witnessed(start, env, d, o, marks, flag, id) <==> Witnessed(start, env, d[..n], o[..n], marks[..n], flag, id)
    ensures var n := |d| - 1;
      Untouched(env, d, o, flag) <==> Untouched(env, d[..n], o[..n], flag)
  {
    var n := |d| - 1;
    forall j | 0 <= j < n
      ensures WroteWith(start, env, d, o, marks, flag, j, id) <==> WroteWith(start, env, d[..n], o[..n], marks[..n], flag, j, id)
    {
      WroteWithSnoc(start, env, d, o, marks, flag, j, id);
    }
    assert !WroteWith(start, env, d, o, marks, flag, n, id);
    assert forall j :: 0 <= j < n ==> d[..n][j] == d[j] && o[..n][j] == o[j];
  }

  /** Marks that accumulate still do so without their last entry. */
  lemma GrowingPrefix(marks: seq<set<ProductId>>, n: nat)
    requires Growing(marks) && n <= |marks|
    ensures Growing(marks[..n])
  {
    forall i, j | 0 <= i < j < n ensures marks[..n][i] <= marks[..n][j] {
      assert marks[..n][i] == marks[i] && marks[..n][j] == marks[j];
    }
  }

  /**
   * `Guaranteed` holds exactly: the file's contents before the chunk when
   * every rewrite of it failed to open the file, and otherwise the whole set
   * in memory at a successful rewrite that no later failed dump wiped out.
   */
  lemma {:induction false} GuaranteedExactly(start: Sets, env: Env, d: seq<ProductId>, o: seq<bool>,
                                             marks: seq<set<ProductId>>, flag: bool, id: ProductId)
    requires |o| == |d| && |marks| == |d| && Growing(marks)
    ensures id in Guaranteed(start, env, d, o, marks, flag) <==>
      (id in SavedOf(start, flag) && Untouched(env, d, o, flag)) ||
      exists j :: 0 <= j < |d| && WroteWith(start, env, d, o, marks, flag, j, id)
  {
    if d == [] {
      assert !Witnessed(start, env, d, o, marks, flag, id);
    } else {
      var n := |d| - 1;
      if o[n] == flag && env.write(d[n]).Written? {
        WitnessedByLast(start, env, d, o, marks, flag, id);
      } else if o[n] == flag && env.write(d[n]).DumpFailed? {
        WitnessedNone(start, env, d, o, marks, flag, id);
      } else {
        GrowingPrefix(marks, n);
        GuaranteedExactly(start, env, d[..n], o[..n], marks[..n], flag, id);
        WitnessedBefore(start, env, d, o, marks, flag, id);
      }
    }
    assert Witnessed(start, env, d, o, marks, flag, id) <==>
      exists j :: 0 <= j < |d| && WroteWith(start, env, d, o, marks, flag, j, id);
  }

  /** Dispatch `j` before the last keeps its file through all of `d` iff through `d` without its last entry and that entry. */
  lemma KeptSnoc(env: Env, d: seq<ProductId>, o: seq<bool>, j: int)
    requires |o| == |d| && 0 <= j < |d| - 1
    ensures var n := |d| - 1;
      Kept(env, d, o, j) <==>
        Kept(env, d[..n], o[..n], j) && (o[n] == o[j] ==> !env.write(d[n]).DumpFailed?)
  {
    var n := |d| - 1;
    assert forall k :: j < k < n ==> d[..n][k] == d[k] && o[..n][k] == o[k];
  }

  /** Dispatch `j` had outcome `flag`, its dump failed, and no later dispatch had that outcome. */
  ghost predicate EmptiedAt(env: Env, d: seq<ProductId>, o: seq<bool>, flag: bool, j: int)
    requires |o| == |d|
  {
    0 <= j < |d| && o[j] == flag && env.write(d[j]).DumpFailed? && forall k :: j < k < |d| ==> o[k] != flag
  }

  /** A dispatch that emptied the file before the last entry still did after it iff the last had the other outcome. */
  lemma EmptiedAtSnoc(env: Env, d: seq<ProductId>, o: seq<bool>, flag: bool, j: int)
    requires |o| == |d| && 0 <= j < |d| - 1
    ensures var n := |d| - 1;
      EmptiedAt(env, d, o, flag, j) <==> EmptiedAt(env, d[..n], o[..n], flag, j) && o[n] != flag
  {
    var n := |d| - 1;
    assert d[..n][j] == d[j] && o[..n][j] == o[j];
    assert forall k :: j < k < n ==> o[..n][k] == o[k];
  }

  /** `Emptied` says that some dispatch with that outcome had its dump fail and no later dispatch had that outcome. */
  lemma {:induction false} EmptiedExactly(env: Env, d: seq<ProductId>, o: seq<bool>, flag: bool)
    requires |o| == |d|
    ensures Emptied(env, d, o, flag) <==> exists j :: EmptiedAt(env, d, o, flag, j)
  {
    if d != [] {
      var n := |d| - 1;
      var d0, o0 := d[..n], o[..n];
      assert d == d0 + [d[n]] && o == o0 + [o[n]];
      EmptiedExactly(env, d0, o0, flag);
      if o[n] == flag {
        forall j | 0 <= j < n ensures !EmptiedAt(env, d, o, flag, j) {
          EmptiedAtSnoc(env, d, o, flag, j);
        }
        assert Emptied(env, d, o, flag) <==> EmptiedAt(env, d, o, flag, n);
      } else {
        forall j | 0 <= j < n ensures EmptiedAt(env, d, o, flag, j) <==> EmptiedAt(env, d0, o0, flag, j) {
          EmptiedAtSnoc(env, d, o, flag, j);
        }
        assert !EmptiedAt(env, d, o, flag, n);
      }
    }
  }

  /**
   * The two cache files of the ledger `now` after those dispatches: each
   * holds what `Guaranteed` says, is empty when `Emptied` says so, and is as
   * it was when no dispatch rewrote it.
   */
  ghost predicate Persisted(start: Sets, env: Env, d: seq<ProductId>, o: seq<bool>, marks: seq<set<ProductId>>, now: Sets) {
    |o| == |d| && |marks| == |d| &&
    Guaranteed(start, env, d, o, marks, false) <= now.savedProcessed &&
    Guaranteed(start, env, d, o, marks, true) <= now.savedSkipped &&
    (Emptied(env, d, o, false) ==> now.savedProcessed == {}) &&
    (Emptied(env, d, o, true) ==> now.savedSkipped == {}) &&
    (Sieve(d, o, false) == {} ==> now.savedProcessed == start.savedProcessed) &&
    (Sieve(d, o, true) == {} ==> now.savedSkipped == start.savedSkipped)
  }

  /** No rewrite of the file for outcome `flag` failed in the dump. */
  ghost predicate NeverEmptied(env: Env, d: seq<ProductId>, o: seq<bool>, flag: bool)
    requires |o| == |d|
  {
    forall j :: 0 <= j < |d| && o[j] == flag ==> !env.write(d[j]).DumpFailed?
  }

  /** A file is rewritten exactly when some dispatch has its outcome. */
  lemma {:induction false} LastWriteNone(env: Env, d: seq<ProductId>, o: seq<bool>, flag: bool)
    requires |o| == |d|
    ensures LastWrite(env, d, o, flag) == None <==> Sieve(d, o, flag) == {}
  {
    if d != [] {
      var n := |d| - 1;
      LastWriteNone(env, d[..n], o[..n], flag);
    }
  }

  /** Without a failed dump, every rewrite keeps what the file held before, which memory also holds. */
  lemma {:induction false} GuaranteedKeeps(start: Sets, env: Env, d: seq<ProductId>, o: seq<bool>,
                                           marks: seq<set<ProductId>>, flag: bool)
    requires |o| == |d| && |marks| == |d| && SavedOf(start, flag) <= HeldOf(start, flag)
    requires NeverEmptied(env, d, o, flag)
    ensures SavedOf(start, flag) <= Guaranteed(start, env, d, o, marks, flag)
  {
    if d != [] {
      var n := |d| - 1;
      assert NeverEmptied(env, d[..n], o[..n], flag) by {
        forall j | 0 <= j < n && o[..n][j] == flag ensures !env.write(d[..n][j]).DumpFailed? {
          assert o[j] == flag && d[..n][j] == d[j];
        }
      }
      GuaranteedKeeps(start, env, d[..n], o[..n], marks[..n], flag);
    }
  }

  /**
   * The products marked through their report file before the last dispatch
   * with outcome `flag`; none for the skip cache, whose set they never join.
   */
  function LastMarks(o: seq<bool>, marks: seq<set<ProductId>>, flag: bool): set<ProductId>
    requires |marks| == |o|
  {
    if o == [] then {}
    else
      var n := |o| - 1;
      if o[n] == flag then (if flag then {} else marks[n]) else LastMarks(o[..n], marks[..n], flag)
  }

  /**
   * When the last rewrite succeeded, the file holds the set before the chunk,
   * every dispatch with that outcome and, for the processed cache, the
   * products marked through their report file before that rewrite.
   */
  lemma {:induction false} GuaranteedLast(start: Sets, env: Env, d: seq<ProductId>, o: seq<bool>,
                                          marks: seq<set<ProductId>>, flag: bool)
    requires |o| == |d| && |marks| == |d| && LastWrite(env, d, o, flag) == Some(Written)
    ensures Guaranteed(start, env, d, o, marks, flag) == HeldOf(start, flag) + Sieve(d, o, flag) + LastMarks(o, marks, flag)
  {
    var n := |d| - 1;
    if o[n] != flag {
      GuaranteedLast(start, env, d[..n], o[..n], marks[..n], flag);
    } else {
      assert d[..n + 1] == d && o[..n + 1] == o;
    }
  }

  /**
   * What a cache file holds after the dispatches, from what it held before:
   * with no failed dump it kept everything it held; after a successful last
   * rewrite it holds the whole set held in memory then (the set before the
   * dispatches, every dispatch with its outcome and, for the processed
   * cache, the products marked before it); after a failed last dump it is
   * empty; with no rewrite it is unchanged.
   */
  lemma PersistedFacts(start: Sets, env: Env, d: seq<ProductId>, o: seq<bool>, marks: seq<set<ProductId>>, now: Sets,
                       flag: bool)
    requires Persisted(start, env, d, o, marks, now) && SavedOf(start, flag) <= HeldOf(start, flag)
    ensures NeverEmptied(env, d, o, flag) ==> SavedOf(start, flag) <= SavedOf(now, flag)
    ensures LastWrite(env, d, o, flag) == Some(Written) ==>
      HeldOf(start, flag) + Sieve(d, o, flag) + LastMarks(o, marks, flag) <= SavedOf(now, flag)
    ensures LastWrite(env, d, o, flag) == Some(DumpFailed) ==> SavedOf(now, flag) == {}
    ensures LastWrite(env, d, o, flag) == None ==> SavedOf(now, flag) == SavedOf(start, flag)
  {
    LastWriteNone(env, d, o, flag);
    if NeverEmptied(env, d, o, flag) {
      GuaranteedKeeps(start, env, d, o, marks, flag);
    }
    if LastWrite(env, d, o, flag) == Some(Written) {
      GuaranteedLast(start, env, d, o, marks, flag);
    }
  }

  /** The walk has looked at the first `i` entries of `samples` without abandoning the chunk. */
  ghost predicate Walk(start: Sets, samples: seq<Sample>, ids: set<ProductId>, env: Env, i: nat, w: Walked, now: Sets) {
    i <= |samples| &&
    Recorded(start, ids, env, w.dispatched, w.outcomes, w.marks, w.reported, now) &&
    now.savedProcessed <= now.processed && now.savedSkipped <= now.skipped &&
    Covered(samples, i, start, env, w) &&
    w.handled <= now.processed + now.skipped &&
    Streak(w.outcomes, w.consecutive)
  }

  /**
   * The handled set is the products of the first `i` entries; the dispatches
   * so far are those a walk over those entries makes, in that order; the
   * dispatched and reported products are handled.
   */
  ghost predicate Covered(samples: seq<Sample>, i: nat, start: Sets, env: Env, w: Walked) {
    i <= |samples| &&
    w.handled == Seen(samples, i) &&
    (forall k :: 0 <= k < i ==> samples[k].productId in w.handled) &&
    w.dispatched == EligibleInOrder(samples, i, start, env) &&
    (forall j :: 0 <= j < |w.dispatched| ==> w.dispatched[j] in w.handled) &&
    w.reported <= w.handled
  }

  /**
   * Handling entry `i` keeps `Covered`: its product joins the handled set and
   * is dispatched exactly when a full walk would dispatch it there.
   */
  lemma CoveredStep(samples: seq<Sample>, i: nat, start: Sets, env: Env, w: Walked, w': Walked, dispatches: bool)
    requires i < |samples| && Covered(samples, i, start, env, w)
    requires var id := samples[i].productId;
      && w'.handled == w.handled + {id}
      && w'.dispatched == w.dispatched + (if dispatches then [id] else [])
      && (w'.reported == w.reported || w'.reported == w.reported + {id})
      && (dispatches <==> id !in w.handled && id !in start.processed && id !in start.skipped && !env.reportExists(id))
    ensures Covered(samples, i + 1, start, env, w')
  {
    SeenStep(samples, i);
    var d, d' := w.dispatched, w'.dispatched;
    forall j | 0 <= j < |d'| ensures d'[j] in w'.handled {
      if j < |d| {
        assert d'[j] == d[j];
      }
    }
  }

  /**
   * The chunk may go on: `consecutive` counts the fully-skipped dispatches at
   * the end, fewer than MaxConsecutiveSkips, the first dispatch was not fully
   * skipped, and no three dispatches in a row were.
   */
  ghost predicate Streak(o: seq<bool>, consecutive: nat) {
    consecutive == TrailingSkips(o) && consecutive < MaxConsecutiveSkips &&
    (|o| > 0 ==> !o[0]) &&
    (forall i :: 0 <= i && i + 2 < |o| ==> !SkipRun(o, i))
  }

  /** A dispatch that does not end the chunk keeps `Streak`. */
  lemma StreakSnoc(o: seq<bool>, consecutive: nat, skipped: bool)
    requires Streak(o, consecutive)
    requires !(skipped && (|o| == 0 || consecutive + 1 >= MaxConsecutiveSkips))
    ensures Streak(o + [skipped], if skipped then consecutive + 1 else 0)
  {
    TrailingSkipsSnoc(o, skipped);
    if skipped && |o| >= 2 {
      ShortTrail(o);
    }
    var o' := o + [skipped];
    forall i | 0 <= i && i + 2 < |o'| ensures !SkipRun(o', i) {
      if i + 2 < |o| {
        assert !SkipRun(o, i);
      }
    }
  }

  /**
   * How the walk of a chunk ended: what `Recorded` says, and the abandonment
   * rule: the dispatches follow the priority list, all of what a full walk
   * dispatches when the chunk is not abandoned and a prefix of it when it
   * is; after a fully-skipped first dispatch nothing else is dispatched, no
   * three dispatches in a row before the last are fully skipped, the chunk
   * is abandoned exactly when the last dispatch was fully skipped and was
   * the first or the third in a row, and a chunk that is not abandoned
   * leaves every product of its priority list in the ledger. `counted`
   * leaves out the dispatch that abandoned the chunk.
   */
  ghost predicate Done(start: Sets, samples: seq<Sample>, ids: set<ProductId>, env: Env, abandoned: bool,
                       d: seq<ProductId>, o: seq<bool>, marks: seq<set<ProductId>>, reported: set<ProductId>, counted: nat,
                       now: Sets) {
    Recorded(start, ids, env, d, o, marks, reported, now) &&
    d <= EligibleInOrder(samples, |samples|, start, env) &&
    (!abandoned ==> d == EligibleInOrder(samples, |samples|, start, env)) &&
    (|o| > 1 ==> !o[0]) &&
    (forall i :: 0 <= i && i + 3 < |o| ==> !SkipRun(o, i)) &&
    (abandoned <==> |o| > 0 && o[|o| - 1] && (|o| == 1 || TrailingSkips(o) >= MaxConsecutiveSkips)) &&
    (!abandoned ==> forall k :: 0 <= k < |samples| ==> samples[k].productId in now.processed + now.skipped) &&
    counted == (if abandoned then |d| - 1 else |d|)
  }

  /** The ledger after recording a dispatch of `id` with outcome `skipped`. */
  function AfterDispatch(now: Sets, id: ProductId, skipped: bool, write: Write): (r: Sets)
    ensures skipped ==> r.skipped == now.skipped + {id} && r.processed == now.processed
    ensures !skipped ==> r.processed == now.processed + {id} && r.skipped == now.skipped
  {
    if skipped then
      now.(skipped := now.skipped + {id}, savedSkipped := AfterWrite(now.savedSkipped, now.skipped + {id}, write))
    else
      now.(processed := now.processed + {id}, savedProcessed := AfterWrite(now.savedProcessed, now.processed + {id}, write))
  }

  /** The walk state after dispatching `id` with outcome `skipped`. */
  function AfterJob(w: Walked, id: ProductId, skipped: bool): (r: Walked)
    ensures r.dispatched == w.dispatched + [id] && r.outcomes == w.outcomes + [skipped]
    ensures r.marks == w.marks + [w.reported] && r.reported == w.reported
  {
    Walked(w.handled + {id}, w.dispatched + [id], w.outcomes + [skipped], w.reported,
           if skipped then w.consecutive + 1 else 0, w.marks + [w.reported])
  }

  /** A product in the ledger now that the walk has not handled was in the ledger before the chunk. */
  lemma LedgeredBefore(start: Sets, samples: seq<Sample>, ids: set<ProductId>, env: Env, i: nat, w: Walked, now: Sets,
                       id: ProductId)
    requires Walk(start, samples, ids, env, i, w, now)
    requires id in now.processed + now.skipped && id !in w.handled
    ensures id in start.processed + start.skipped
  {
    var d, o := w.dispatched, w.outcomes;
    SieveExactly(d, o, true, id);
    SieveExactly(d, o, false, id);
  }

  /** Passing over a product already handled in the chunk or already in the ledger. */
  lemma WalkKnown(start: Sets, samples: seq<Sample>, ids: set<ProductId>, env: Env, i: nat, w: Walked, now: Sets)
    requires i < |samples| && Walk(start, samples, ids, env, i, w, now)
    requires samples[i].productId in w.handled + now.processed + now.skipped
    ensures Walk(start, samples, ids, env, i + 1, w.(handled := w.handled + {samples[i].productId}), now)
  {
    var id := samples[i].productId;
    if id !in w.handled {
      LedgeredBefore(start, samples, ids, env, i, w, now, id);
    }
    CoveredStep(samples, i, start, env, w, w.(handled := w.handled + {id}), false);
  }

  /** Marking a product whose report file exists as processed. */
  lemma WalkReported(start: Sets, samples: seq<Sample>, ids: set<ProductId>, env: Env, i: nat, w: Walked, now: Sets)
    requires i < |samples| && Walk(start, samples, ids, env, i, w, now)
    requires forall k :: 0 <= k < |samples| ==> samples[k].productId in ids
    requires samples[i].productId !in w.handled + now.processed + now.skipped
    requires env.reportExists(samples[i].productId)
    ensures var id := samples[i].productId;
      Walk(start, samples, ids, env, i + 1, w.(handled := w.handled + {id}, reported := w.reported + {id}),
           now.(processed := now.processed + {id}))
  {
    var id := samples[i].productId;
    CoveredStep(samples, i, start, env, w, w.(handled := w.handled + {id}, reported := w.reported + {id}), false);
  }

  /** A new dispatch of `id`, which was neither dispatched nor reported, keeps `Dispatches`. */
  lemma DispatchesSnoc(start: Sets, ids: set<ProductId>, env: Env, d: seq<ProductId>, o: seq<bool>, reported: set<ProductId>,
                       id: ProductId, skipped: bool)
    requires Dispatches(start, ids, env, d, o, reported)
    requires id !in d && id !in reported && Eligible(start.processed, start.skipped, ids, env, id)
    ensures Dispatches(start, ids, env, d + [id], o + [skipped], reported)
  {
  }

  /** Recording the dispatch of `id`, which was in neither set, keeps `Ledgered`. */
  lemma LedgeredSnoc(start: Sets, d: seq<ProductId>, o: seq<bool>, reported: set<ProductId>, now: Sets,
                     id: ProductId, skipped: bool, write: Write)
    requires Ledgered(start, d, o, reported, now)
    requires id !in now.processed && id !in now.skipped
    ensures Ledgered(start, d + [id], o + [skipped], reported, AfterDispatch(now, id, skipped, write))
  {
    SieveSnoc(d, o, id, skipped, true);
    SieveSnoc(d, o, id, skipped, false);
  }

  /** Rewriting a cache file after recording the dispatch of `id` keeps `Persisted`. */
  lemma PersistedSnoc(start: Sets, env: Env, d: seq<ProductId>, o: seq<bool>, marks: seq<set<ProductId>>,
                      reported: set<ProductId>, now: Sets, id: ProductId, skipped: bool)
    requires Persisted(start, env, d, o, marks, now) && Ledgered(start, d, o, reported, now)
    requires now.savedProcessed <= now.processed && now.savedSkipped <= now.skipped
    ensures Persisted(start, env, d + [id], o + [skipped], marks + [reported], AfterDispatch(now, id, skipped, env.write(id)))
  {
    SieveSnoc(d, o, id, skipped, true);
    SieveSnoc(d, o, id, skipped, false);
    GuaranteedSnoc(start, env, d, o, marks, id, skipped, reported, true);
    GuaranteedSnoc(start, env, d, o, marks, id, skipped, reported, false);
    LastWriteSnoc(env, d, o, id, skipped, true);
    LastWriteSnoc(env, d, o, id, skipped, false);
  }

  /** Marking the products reported so far before one more dispatch keeps `MarksFit`. */
  lemma MarksFitSnoc(marks: seq<set<ProductId>>, reported: set<ProductId>)
    requires MarksFit(marks, reported)
    ensures MarksFit(marks + [reported], reported)
  {
  }

  /** Every dispatched product is in the set its outcome names. */
  lemma LedgeredHolds(start: Sets, d: seq<ProductId>, o: seq<bool>, reported: set<ProductId>, now: Sets)
    requires Ledgered(start, d, o, reported, now)
    ensures forall j :: 0 <= j < |d| ==> d[j] in (if o[j] then now.skipped else now.processed)
  {
  }

  /** Facts about a dispatch of a product not yet handled, shared by the two lemmas below. */
  lemma DispatchRecorded(start: Sets, ids: set<ProductId>, env: Env, w: Walked, now: Sets, id: ProductId, skipped: bool)
    requires Recorded(start, ids, env, w.dispatched, w.outcomes, w.marks, w.reported, now)
    requires now.savedProcessed <= now.processed && now.savedSkipped <= now.skipped
    requires forall j :: 0 <= j < |w.dispatched| ==> w.dispatched[j] in w.handled
    requires w.handled <= now.processed + now.skipped
    requires id in ids && id !in w.handled + now.processed + now.skipped && !env.reportExists(id)
    ensures var now' := AfterDispatch(now, id, skipped, env.write(id));
      Recorded(start, ids, env, w.dispatched + [id], w.outcomes + [skipped], w.marks + [w.reported], w.reported, now') &&
      now'.savedProcessed <= now'.processed && now'.savedSkipped <= now'.skipped &&
      w.handled + {id} <= now'.processed + now'.skipped
  {
    var d, o := w.dispatched, w.outcomes;
    assert id !in d by {
      forall j | 0 <= j < |d| ensures d[j] != id {
        assert d[j] in w.handled;
      }
    }
    assert id !in w.reported;
    DispatchesSnoc(start, ids, env, d, o, w.reported, id, skipped);
    LedgeredSnoc(start, d, o, w.reported, now, id, skipped, env.write(id));
    PersistedSnoc(start, env, d, o, w.marks, w.reported, now, id, skipped);
    MarksFitSnoc(w.marks, w.reported);
  }

  /** Dispatching a product that does not end the chunk. */
  lemma WalkDispatched(start: Sets, samples: seq<Sample>, ids: set<ProductId>, env: Env, i: nat, w: Walked, now: Sets,
                       skipped: bool)
    requires i < |samples| && Walk(start, samples, ids, env, i, w, now)
    requires forall k :: 0 <= k < |samples| ==> samples[k].productId in ids
    requires samples[i].productId !in w.handled + now.processed + now.skipped
    requires !env.reportExists(samples[i].productId)
    requires !(skipped && (|w.dispatched| == 0 || w.consecutive + 1 >= MaxConsecutiveSkips))
    ensures var id := samples[i].productId;
      Walk(start, samples, ids, env, i + 1, AfterJob(w, id, skipped), AfterDispatch(now, id, skipped, env.write(id)))
  {
    var id := samples[i].productId;
    DispatchRecorded(start, ids, env, w, now, id, skipped);
    CoveredStep(samples, i, start, env, w, AfterJob(w, id, skipped), true);
    StreakSnoc(w.outcomes, w.consecutive, skipped);
  }

  /** Dispatching a product that ends the chunk. */
  lemma WalkAbandons(start: Sets, samples: seq<Sample>, ids: set<ProductId>, env: Env, i: nat, w: Walked, now: Sets,
                     skipped: bool)
    requires i < |samples| && Walk(start, samples, ids, env, i, w, now)
    requires forall k :: 0 <= k < |samples| ==> samples[k].productId in ids
    requires samples[i].productId !in w.handled + now.processed + now.skipped
    requires !env.reportExists(samples[i].productId)
    requires skipped && (|w.dispatched| == 0 || w.consecutive + 1 >= MaxConsecutiveSkips)
    ensures var id := samples[i].productId;
      Done(start, samples, ids, env, true, w.dispatched + [id], w.outcomes + [skipped], w.marks + [w.reported], w.reported,
           |w.dispatched|, AfterDispatch(now, id, skipped, env.write(id)))
  {
    var id := samples[i].productId;
    DispatchRecorded(start, ids, env, w, now, id, skipped);
    AbandonedPrefix(samples, i, start, env, w);
    StreakEnds(w.outcomes, w.consecutive);
    DoneAbandoned(start, samples, ids, env, w, id, now);
  }

  /** The dispatches up to an abandoning one are a prefix of a full walk's. */
  lemma AbandonedPrefix(samples: seq<Sample>, i: nat, start: Sets, env: Env, w: Walked)
    requires i < |samples| && Covered(samples, i, start, env, w)
    requires var id := samples[i].productId;
      id !in w.handled && id !in start.processed && id !in start.skipped && !env.reportExists(id)
    ensures w.dispatched + [samples[i].productId] <= EligibleInOrder(samples, |samples|, start, env)
  {
    OrderStep(samples, i, start, env, w);
    EligibleInOrderPrefix(samples, i + 1, |samples|, start, env);
  }

  /** A dispatch of the product of entry `i` extends the dispatches as a full walk would. */
  lemma OrderStep(samples: seq<Sample>, i: nat, start: Sets, env: Env, w: Walked)
    requires i < |samples| && Covered(samples, i, start, env, w)
    requires var id := samples[i].productId;
      id !in w.handled && id !in start.processed && id !in start.skipped && !env.reportExists(id)
    ensures EligibleInOrder(samples, i + 1, start, env) == w.dispatched + [samples[i].productId]
  {
  }

  /** A fully-skipped dispatch that ends the chunk ends it as `Done` says. */
  lemma StreakEnds(o: seq<bool>, consecutive: nat)
    requires Streak(o, consecutive) && (|o| == 0 || consecutive + 1 >= MaxConsecutiveSkips)
    ensures var o' := o + [true];
      && (|o'| > 1 ==> !o'[0])
      && (forall k :: 0 <= k && k + 3 < |o'| ==> !SkipRun(o', k))
      && (|o'| == 1 || TrailingSkips(o') >= MaxConsecutiveSkips)
  {
    TrailingSkipsSnoc(o, true);
    var o' := o + [true];
    forall k | 0 <= k && k + 3 < |o'| ensures !SkipRun(o', k) {
      assert !SkipRun(o, k);
    }
  }

  /** Puts together `Done` for a chunk abandoned by its last dispatch. */
  lemma DoneAbandoned(start: Sets, samples: seq<Sample>, ids: set<ProductId>, env: Env,
                      w: Walked, id: ProductId, now: Sets)
    requires Recorded(start, ids, env, w.dispatched + [id], w.outcomes + [true], w.marks + [w.reported], w.reported,
                      AfterDispatch(now, id, true, env.write(id)))
    requires w.dispatched + [id] <= EligibleInOrder(samples, |samples|, start, env)
    requires var o' := w.outcomes + [true];
      && (|o'| > 1 ==> !o'[0])
      && (forall k :: 0 <= k && k + 3 < |o'| ==> !SkipRun(o', k))
      && (|o'| == 1 || TrailingSkips(o') >= MaxConsecutiveSkips)
    ensures Done(start, samples, ids, env, true, w.dispatched + [id], w.outcomes + [true], w.marks + [w.reported], w.reported,
                 |w.dispatched|, AfterDispatch(now, id, true, env.write(id)))
  {
  }

  /** Reaching the end of the priority list. */
  lemma WalkEnds(start: Sets, samples: seq<Sample>, ids: set<ProductId>, env: Env, w: Walked, now: Sets)
    requires Walk(start, samples, ids, env, |samples|, w, now)
    ensures Done(start, samples, ids, env, false, w.dispatched, w.outcomes, w.marks, w.reported, |w.dispatched|, now)
  {
    var o := w.outcomes;
    if |o| > 0 && o[|o| - 1] && |o| > 1 {
      assert TrailingSkips(o) < MaxConsecutiveSkips;
    }
  }

  /**
   * One entry of the priority list (the body of the controller's inner `for`):
   * passes over a product handled earlier in the chunk or in the ledger,
   * marks a product with a report file as processed, and otherwise dispatches
   * the product, records its outcome in the ledger at once, and says whether
   * the chunk is abandoned.
   */
  method Visit(ledger: Ledger, samples: seq<Sample>, ids: set<ProductId>, env: Env, i: nat, w: Walked, ghost start: Sets)
    returns (w': Walked, stop: bool)
    requires i < |samples| && forall k :: 0 <= k < |samples| ==> samples[k].productId in ids
    requires ledger.Valid() && Walk(start, samples, ids, env, i, w, ledger.Snapshot())
    requires Judged(env, w.dispatched, w.outcomes)
    modifies ledger
    ensures ledger.Valid() && Judged(env, w'.dispatched, w'.outcomes)
    ensures var id := samples[i].productId;
      var dispatches := id !in w.handled && id !in old(ledger.processed) && id !in old(ledger.skipped) && !env.reportExists(id);
      && w'.dispatched == w.dispatched + (if dispatches then [id] else [])
      && w'.outcomes == w.outcomes + (if dispatches then [FullySkipped(env, id)] else [])
      && w'.marks == w.marks + (if dispatches then [w.reported] else [])
      && (stop <==> dispatches && FullySkipped(env, id) && (|w.dispatched| == 0 || w.consecutive + 1 >= MaxConsecutiveSkips))
    ensures !stop ==> Walk(start, samples, ids, env, i + 1, w', ledger.Snapshot())
    ensures stop ==>
      |w'.dispatched| > 0 &&
      Done(start, samples, ids, env, true, w'.dispatched, w'.outcomes, w'.marks, w'.reported, |w'.dispatched| - 1,
           ledger.Snapshot())
  {
    var id := samples[i].productId;
    ghost var now := ledger.Snapshot();
    stop := false;
    if id in w.handled {
      // a larger image of this product was already handled in this chunk
      WalkKnown(start, samples, ids, env, i, w, now);
      assert w.(handled := w.handled + {id}) == w;
      w' := w;
    } else if id in ledger.processed || id in ledger.skipped {
      WalkKnown(start, samples, ids, env, i, w, now);
      w' := w.(handled := w.handled + {id});
    } else if env.reportExists(id) {
      WalkReported(start, samples, ids, env, i, w, now);
      ledger.MarkReported(id);
      assert ledger.Snapshot() == now.(processed := now.processed + {id});
      w' := w.(handled := w.handled + {id}, reported := w.reported + {id});
    } else {
      w', stop := Dispatch(ledger, samples, ids, env, i, w, start);
    }
  }

  /**
   * Dispatches the product of entry `i` to its product job, records the
   * outcome in the ledger at once, and says whether the chunk is abandoned.
   */
  method Dispatch(ledger: Ledger, samples: seq<Sample>, ids: set<ProductId>, env: Env, i: nat, w: Walked, ghost start: Sets)
    returns (w': Walked, stop: bool)
    requires i < |samples| && forall k :: 0 <= k < |samples| ==> samples[k].productId in ids
    requires ledger.Valid() && Walk(start, samples, ids, env, i, w, ledger.Snapshot())
    requires Judged(env, w.dispatched, w.outcomes)
    requires samples[i].productId !in w.handled + ledger.processed + ledger.skipped
    requires !env.reportExists(samples[i].productId)
    modifies ledger
    ensures ledger.Valid() && Judged(env, w'.dispatched, w'.outcomes)
    ensures var id := samples[i].productId;
      && w'.dispatched == w.dispatched + [id]
      && w'.outcomes == w.outcomes + [FullySkipped(env, id)]
      && w'.marks == w.marks + [w.reported]
      && (stop <==> FullySkipped(env, id) && (|w.dispatched| == 0 || w.consecutive + 1 >= MaxConsecutiveSkips))
    ensures !stop ==> Walk(start, samples, ids, env, i + 1, w', ledger.Snapshot())
    ensures stop ==>
      |w'.dispatched| > 0 &&
      Done(start, samples, ids, env, true, w'.dispatched, w'.outcomes, w'.marks, w'.reported, |w'.dispatched| - 1,
           ledger.Snapshot())
  {
    var id := samples[i].productId;
    ghost var now := ledger.Snapshot();
    stop := false;
    var job := GetProductImages(env.find(id), Sync, "");
    JudgedSnoc(env, w.dispatched, w.outcomes, id);
    w' := w.(dispatched := w.dispatched + [id], outcomes := w.outcomes + [job.fullySkipped], marks := w.marks + [w.reported]);
    if job.fullySkipped {
      ledger.RecordSkipped(id, env.write(id));
      w' := w'.(consecutive := w.consecutive + 1);
      if |w.dispatched| == 0 || w'.consecutive >= MaxConsecutiveSkips {
        assert ledger.Snapshot() == AfterDispatch(now, id, true, env.write(id));
        WalkAbandons(start, samples, ids, env, i, w, now, true);
        return w', true;
      }
    } else {
      ledger.RecordProcessed(id, env.write(id));
      w' := w'.(consecutive := 0);
    }
    assert ledger.Snapshot() == AfterDispatch(now, id, job.fullySkipped, env.write(id));
    WalkDispatched(start, samples, ids, env, i, w, now, job.fullySkipped);
    w' := w'.(handled := w.handled + {id});
    assert w' == AfterJob(w, id, job.fullySkipped);
  }

  /**
   * Step 2 of a chunk: walks the priority list in order, visiting each entry
   * until the chunk is abandoned. `counted` is `chunk_processed_count`.
   */
  method DispatchChunk(ledger: Ledger, samples: seq<Sample>, ids: set<ProductId>, env: Env)
    returns (abandoned: bool, dispatched: seq<ProductId>, outcomes: seq<bool>, reported: set<ProductId>, counted: nat,
             ghost marks: seq<set<ProductId>>)
    requires ledger.Valid()
    requires forall k :: 0 <= k < |samples| ==> samples[k].productId in ids
    modifies ledger
    ensures ledger.Valid()
    ensures Done(old(ledger.Snapshot()), samples, ids, env, abandoned, dispatched, outcomes, marks, reported, counted,
                 ledger.Snapshot())
    ensures Judged(env, dispatched, outcomes)
  {
    ghost var start := ledger.Snapshot();
    var w := Walked({}, [], [], {}, 0, []);
    counted := 0;
    abandoned := false;
    for i := 0 to |samples|
      invariant ledger.Valid() && counted == |w.dispatched|
      invariant Walk(start, samples, ids, env, i, w, ledger.Snapshot())
      invariant Judged(env, w.dispatched, w.outcomes)
    {
      var stop;
      w, stop := Visit(ledger, samples, ids, env, i, w, start);
      if stop {
        abandoned := true;
        break;
      }
      counted := |w.dispatched|;
    }
    WalkFinished(start, samples, ids, env, w, abandoned, ledger.Snapshot());
    dispatched, outcomes, reported, marks := w.dispatched, w.outcomes, w.reported, w.marks;
    counted := if abandoned then |dispatched| - 1 else |dispatched|;
  }

  /** Where the walk stopped, early or at the end of the priority list, `Done` holds. */
  lemma WalkFinished(start: Sets, samples: seq<Sample>, ids: set<ProductId>, env: Env, w: Walked, abandoned: bool, now: Sets)
    requires abandoned ==>
               |w.dispatched| > 0 &&
               Done(start, samples, ids, env, true, w.dispatched, w.outcomes, w.marks, w.reported, |w.dispatched| - 1, now)
    requires !abandoned ==> Walk(start, samples, ids, env, |samples|, w, now)
    ensures Done(start, samples, ids, env, abandoned, w.dispatched, w.outcomes, w.marks, w.reported,
                 if abandoned then |w.dispatched| - 1 else |w.dispatched|, now)
  {
    if !abandoned {
      WalkEnds(start, samples, ids, env, w, now);
    }
  }

  /**
   * How processing `chunk` took the ledger from `before` to `after`: an empty
   * chunk, a chunk whose products are all in the ledger and a chunk without
   * images are passed over without change; any other chunk has its priority
   * list walked as `Done` says, finished or abandoned; and each outcome is the
   * product job's flag.
   */
  ghost predicate Processed(before: Sets, chunk: seq<Product>, env: Env, r: ChunkRun, after: Sets) {
    var ids, samples := ProductIds(chunk), AnalyzeAllImages(chunk, env.headSize, env.pick);
    (r.end == EmptyChunk <==> chunk == []) &&
    (r.end == AllHandled <==> chunk != [] && ids <= before.processed + before.skipped) &&
    (r.end == NoImages <==> chunk != [] && !(ids <= before.processed + before.skipped) && samples == []) &&
    (r.end in {EmptyChunk, AllHandled, NoImages} ==>
      r.dispatched == [] && r.outcomes == [] && r.reported == {} && r.counted == 0 && r.marks == [] && after == before) &&
    (r.end in {Finished, Abandoned} ==>
      Done(before, samples, ids, env, r.end == Abandoned, r.dispatched, r.outcomes, r.marks, r.reported, r.counted, after)) &&
    Judged(env, r.dispatched, r.outcomes)
  }

  /**
   * Processes one chunk: the body of the controller's `for` over chunks.
   * Empty chunks and chunks whose products are all in the ledger are passed
   * over without probing; otherwise the chunk's images are probed and
   * ordered, and its products dispatched in that order.
   */
  method ProcessChunk(ledger: Ledger, chunk: seq<Product>, env: Env)
    returns (end: ChunkEnd, dispatched: seq<ProductId>, outcomes: seq<bool>, reported: set<ProductId>, counted: nat,
             ghost marks: seq<set<ProductId>>)
    requires ledger.Valid()
    modifies ledger
    ensures ledger.Valid()
    ensures Processed(old(ledger.Snapshot()), chunk, env, ChunkRun(end, dispatched, outcomes, reported, counted, marks),
                      ledger.Snapshot())
    ensures counted <= |dispatched|
  {
    if chunk == [] {
      return EmptyChunk, [], [], {}, 0, [];
    }
    var ids := ProductIds(chunk);
    if ids <= ledger.processed + ledger.skipped {
      return AllHandled, [], [], {}, 0, [];
    }
    var samples := AnalyzeAllImages(chunk, env.headSize, env.pick);
    if samples == [] {
      return NoImages, [], [], {}, 0, [];
    }
    AnalyzeAllImagesFacts(chunk, env.headSize, env.pick);
    var abandoned;
    abandoned, dispatched, outcomes, reported, counted, marks := DispatchChunk(ledger, samples, ids, env);
    end := if abandoned then Abandoned else Finished;
  }

  /** The elements of a sequence of ids. */
  function Elems(s: seq<ProductId>): (r: set<ProductId>)
    ensures forall j :: 0 <= j < |s| ==> s[j] in r
    ensures forall id :: id in r ==> id in s
  {
    set id | id in s
  }

  /** The products a chunk's walk leaves in the ledger, and how the ledger changed. */
  lemma DoneFacts(start: Sets, samples: seq<Sample>, ids: set<ProductId>, env: Env, abandoned: bool,
                  d: seq<ProductId>, o: seq<bool>, marks: seq<set<ProductId>>, reported: set<ProductId>, counted: nat,
                  now: Sets)
    requires Done(start, samples, ids, env, abandoned, d, o, marks, reported, counted, now)
    ensures counted <= |d| && (abandoned ==> |d| > 0)
    ensures forall i, j :: 0 <= i < j < |d| ==> d[i] != d[j]
    ensures forall j :: 0 <= j < |d| ==> d[j] in ids && d[j] !in start.processed && d[j] !in start.skipped
    ensures forall id :: id in reported ==>
      id in ids && id !in start.processed && id !in start.skipped && env.reportExists(id)
    ensures now.processed + now.skipped == start.processed + start.skipped + Elems(d) + reported
    ensures start.processed <= now.processed && start.skipped <= now.skipped
    ensures start.processed !! start.skipped ==> now.processed !! now.skipped
  {
    forall id | id in now.processed + now.skipped
      ensures id in start.processed + start.skipped + Elems(d) + reported
    {
      SieveExactly(d, o, true, id);
      SieveExactly(d, o, false, id);
    }
    LedgeredHolds(start, d, o, reported, now);
  }

  /**
   * A chunk whose walk was not abandoned leaves every product of the chunk
   * that has an image in the ledger, so the next run passes over such a
   * chunk without probing it when none of its products is imageless.
   */
  lemma FinishedChunkHandled(start: Sets, chunk: seq<Product>, env: Env,
                             d: seq<ProductId>, o: seq<bool>, marks: seq<set<ProductId>>, reported: set<ProductId>,
                             counted: nat, now: Sets)
    requires Done(start, AnalyzeAllImages(chunk, env.headSize, env.pick), ProductIds(chunk), env, false, d, o, marks,
                  reported, counted, now)
    ensures forall p :: p in chunk && |p.images| > 0 ==> p.id in now.processed + now.skipped
    ensures (forall p :: p in chunk ==> |p.images| > 0) ==> ProductIds(chunk) <= now.processed + now.skipped
  {
    var samples := AnalyzeAllImages(chunk, env.headSize, env.pick);
    forall p | p in chunk && |p.images| > 0 ensures p.id in now.processed + now.skipped {
      EveryImageProbed(chunk, env.headSize, env.pick, p, 0);
      var s := ProbeSample(ImageInfo(p.images[0].src, p.id, p.images[0].id, p.title), env.headSize);
      var k :| 0 <= k < |samples| && samples[k] == s;
    }
  }

  /** Under automatic sync a dispatched product is fully skipped iff it is gone or none of its images is readable and large enough. */
  lemma FullySkippedMeans(env: Env, id: ProductId)
    ensures FullySkipped(env, id) <==>
      env.find(id).Missing? ||
      (env.find(id).Found? &&
       forall i :: 0 <= i < |env.find(id).images| ==>
         var image := env.find(id).images[i];
         image.probe.None? || image.download.None? || image.download.value.size < LargeThreshold ||
         Transcode.Search(image.encode, StartQuality).None?)
  {
    JobSkips(env.find(id), Sync, "");
    if env.find(id).Found? {
      AutoSyncSkipsOnlySmall(env.find(id), "");
    }
  }
}
