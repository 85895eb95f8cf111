/**
 * The cache and the orchestration of the current pipeline: a
 * `PerformanceOptimizer` keeps the last non-empty table and the moment it
 * was saved, and `GetHnMonitorsOptimized` either answers from that cache or
 * processes the suite list in batches of five. Clock readings are whole
 * microseconds (the resolution of the ISO timestamps the cache stores).
 */
module Optimizer {
  import opened Basics
  import opened NameGrammar
  import opened Channels
  import opened Rows

  /** `self.cache_duration`, in seconds. */
  const CacheDurationSeconds: int := 300
  const MicrosPerSecond: int := 1_000_000
  /** Suites handed to the pool together. */
  const BatchSize: nat := 5

  function Min(a: int, b: int): int {
    if a <= b then a else b
  }

  /** `stamp` read back from the metadata, `None` when absent or unparsable. */
  predicate Fresh(stamp: Option<int>, now: int) {
    stamp.Some? && now - stamp.value < CacheDurationSeconds * MicrosPerSecond
  }

  /** `if limit_suits and limit_suits > 0: suits = suits[:limit_suits]` */
  function Limited(suites: seq<Suite>, limit: Option<int>): seq<Suite> {
    if limit.Some? && limit.value > 0 && limit.value < |suites| then suites[..limit.value] else suites
  }

  /** A suite's contribution: an exception from `fetch_suit_data` is logged and dropped. */
  function SuiteRows(s: Suite, directory: seq<ChannelEntry>): seq<Row> {
    match SuiteOutcome(s, directory)
    case Ok(rows) => rows
    case Raised(_) => []
  }

  /** The rows of each suite, in suite order. */
  function SuiteGroups(suites: seq<Suite>, directory: seq<ChannelEntry>): seq<seq<Row>> {
    seq(|suites|, i requires 0 <= i < |suites| => SuiteRows(suites[i], directory))
  }

  /** The table built from a suite list. */
  function TableOf(suites: seq<Suite>, directory: seq<ChannelEntry>): seq<Row> {
    Flatten(SuiteGroups(suites, directory))
  }

  /** A fresh table: empty when the suite list could not be fetched. */
  function FreshTable(fetched: Option<seq<Suite>>, limit: Option<int>, directory: seq<ChannelEntry>): seq<Row> {
    match fetched
    case None => []
    case Some(suites) => TableOf(Limited(suites, limit), directory)
  }

  /** `suits[i:i + batch_size]` */
  function BatchAt<T>(xs: seq<T>, i: nat): seq<T>
    requires i <= |xs|
  {
    xs[i..Min(i + BatchSize, |xs|)]
  }

  /** The batches of `range(0, len(suits), batch_size)`, from position `i` on. */
  function BatchesFrom<T>(xs: seq<T>, i: nat): seq<seq<T>>
    requires i <= |xs|
    decreases |xs| - i
  {
    if i == |xs| then [] else [BatchAt(xs, i)] + BatchesFrom(xs, Min(i + BatchSize, |xs|))
  }

  function Batches<T>(xs: seq<T>): seq<seq<T>> {
    BatchesFrom(xs, 0)
  }

  class PerformanceOptimizer {
    /** The rows in the cache file, `None` when it is missing or unreadable. */
    var storedRows: Option<seq<Row>>
    /** The timestamp in the cache metadata, `None` when missing or unparsable. */
    var storedAt: Option<int>

    /** Starts from whatever a previous run left in the cache directory. */
    constructor(rowsOnDisk: Option<seq<Row>>, stampOnDisk: Option<int>)
      ensures storedRows == rowsOnDisk && storedAt == stampOnDisk
    {
      storedRows := rowsOnDisk;
      storedAt := stampOnDisk;
    }

    /** `is_cache_valid` */
    predicate IsCacheValid(now: int)
      reads this
    {
      Fresh(storedAt, now)
    }

    /** `load_from_cache` */
    method LoadFromCache(now: int) returns (cached: Option<seq<Row>>)
      ensures cached.Some? <==> IsCacheValid(now) && storedRows.Some?
      ensures cached.Some? ==> cached == storedRows
    {
      if !IsCacheValid(now) {
        return None;
      }
      cached := storedRows;
    }

    /** `save_to_cache`: the rows, then the timestamp. */
    method SaveToCache(rows: seq<Row>, now: int)
      modifies this
      ensures storedRows == Some(rows) && storedAt == Some(now)
      ensures forall t :: now <= t < now + CacheDurationSeconds * MicrosPerSecond ==> IsCacheValid(t)
    {
      storedRows := Some(rows);
      storedAt := Some(now);
    }

    /**
     * `get_hn_monitors_optimized`. `fetched` is the suite list with every
     * monitor's detail, `None` when the suite-list request failed; `now` is
     * the clock at the start and `savedAt` the clock when the cache is
     * written.
     */
    method GetHnMonitorsOptimized(forceRefresh: bool, limitSuits: Option<int>, fetched: Option<seq<Suite>>,
                                  directory: seq<ChannelEntry>, now: int, savedAt: int)
      returns (table: seq<Row>)
      modifies this
      ensures var hit := !forceRefresh && old(IsCacheValid(now)) && old(storedRows).Some?;
        && (hit ==> table == old(storedRows).value && storedRows == old(storedRows) && storedAt == old(storedAt))
        && (!hit ==> table == FreshTable(fetched, limitSuits, directory))
        && (!hit && table != [] ==> storedRows == Some(table) && storedAt == Some(savedAt))
        && (!hit && table == [] ==> storedRows == old(storedRows) && storedAt == old(storedAt))
    {
      if !forceRefresh {
        var cachedData := LoadFromCache(now);
        if cachedData.Some? {
          return cachedData.value;
        }
      }
      if fetched.None? {
        return [];
      }
      var suites := Limited(fetched.value, limitSuits);
      table := ProcessInBatches(suites, directory);
      if table != [] {
        SaveToCache(table, savedAt);
      }
    }
  }

  /** The batch loop of `get_hn_monitors_optimized`; the ghost `done` shows it visits exactly `Batches(suites)`, in order. */
  method ProcessInBatches(suites: seq<Suite>, directory: seq<ChannelEntry>) returns (rows: seq<Row>)
    ensures rows == TableOf(suites, directory)
  {
    rows := [];
    var i: nat := 0;
    ghost var done: seq<seq<Suite>> := [];
    while i < |suites|
      invariant i <= |suites|
      invariant done + BatchesFrom(suites, i) == Batches(suites)
      invariant rows == TableOf(suites[..i], directory)
      decreases |suites| - i
    {
      var batch := BatchAt(suites, i);
      var batchRows := RunBatch(batch, directory);
      var next := Min(i + BatchSize, |suites|);
      BatchStep(suites, i, directory);
      rows := rows + batchRows;
      done := done + [batch];
      i := next;
    }
    assert done == Batches(suites);
    assert suites[..|suites|] == suites;
  }

  /** One batch: each suite's rows are added as its task completes; a raising suite adds none. */
  method RunBatch(batch: seq<Suite>, directory: seq<ChannelEntry>) returns (rows: seq<Row>)
    ensures rows == TableOf(batch, directory)
  {
    ghost var groups := SuiteGroups(batch, directory);
    rows := [];
    for j := 0 to |batch|
      invariant rows == Flatten(groups[..j])
    {
      var suiteResults := FetchSuitData(batch[j], directory);
      var suiteRows := if suiteResults.Ok? then suiteResults.value else [];
      assert suiteRows == groups[j];
      FlattenPrefixStep(groups, j);
      rows := rows + suiteRows;
    }
    assert groups[..|batch|] == groups;
  }

  // ------------------------------------------------------------ properties

  /** One pass of the batch loop: the next batch extends both the batch list and the table. */
  lemma {:induction false} BatchStep(suites: seq<Suite>, i: nat, directory: seq<ChannelEntry>)
    requires i < |suites|
    ensures var next := Min(i + BatchSize, |suites|);
      && BatchesFrom(suites, i) == [BatchAt(suites, i)] + BatchesFrom(suites, next)
      && TableOf(suites[..next], directory) == TableOf(suites[..i], directory) + TableOf(BatchAt(suites, i), directory)
  {
    var next := Min(i + BatchSize, |suites|);
    assert suites[..next] == suites[..i] + BatchAt(suites, i);
    TableAppend(suites[..i], BatchAt(suites, i), directory);
  }

  /** Once the cache has expired it stays expired until the next save. */
  lemma ExpiryIsPermanent(stamp: Option<int>, t1: int, t2: int)
    requires !Fresh(stamp, t1) && t1 <= t2
    ensures !Fresh(stamp, t2)
  {
  }

  /** The limit keeps a prefix: its first `limit` suites, or all of them when it is absent, zero or negative. */
  lemma LimitIsPrefix(suites: seq<Suite>, limit: Option<int>)
    ensures var kept := Limited(suites, limit);
      kept <= suites &&
      |kept| == (if limit.Some? && limit.value > 0 then Min(limit.value, |suites|) else |suites|)
  {
  }

  lemma {:induction false} TableAppend(a: seq<Suite>, b: seq<Suite>, directory: seq<ChannelEntry>)
    ensures TableOf(a + b, directory) == TableOf(a, directory) + TableOf(b, directory)
  {
    assert SuiteGroups(a + b, directory) == SuiteGroups(a, directory) + SuiteGroups(b, directory);
    FlattenAppend(SuiteGroups(a, directory), SuiteGroups(b, directory));
  }

  /** A limited run produces a prefix of the rows of the unlimited run. */
  lemma LimitedTableIsPrefix(suites: seq<Suite>, limit: Option<int>, directory: seq<ChannelEntry>)
    ensures TableOf(Limited(suites, limit), directory) <= TableOf(suites, directory)
  {
    var kept := Limited(suites, limit);
    assert suites == kept + suites[|kept|..];
    TableAppend(kept, suites[|kept|..], directory);
  }

  lemma TableOfOne(x: Suite, directory: seq<ChannelEntry>)
    ensures TableOf([x], directory) == SuiteRows(x, directory)
  {
    assert SuiteGroups([x], directory) == [SuiteRows(x, directory)];
    assert Flatten([SuiteRows(x, directory)]) == SuiteRows(x, directory) + Flatten<Row>([]);
  }

  /** A suite whose name does not decode, or whose decoding raises, contributes no rows. */
  lemma UndecodableSuiteContributesNothing(suites: seq<Suite>, k: nat, directory: seq<ChannelEntry>)
    requires k < |suites| && !ParseSuiteName(suites[k].name).Match?
    ensures TableOf(suites, directory) == TableOf(suites[..k], directory) + TableOf(suites[k + 1..], directory)
  {
    var pre, x, post := suites[..k], suites[k], suites[k + 1..];
    assert suites == pre + ([x] + post);
    TableAppend(pre, [x] + post, directory);
    TableAppend([x], post, directory);
    TableOfOne(x, directory);
    UndecodableSuiteRows(x, directory);
  }

  lemma UndecodableSuiteRows(x: Suite, directory: seq<ChannelEntry>)
    requires !ParseSuiteName(x.name).Match?
    ensures SuiteRows(x, directory) == []
  {
  }

  /**
   * The pool returns suite results in completion order, any permutation of
   * the submitted suites: the table holds the same rows.
   */
  lemma CompletionOrderIrrelevant(suites: seq<Suite>, directory: seq<ChannelEntry>, completed: seq<seq<Row>>)
    requires multiset(completed) == multiset(SuiteGroups(suites, directory))
    ensures multiset(Flatten(completed)) == multiset(TableOf(suites, directory))
  {
    FlattenPermutation(completed, SuiteGroups(suites, directory));
  }

  /**
   * Both pools at once: each suite's rows come back in any order of its
   * monitor tasks, and the suites themselves complete in any order; the
   * table still holds the same rows.
   */
  lemma NestedCompletionOrderIrrelevant(suites: seq<Suite>, directory: seq<ChannelEntry>,
                                        perSuite: seq<seq<Row>>, completed: seq<seq<Row>>)
    requires |perSuite| == |suites|
    requires forall i :: 0 <= i < |suites| ==> multiset(perSuite[i]) == multiset(SuiteRows(suites[i], directory))
    requires multiset(completed) == multiset(perSuite)
    ensures multiset(Flatten(completed)) == multiset(TableOf(suites, directory))
  {
    var groups := SuiteGroups(suites, directory);
    FlattenPermutation(completed, perSuite);
    FlattenPermuteWithin(perSuite, groups);
  }

  /** The batches are consecutive, non-empty, at most five long, and together are the suite list. */
  lemma {:induction false} BatchesFromCover<T>(xs: seq<T>, i: nat)
    requires i <= |xs|
    ensures Flatten(BatchesFrom(xs, i)) == xs[i..]
    ensures forall b :: b in BatchesFrom(xs, i) ==> 0 < |b| <= BatchSize
    decreases |xs| - i
  {
    if i < |xs| {
      var next := Min(i + BatchSize, |xs|);
      BatchesFromCover(xs, next);
      assert xs[i..] == BatchAt(xs, i) + xs[next..];
    }
  }

  lemma BatchesCover<T>(xs: seq<T>)
    ensures Flatten(Batches(xs)) == xs
    ensures forall b :: b in Batches(xs) ==> 0 < |b| <= BatchSize
  {
    BatchesFromCover(xs, 0);
  }
}
