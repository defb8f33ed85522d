/**
 * The maintenance tasks (worker/tasks/maintenance.py): purging the
 * quarantine, the daily statistics and the tally of the database
 * optimisation.
 *
 * Times are integers counted in seconds; the database's own failures are
 * inputs.
 */
module Maintenance {
  import opened Common
  import opened Storage
  import Classifier

  const SecondsPerDay := 86400
  /** `settings.QUARANTINE_DAYS`. */
  const QuarantineDays := 7

  // ---------------------------------------------------------------------------
  // cleanup_quarantine
  // ---------------------------------------------------------------------------

  /** A soft-deleted email whose deletion time lies before the cutoff (a missing time compares false). */
  predicate Expired(e: Email, cutoff: int) {
    e.isDeleted && e.deletedAt.Some? && e.deletedAt.value < cutoff
  }

  function Cutoff(now: int): int {
    now - QuarantineDays * SecondsPerDay
  }

  /** The ids the cleanup query selects. */
  function ExpiredIds(emails: map<int, Email>, cutoff: int): (ids: set<int>)
    ensures ids <= emails.Keys
  {
    set id | id in emails && Expired(emails[id], cutoff)
  }

  /** The rows a cleanup keeps. */
  function Kept(emails: map<int, Email>, cutoff: int): map<int, Email> {
    map id | id in emails && !Expired(emails[id], cutoff) :: emails[id]
  }

  /**
   * A cleanup removes exactly the expired rows, keeps every other row as it
   * was, and the number it reports is the number of rows removed.
   */
  lemma CleanupRemovesExactlyExpired(emails: map<int, Email>, cutoff: int)
    ensures forall id :: id in Kept(emails, cutoff) <==> id in emails && !Expired(emails[id], cutoff)
    ensures forall id :: id in Kept(emails, cutoff) ==> Kept(emails, cutoff)[id] == emails[id]
    ensures |Kept(emails, cutoff)| + |ExpiredIds(emails, cutoff)| == |emails|
  {
    var kept := Kept(emails, cutoff).Keys;
    var gone := ExpiredIds(emails, cutoff);
    assert kept == emails.Keys - gone;
    assert kept !! gone && kept + gone == emails.Keys;
    assert |kept + gone| == |kept| + |gone|;
    assert |Kept(emails, cutoff)| == |kept| && |emails| == |emails.Keys|;
  }

  /** Running the cleanup twice at the same time removes nothing the second time. */
  lemma CleanupIdempotent(emails: map<int, Email>, cutoff: int)
    ensures ExpiredIds(Kept(emails, cutoff), cutoff) == {}
    ensures Kept(Kept(emails, cutoff), cutoff) == Kept(emails, cutoff)
  {
  }

  datatype CleanupResult =
    | CleanupCompleted(emailsDeleted: nat)
    | CleanupFailed(emailsDeleted: nat, error: string)

  /** The rows of `emails` that are not in `gone`. */
  function Without(emails: map<int, Email>, gone: set<int>): map<int, Email> {
    map id | id in emails && id !in gone :: emails[id]
  }

  /** Removing the expired ids leaves what the cleanup keeps. */
  lemma WithoutExpiredIsKept(emails: map<int, Email>, cutoff: int)
    ensures Without(emails, ExpiredIds(emails, cutoff)) == Kept(emails, cutoff)
  {
  }

  /**
   * `cleanup_quarantine`: delete every expired email one by one and report how
   * many; nothing is deleted when none is expired.  `failure` is the error the
   * database raised, if any, in which case the transaction is rolled back.
   */
  method CleanupQuarantine(store: Store, now: int, failure: Option<string>) returns (r: CleanupResult)
    modifies store
    ensures failure.Some? ==> r == CleanupFailed(0, failure.value) && store.emails == old(store.emails)
    ensures failure.None? ==>
              r == CleanupCompleted(|ExpiredIds(old(store.emails), Cutoff(now))|)
              && store.emails == Kept(old(store.emails), Cutoff(now))
    ensures store.accounts == old(store.accounts) && store.nextId == old(store.nextId)
  {
    if failure.Some? {
      return CleanupFailed(0, failure.value);
    }
    var cutoff := Cutoff(now);
    var doomed := ExpiredIds(store.emails, cutoff);
    WithoutExpiredIsKept(store.emails, cutoff);
    var count := |doomed|;
    if count > 0 {
      var rest := doomed;
      while exists id :: id in rest
        invariant rest <= doomed
        invariant store.emails == Without(old(store.emails), doomed - rest)
        invariant store.accounts == old(store.accounts) && store.nextId == old(store.nextId)
        decreases rest
      {
        var victim :| victim in rest;
        store.emails := store.emails - {victim};
        rest := rest - {victim};
      }
    } else {
      assert doomed == {};
    }
    r := CleanupCompleted(count);
  }

  // ---------------------------------------------------------------------------
  // generate_daily_stats
  // ---------------------------------------------------------------------------

  /** The ids of the emails created at or after `since` whose `key` lies in `keys`. */
  function Slice<K>(emails: map<int, Email>, since: int, key: Email -> K, keys: set<K>): set<int> {
    set id | id in emails && emails[id].createdAt >= since && key(emails[id]) in keys
  }

  /** The ids of the emails created at or after `since`. */
  function RecentIds(emails: map<int, Email>, since: int): (ids: set<int>)
    ensures ids <= emails.Keys
  {
    set id | id in emails && emails[id].createdAt >= since
  }

  function CategoryOf(e: Email): Category { e.category }

  function StatusOf(e: Email): Status { e.status }

  /** The recent emails of one category. */
  function InCategory(emails: map<int, Email>, since: int, c: Category): set<int> {
    Slice(emails, since, CategoryOf, {c})
  }

  /** The recent emails with one status. */
  function WithStatus(emails: map<int, Email>, since: int, s: Status): set<int> {
    Slice(emails, since, StatusOf, {s})
  }

  /** The sum of the slice sizes, one slice per key of `keys`. */
  function SliceSum<K(==)>(emails: map<int, Email>, since: int, key: Email -> K, keys: seq<K>): nat {
    if keys == [] then 0
    else SliceSum(emails, since, key, keys[..|keys| - 1]) + |Slice(emails, since, key, {keys[|keys| - 1]})|
  }

  /** Slices of distinct keys do not overlap, so their sizes add up to the size of their union. */
  lemma {:induction false} SliceSumIsUnion<K>(emails: map<int, Email>, since: int, key: Email -> K, keys: seq<K>)
    requires Distinct(keys)
    ensures SliceSum(emails, since, key, keys) == |Slice(emails, since, key, set k | k in keys)|
  {
    if keys != [] {
      var init, last := keys[..|keys| - 1], keys[|keys| - 1];
      SliceSumIsUnion(emails, since, key, init);
      var a, b := Slice(emails, since, key, set k | k in init), Slice(emails, since, key, {last});
      assert last !in init;
      assert a !! b;
      assert a + b == Slice(emails, since, key, set k | k in keys);
      assert |a + b| == |a| + |b|;
    }
  }

  lemma AllCategoriesListsEvery(c: Category)
    ensures c in AllCategories
  {
    match c
    case INVOICE => case RECEIPT => case DOCUMENT => case PROFESSIONAL => case NEWSLETTER =>
    case PROMOTION => case SOCIAL => case NOTIFICATION => case PERSONAL => case SPAM => case UNKNOWN =>
  }

  lemma AllStatusesListsEvery(s: Status)
    ensures s in AllStatuses
  {
    match s
    case PENDING => case PROCESSING => case CLASSIFIED => case ARCHIVED => case DELETED => case ERROR =>
  }

  /**
   * Every recent email has exactly one category, so the per-category counts of
   * the daily statistics add up to its `total_emails`.
   */
  lemma CategoryCountsAddUp(emails: map<int, Email>, since: int)
    ensures SliceSum(emails, since, CategoryOf, AllCategories) == |RecentIds(emails, since)|
  {
    SliceSumIsUnion(emails, since, CategoryOf, AllCategories);
    forall id | id in RecentIds(emails, since)
      ensures id in Slice(emails, since, CategoryOf, set k | k in AllCategories)
    {
      AllCategoriesListsEvery(emails[id].category);
    }
    assert Slice(emails, since, CategoryOf, set k | k in AllCategories) == RecentIds(emails, since);
  }

  /** Likewise every recent email has exactly one status. */
  lemma StatusCountsAddUp(emails: map<int, Email>, since: int)
    ensures SliceSum(emails, since, StatusOf, AllStatuses) == |RecentIds(emails, since)|
  {
    SliceSumIsUnion(emails, since, StatusOf, AllStatuses);
    forall id | id in RecentIds(emails, since)
      ensures id in Slice(emails, since, StatusOf, set k | k in AllStatuses)
    {
      AllStatusesListsEvery(emails[id].status);
    }
    assert Slice(emails, since, StatusOf, set k | k in AllStatuses) == RecentIds(emails, since);
  }

  /** `int(x) if x else 0` on an aggregate that is NULL over no rows. */
  function OrZero(aggregate: Option<real>): (n: int)
    ensures aggregate.None? || aggregate == Some(0.0) ==> n == 0
    ensures aggregate.Some? && aggregate.value >= 0.0 ==> 0 <= n && n as real <= aggregate.value
  {
    if aggregate.None? || aggregate.value == 0.0 then 0 else Classifier.Truncate(aggregate.value)
  }

  /** The average, minimum and maximum processing times the database reports. */
  datatype Aggregates = Aggregates(avg: Option<real>, min: Option<real>, max: Option<real>)

  datatype ProcessingStats = ProcessingStats(avgTimeMs: int, minTimeMs: int, maxTimeMs: int)

  datatype DailyStats = DailyStats(categories: map<string, nat>, processing: ProcessingStats, totals: map<string, nat>)

  datatype StatsResult = StatsCompleted(stats: DailyStats) | StatsFailed(error: string)

  const TotalEmailsKey := "total_emails"

  lemma StatusValuesAreNotTheTotalKey(s: Status)
    ensures StatusValue(s) != TotalEmailsKey
  {
    assert TotalEmailsKey[0] == 't' && TotalEmailsKey[1] == 'o';
  }

  /** The per-category counts, keyed by the categories' values. */
  method CountCategories(emails: map<int, Email>, since: int) returns (counts: map<string, nat>)
    ensures forall c :: CategoryValue(c) in counts && counts[CategoryValue(c)] == |InCategory(emails, since, c)|
    ensures forall key :: key in counts ==> exists c :: key == CategoryValue(c)
  {
    counts := map[];
    for i := 0 to |AllCategories|
      invariant forall k :: 0 <= k < i ==>
                  CategoryValue(AllCategories[k]) in counts
                  && counts[CategoryValue(AllCategories[k])] == |InCategory(emails, since, AllCategories[k])|
      invariant forall key :: key in counts ==> exists c :: key == CategoryValue(c)
    {
      forall k | 0 <= k < i
        ensures CategoryValue(AllCategories[k]) != CategoryValue(AllCategories[i])
      {
        if CategoryValue(AllCategories[k]) == CategoryValue(AllCategories[i]) {
          CategoryValueInjective(AllCategories[k], AllCategories[i]);
        }
      }
      counts := counts[CategoryValue(AllCategories[i]) := |InCategory(emails, since, AllCategories[i])|];
    }
    forall c ensures CategoryValue(c) in counts && counts[CategoryValue(c)] == |InCategory(emails, since, c)| {
      AllCategoriesListsEvery(c);
    }
  }

  /** The per-status counts, keyed by the statuses' values. */
  method CountStatuses(emails: map<int, Email>, since: int) returns (counts: map<string, nat>)
    ensures forall s :: StatusValue(s) in counts && counts[StatusValue(s)] == |WithStatus(emails, since, s)|
    ensures forall key :: key in counts ==> exists s :: key == StatusValue(s)
  {
    counts := map[];
    for i := 0 to |AllStatuses|
      invariant forall k :: 0 <= k < i ==>
                  StatusValue(AllStatuses[k]) in counts
                  && counts[StatusValue(AllStatuses[k])] == |WithStatus(emails, since, AllStatuses[k])|
      invariant forall key :: key in counts ==> exists s :: key == StatusValue(s)
    {
      forall k | 0 <= k < i
        ensures StatusValue(AllStatuses[k]) != StatusValue(AllStatuses[i])
      {
        if StatusValue(AllStatuses[k]) == StatusValue(AllStatuses[i]) {
          StatusValueInjective(AllStatuses[k], AllStatuses[i]);
        }
      }
      counts := counts[StatusValue(AllStatuses[i]) := |WithStatus(emails, since, AllStatuses[i])|];
    }
    forall s ensures StatusValue(s) in counts && counts[StatusValue(s)] == |WithStatus(emails, since, s)| {
      AllStatusesListsEvery(s);
    }
  }

  /**
   * `generate_daily_stats`: one count per category value and one per status
   * value over the emails created in the last day, the processing times, and
   * the number of those emails under `total_emails`.  `failure` is the error
   * the database raised, if any.
   */
  method GenerateDailyStats(emails: map<int, Email>, now: int, aggregates: Aggregates, failure: Option<string>)
    returns (r: StatsResult)
    ensures r.StatsFailed? <==> failure.Some?
    ensures r.StatsFailed? ==> r.error == failure.value
    ensures r.StatsCompleted? ==>
              var since := now - SecondsPerDay;
              (forall c :: CategoryValue(c) in r.stats.categories
                           && r.stats.categories[CategoryValue(c)] == |InCategory(emails, since, c)|)
              && (forall key :: key in r.stats.categories ==> exists c :: key == CategoryValue(c))
              && (forall s :: StatusValue(s) in r.stats.totals
                              && r.stats.totals[StatusValue(s)] == |WithStatus(emails, since, s)|)
              && TotalEmailsKey in r.stats.totals
              && r.stats.totals[TotalEmailsKey] == |RecentIds(emails, since)|
              && (forall key :: key in r.stats.totals ==> key == TotalEmailsKey || exists s :: key == StatusValue(s))
              && r.stats.processing
                 == ProcessingStats(OrZero(aggregates.avg), OrZero(aggregates.min), OrZero(aggregates.max))
  {
    if failure.Some? {
      return StatsFailed(failure.value);
    }
    var yesterday := now - SecondsPerDay;
    var categories := CountCategories(emails, yesterday);
    var processing := ProcessingStats(OrZero(aggregates.avg), OrZero(aggregates.min), OrZero(aggregates.max));
    var totals := CountStatuses(emails, yesterday);
    forall s ensures StatusValue(s) != TotalEmailsKey {
      StatusValuesAreNotTheTotalKey(s);
    }
    totals := totals[TotalEmailsKey := |RecentIds(emails, yesterday)|];
    r := StatsCompleted(DailyStats(categories, processing, totals));
  }

  // ---------------------------------------------------------------------------
  // optimize_database
  // ---------------------------------------------------------------------------

  /** The tables the optimisation runs VACUUM ANALYZE on, in order. */
  const Tables: seq<string> := ["emails", "email_accounts", "email_attachments", "processing_logs", "users"]

  /** One entry of `details`: the table, and the error when its VACUUM ANALYZE failed. */
  datatype TableOutcome = TableOutcome(table: string, error: Option<string>)

  predicate Succeeded(t: TableOutcome) { t.error.None? }

  predicate Failed(t: TableOutcome) { t.error.Some? }

  datatype OptimizeResult =
    | OptimizeCompleted(tablesOptimized: nat, errors: nat, details: seq<TableOutcome>)
    | OptimizeFailed(error: string)

  /**
   * `optimize_database`: run VACUUM ANALYZE on every table in turn, recording
   * each table's outcome whatever the others' were, then count the successes
   * and the errors.  `vacuum` gives the error VACUUM ANALYZE raises on a
   * table, if any; `failure` is an error raised outside the per-table
   * handlers (opening the session), which fails the whole run.  The index
   * health query only logs, so its outcome is not part of the result.
   */
  method OptimizeDatabase(vacuum: string -> Option<string>, failure: Option<string>) returns (r: OptimizeResult)
    ensures failure.Some? ==> r == OptimizeFailed(failure.value)
    ensures failure.None? ==>
              r.OptimizeCompleted?
              && |r.details| == |Tables|
              && (forall i :: 0 <= i < |Tables| ==> r.details[i] == TableOutcome(Tables[i], vacuum(Tables[i])))
              && r.tablesOptimized == CountWhere(r.details, Succeeded)
              && r.errors == CountWhere(r.details, Failed)
              && r.tablesOptimized + r.errors == |Tables|
  {
    if failure.Some? {
      return OptimizeFailed(failure.value);
    }
    var details: seq<TableOutcome> := [];
    for i := 0 to |Tables|
      invariant |details| == i
      invariant forall k :: 0 <= k < i ==> details[k] == TableOutcome(Tables[k], vacuum(Tables[k]))
    {
      details := details + [TableOutcome(Tables[i], vacuum(Tables[i]))];
    }
    SuccessesAndErrorsPartition(details);
    r := OptimizeCompleted(CountWhere(details, Succeeded), CountWhere(details, Failed), details);
  }

  /** Every outcome is either a success or an error, never both. */
  lemma {:induction false} SuccessesAndErrorsPartition(details: seq<TableOutcome>)
    ensures CountWhere(details, Succeeded) + CountWhere(details, Failed) == |details|
  {
    if details != [] {
      SuccessesAndErrorsPartition(details[1..]);
    }
  }
}
