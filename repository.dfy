/**
 * The `job_offers` table and the repository's operations on it: the batched upsert keyed by
 * `(externalId, provider)`, the deactivation of stale offers, and the filtered, paged query.
 * The database executes each statement atomically; its verdict on a statement (rows
 * affected, or an error) is an input.
 */
module Repository {
  import opened Wrappers
  import opened Text
  import opened OrderedMaps
  import opened Payloads
  import opened Jobs
  import opened Batches
  import opened Sorting

  /** The natural key of a job offer, `(externalId, provider)`, unique in the table. */
  type Key = (string, string)

  /** A row of `job_offers`. The generated `id` is a number here. The list columns are
      declared not null with an empty default, but are kept optional here because
      `toResponseDto` guards them with `|| []`. There is no column for the raw provider
      record. */
  datatype JobOffer = JobOffer(
    id: nat,
    externalId: string,
    provider: string,
    title: string,
    company: string,
    description: string,
    location: string,
    employmentType: string,
    experienceLevel: string,
    minSalary: Option<int>,
    maxSalary: Option<int>,
    currency: Option<string>,
    postedDate: Option<Timestamp>,
    applicationDeadline: Option<Timestamp>,
    applicationUrl: string,
    skills: Option<seq<string>>,
    benefits: Option<seq<string>>,
    active: bool,
    createdAt: Timestamp,
    updatedAt: Timestamp,
    lastSyncedAt: Timestamp)

  /** A Unified Job record stamped with the time it was synchronised. */
  datatype SyncedJob = SyncedJob(job: UnifiedJob, lastSyncedAt: Timestamp)

  function KeyOf(j: SyncedJob): Key {
    (j.job.externalId, j.job.provider)
  }

  // ----- The table -----

  /** The rows by natural key, in insertion order, and the next id to hand out. */
  datatype Table = Table(rows: OrderedMap<Key, JobOffer>, nextId: nat) {

    /** Every row is stored under its own natural key, and ids are distinct and already
        handed out. */
    ghost predicate Valid() {
      && rows.Valid()
      && (forall k :: k in rows.values ==>
            rows.values[k].externalId == k.0 && rows.values[k].provider == k.1 && rows.values[k].id < nextId)
      && (forall k, k' :: k in rows.values && k' in rows.values && k != k' ==> rows.values[k].id != rows.values[k'].id)
    }

    function Keys(): set<Key> {
      rows.values.Keys
    }
  }

  function EmptyTable(): (t: Table)
    ensures t.Valid() && t.Keys() == {}
  {
    Table(Empty(), 0)
  }

  // ----- Upsert -----

  /** The row an insert creates: every column from the job, the creation and update times
      from the database clock. */
  function NewRow(id: nat, j: SyncedJob, now: Timestamp): JobOffer {
    var u := j.job;
    JobOffer(id, u.externalId, u.provider, u.title, u.company, u.description, u.location,
             u.employmentType, u.experienceLevel, u.minSalary, u.maxSalary, u.currency,
             u.postedDate, u.applicationDeadline, u.applicationUrl, Some(u.skills), Some(u.benefits),
             u.active, now, now, j.lastSyncedAt)
  }

  /** `ON CONFLICT (external_id, provider) DO UPDATE` of the listed columns: title,
      description, company, location, skills, experience level, employment type, salary
      bounds, currency, benefits, application URL, active flag and sync time. */
  function UpdatedRow(row: JobOffer, j: SyncedJob): JobOffer {
    var u := j.job;
    row.(title := u.title, description := u.description, company := u.company,
         location := u.location, skills := Some(u.skills), experienceLevel := u.experienceLevel,
         employmentType := u.employmentType, minSalary := u.minSalary, maxSalary := u.maxSalary,
         currency := u.currency, benefits := Some(u.benefits), applicationUrl := u.applicationUrl,
         active := u.active, lastSyncedAt := j.lastSyncedAt)
  }

  /** A conflicting row keeps its id, key, creation and update times, posting date and
      deadline, and takes every listed column from the job. */
  lemma UpdatedRowColumns(row: JobOffer, j: SyncedJob)
    ensures var r := UpdatedRow(row, j);
            && r.id == row.id && r.externalId == row.externalId && r.provider == row.provider
            && r.createdAt == row.createdAt && r.updatedAt == row.updatedAt
            && r.postedDate == row.postedDate && r.applicationDeadline == row.applicationDeadline
            && r.title == j.job.title && r.description == j.job.description && r.company == j.job.company
            && r.location == j.job.location && r.skills == Some(j.job.skills)
            && r.experienceLevel == j.job.experienceLevel && r.employmentType == j.job.employmentType
            && r.minSalary == j.job.minSalary && r.maxSalary == j.job.maxSalary
            && r.currency == j.job.currency && r.benefits == Some(j.job.benefits)
            && r.applicationUrl == j.job.applicationUrl && r.active == j.job.active
            && r.lastSyncedAt == j.lastSyncedAt
  {
  }

  /** One row of an upsert: the row with the job's key is updated, or a new row is inserted
      with the next id. No other row changes. */
  function UpsertRow(t: Table, j: SyncedJob, now: Timestamp): (u: Table)
    ensures u.Keys() == t.Keys() + {KeyOf(j)}
    ensures KeyOf(j) in t.Keys() ==>
              u.nextId == t.nextId && u.rows.values[KeyOf(j)] == UpdatedRow(t.rows.values[KeyOf(j)], j)
    ensures KeyOf(j) !in t.Keys() ==>
              u.nextId == t.nextId + 1 && u.rows.values[KeyOf(j)] == NewRow(t.nextId, j, now)
    ensures forall k :: k in t.Keys() && k != KeyOf(j) ==> u.rows.values[k] == t.rows.values[k]
  {
    var k := KeyOf(j);
    var r := t.rows;
    if k in r.values then Table(r.Set(k, UpdatedRow(r.values[k], j)), t.nextId)
    else Table(r.Set(k, NewRow(t.nextId, j, now)), t.nextId + 1)
  }

  /** An upserted row keeps the table's invariant: an update keeps the row's id and key, an
      insert takes an id no row has. */
  lemma UpsertRowValid(t: Table, j: SyncedJob, now: Timestamp)
    ensures t.Valid() ==> UpsertRow(t, j, now).Valid()
  {
    if t.Valid() {
      var u := UpsertRow(t, j, now);
      var k := KeyOf(j);
      assert u.rows.Valid();
      forall k1 | k1 in u.rows.values
        ensures u.rows.values[k1].externalId == k1.0 && u.rows.values[k1].provider == k1.1
        ensures u.rows.values[k1].id < u.nextId
      {
        if k1 != k {
          assert k1 in t.rows.values;
        }
      }
      forall k1, k2 | k1 in u.rows.values && k2 in u.rows.values && k1 != k2
        ensures u.rows.values[k1].id != u.rows.values[k2].id
      {
        if k1 != k && k2 != k {
          assert k1 in t.rows.values && k2 in t.rows.values;
        } else if k1 == k {
          assert k2 in t.rows.values;
        } else {
          assert k1 in t.rows.values;
        }
      }
    }
  }

  /** The keys of a batch of jobs. */
  function BatchKeys(batch: seq<SyncedJob>): (ks: set<Key>)
    ensures forall m :: 0 <= m < |batch| ==> KeyOf(batch[m]) in ks
    ensures forall k :: k in ks ==> exists m :: 0 <= m < |batch| && KeyOf(batch[m]) == k
  {
    set m | 0 <= m < |batch| :: KeyOf(batch[m])
  }

  /** One statement of the upsert: its rows, in order. */
  function UpsertBatch(t: Table, batch: seq<SyncedJob>, now: Timestamp): Table
    decreases |batch|
  {
    if batch == [] then t
    else UpsertBatch(UpsertRow(t, batch[0], now), batch[1..], now)
  }

  /** A statement keeps the table's invariant and adds exactly the keys of its jobs. */
  lemma {:induction false} UpsertBatchKeys(t: Table, batch: seq<SyncedJob>, now: Timestamp)
    ensures t.Valid() ==> UpsertBatch(t, batch, now).Valid()
    ensures UpsertBatch(t, batch, now).Keys() == t.Keys() + BatchKeys(batch)
    decreases |batch|
  {
    if batch != [] {
      UpsertRowValid(t, batch[0], now);
      UpsertBatchKeys(UpsertRow(t, batch[0], now), batch[1..], now);
      BatchKeysCons(batch);
    }
  }

  lemma BatchKeysCons(batch: seq<SyncedJob>)
    requires batch != []
    ensures BatchKeys(batch) == {KeyOf(batch[0])} + BatchKeys(batch[1..])
  {
    forall k | k in BatchKeys(batch)
      ensures k in {KeyOf(batch[0])} + BatchKeys(batch[1..])
    {
      var m :| 0 <= m < |batch| && KeyOf(batch[m]) == k;
      if m > 0 {
        assert KeyOf(batch[1..][m - 1]) == k;
      }
    }
  }

  /** Upserting two runs of jobs one after the other is upserting them together. */
  lemma {:induction false} UpsertBatchAppend(t: Table, a: seq<SyncedJob>, b: seq<SyncedJob>, now: Timestamp)
    ensures UpsertBatch(t, a + b, now) == UpsertBatch(UpsertBatch(t, a, now), b, now)
    decreases |a|
  {
    if a == [] {
      assert a + b == b;
    } else {
      assert (a + b)[0] == a[0];
      assert (a + b)[1..] == a[1..] + b;
      UpsertBatchAppend(UpsertRow(t, a[0], now), a[1..], b, now);
    }
  }

  /** A job is settled in a table when its row holds the job's values in every listed
      column, so that upserting it again changes nothing. */
  ghost predicate Settled(t: Table, j: SyncedJob) {
    KeyOf(j) in t.rows.values && UpdatedRow(t.rows.values[KeyOf(j)], j) == t.rows.values[KeyOf(j)]
  }

  /** Upserting a job settles it, whether it was inserted or updated. */
  lemma UpsertRowSettles(t: Table, j: SyncedJob, now: Timestamp)
    ensures Settled(UpsertRow(t, j, now), j)
  {
  }

  /** Upserting a settled job leaves the table as it is. */
  lemma SettledRowUnchanged(t: Table, j: SyncedJob, now: Timestamp)
    requires t.Valid() && Settled(t, j)
    ensures UpsertRow(t, j, now) == t
  {
    var k := KeyOf(j);
    assert t.rows.values[k := UpdatedRow(t.rows.values[k], j)] == t.rows.values;
  }

  /** Upserting jobs with other keys keeps a job settled. */
  lemma {:induction false} UpsertBatchKeepsSettled(t: Table, batch: seq<SyncedJob>, j: SyncedJob, now: Timestamp)
    requires Settled(t, j)
    requires forall m :: 0 <= m < |batch| ==> KeyOf(batch[m]) != KeyOf(j)
    ensures Settled(UpsertBatch(t, batch, now), j)
    decreases |batch|
  {
    if batch != [] {
      UpsertBatchKeepsSettled(UpsertRow(t, batch[0], now), batch[1..], j, now);
    }
  }

  /** After a statement with distinct keys, every one of its jobs is settled. */
  lemma {:induction false} UpsertBatchSettles(t: Table, batch: seq<SyncedJob>, now: Timestamp)
    requires DistinctNaturalKeys(batch)
    ensures forall m :: 0 <= m < |batch| ==> Settled(UpsertBatch(t, batch, now), batch[m])
    decreases |batch|
  {
    if batch != [] {
      var first := UpsertRow(t, batch[0], now);
      UpsertBatchSettles(first, batch[1..], now);
      UpsertRowSettles(t, batch[0], now);
      UpsertBatchKeepsSettled(first, batch[1..], batch[0], now);
      forall m | 0 < m < |batch|
        ensures Settled(UpsertBatch(t, batch, now), batch[m])
      {
        assert batch[m] == batch[1..][m - 1];
      }
    }
  }

  /** A statement whose jobs are all settled leaves the table as it is. */
  lemma {:induction false} SettledBatchUnchanged(t: Table, batch: seq<SyncedJob>, now: Timestamp)
    requires t.Valid()
    requires forall m :: 0 <= m < |batch| ==> Settled(t, batch[m])
    ensures UpsertBatch(t, batch, now) == t
    decreases |batch|
  {
    if batch != [] {
      SettledRowUnchanged(t, batch[0], now);
      forall m | 0 <= m < |batch| - 1
        ensures Settled(t, batch[1..][m])
      {
        assert batch[1..][m] == batch[m + 1];
      }
      SettledBatchUnchanged(t, batch[1..], now);
    }
  }

  /** The upsert is idempotent: running the same statement twice leaves the table the first
      run left. */
  lemma UpsertIdempotent(t: Table, batch: seq<SyncedJob>, now: Timestamp, later: Timestamp)
    requires t.Valid() && DistinctNaturalKeys(batch)
    ensures UpsertBatch(UpsertBatch(t, batch, now), batch, later) == UpsertBatch(t, batch, now)
  {
    UpsertBatchKeys(t, batch, now);
    UpsertBatchSettles(t, batch, now);
    SettledBatchUnchanged(UpsertBatch(t, batch, now), batch, later);
  }

  /** Postgres refuses an upsert statement in which two rows share a conflict key. */
  predicate DistinctNaturalKeys(batch: seq<SyncedJob>) {
    forall m, n :: 0 <= m < n < |batch| ==> KeyOf(batch[m]) != KeyOf(batch[n])
  }

  const DuplicateKeyError := "ON CONFLICT DO UPDATE command cannot affect row a second time"

  /** The database's verdict on one statement: the number of rows it reports, or an error. */
  datatype BatchOutcome = Applied(affected: nat) | Rejected(error: string)

  datatype UpsertCounts = UpsertCounts(saved: nat, updated: nat)

  /** Why statement number `k`, holding `batch`, fails: two of its jobs share a key, or the
      database refused it. */
  function Refusal(outcomes: nat -> BatchOutcome): (seq<SyncedJob>, nat) -> Option<string> {
    (batch: seq<SyncedJob>, k: nat) =>
      if !DistinctNaturalKeys(batch) then Some(DuplicateKeyError)
      else if outcomes(k).Rejected? then Some(outcomes(k).error)
      else None
  }

  /** The row count reported for statement number `k`. */
  function Affected(outcomes: nat -> BatchOutcome): nat -> nat {
    (k: nat) => if outcomes(k).Applied? then outcomes(k).affected else 0
  }

  /** A statement applied to the table. */
  function Statement(now: Timestamp): (Table, seq<SyncedJob>) -> Table {
    (t: Table, batch: seq<SyncedJob>) => UpsertBatch(t, batch, now)
  }

  lemma StatementIsFold(now: Timestamp)
    ensures IsFold(Statement(now))
  {
    forall t: Table, a: seq<SyncedJob>, b: seq<SyncedJob>
      ensures UpsertBatch(t, a + b, now) == UpsertBatch(UpsertBatch(t, a, now), b, now)
    {
      UpsertBatchAppend(t, a, b, now);
    }
  }

  /** The batches of `jobs` from job `i` on. */
  function UpsertFrom(t: Table, jobs: seq<SyncedJob>, i: nat, saved: nat, now: Timestamp,
                      outcomes: nat -> BatchOutcome): BatchRun<Table>
  {
    RunBatches(Statement(now), Refusal(outcomes), Affected(outcomes), t, jobs, i, saved)
  }

  /** The whole upsert: no statement at all for no jobs, otherwise the batches in order
      until one is refused; `updated` is always reported as 0. */
  function BulkUpsertResult(t: Table, jobs: seq<SyncedJob>, now: Timestamp,
                            outcomes: nat -> BatchOutcome): (Table, Result<UpsertCounts, string>, nat)
  {
    if |jobs| == 0 then (t, Success(UpsertCounts(0, 0)), 0)
    else
      var run := UpsertFrom(t, jobs, 0, 0, now, outcomes);
      (run.state, if run.result.Success? then Success(UpsertCounts(run.result.value, 0)) else Failure(run.result.error),
       run.applied)
  }

  /** A whole upsert keeps the table's invariant. */
  lemma BulkUpsertValid(t: Table, jobs: seq<SyncedJob>, now: Timestamp, outcomes: nat -> BatchOutcome)
    requires t.Valid()
    ensures BulkUpsertResult(t, jobs, now, outcomes).0.Valid()
  {
    BulkUpsertApplies(t, jobs, now, outcomes);
  }

  /** What a whole upsert does. No jobs leave the table as it is. Otherwise the table ends
      as if the jobs of the applied statements had been upserted one by one, keeping its
      invariant and gaining exactly their keys. The upsert succeeds exactly when every
      statement was applied, with the sum of the reported rows as `saved` and 0 as `updated`;
      otherwise it stopped at the start of a statement that has duplicate keys (with the
      database's duplicate-key error) or that the database refused (with its error). */
  lemma BulkUpsertApplies(t: Table, jobs: seq<SyncedJob>, now: Timestamp, outcomes: nat -> BatchOutcome)
    ensures var (u, result, applied) := BulkUpsertResult(t, jobs, now, outcomes);
            && (jobs == [] ==> u == t && result == Success(UpsertCounts(0, 0)))
            && applied <= |jobs|
            && u == UpsertBatch(t, jobs[..applied], now)
            && u.Keys() == t.Keys() + BatchKeys(jobs[..applied])
            && (t.Valid() ==> u.Valid())
            && (result.Success? <==> applied == |jobs|)
            && (result.Success? ==> result.value == UpsertCounts(SumOf(Affected(outcomes), 0, BatchCount(|jobs|)), 0))
            && (result.Failure? ==>
                  applied % BatchSize == 0 && applied < |jobs|
                  && var batch := BatchAt(jobs, applied);
                     if DistinctNaturalKeys(batch) then outcomes(applied / BatchSize) == Rejected(result.error)
                     else result.error == DuplicateKeyError)
  {
    if jobs != [] {
      StatementIsFold(now);
      RunBatchesApplies(Statement(now), Refusal(outcomes), Affected(outcomes), t, jobs, 0, 0);
      assert jobs[0..] == jobs;
      var run := UpsertFrom(t, jobs, 0, 0, now, outcomes);
      UpsertBatchKeys(t, jobs[..run.applied], now);
    }
  }

  // ----- Stale deactivation -----

  /** A row `deactivateStaleJobs(provider, cutoff)` switches off. */
  predicate Stale(row: JobOffer, provider: string, cutoff: Timestamp) {
    row.provider == provider && row.lastSyncedAt < cutoff && row.active
  }

  /** The keys of the stale rows. */
  function StaleKeys(t: Table, provider: string, cutoff: Timestamp): (ks: set<Key>)
    ensures forall k :: k in ks <==> k in t.rows.values && Stale(t.rows.values[k], provider, cutoff)
  {
    set k | k in t.rows.values && Stale(t.rows.values[k], provider, cutoff)
  }

  /** `UPDATE job_offers SET active = false WHERE provider = .. AND last_synced_at < ..
      AND active = true`; the ORM's update builder also sets the `@UpdateDateColumn`
      `updated_at` of every row it changes to the database clock `now`. */
  function Deactivated(t: Table, provider: string, cutoff: Timestamp, now: Timestamp): (u: Table)
    ensures u.rows.keys == t.rows.keys && u.nextId == t.nextId && u.Keys() == t.Keys()
    ensures forall k :: k in t.rows.values ==>
              u.rows.values[k] == if Stale(t.rows.values[k], provider, cutoff)
                                  then t.rows.values[k].(active := false, updatedAt := now) else t.rows.values[k]
  {
    var vs := t.rows.values;
    Table(OrderedMap(t.rows.keys, map k | k in vs :: if Stale(vs[k], provider, cutoff) then vs[k].(active := false, updatedAt := now) else vs[k]),
          t.nextId)
  }

  /** Deactivation keeps the table's invariant. */
  lemma DeactivatedValid(t: Table, provider: string, cutoff: Timestamp, now: Timestamp)
    requires t.Valid()
    ensures Deactivated(t, provider, cutoff, now).Valid()
  {
  }

  /** Exactly the stale rows change, and only in their active flag, now false, and their
      update time, now the database clock. */
  lemma DeactivatedChangesStale(t: Table, provider: string, cutoff: Timestamp, now: Timestamp, k: Key)
    requires k in t.rows.values
    ensures var u := Deactivated(t, provider, cutoff, now);
            && (u.rows.values[k] != t.rows.values[k] <==> k in StaleKeys(t, provider, cutoff))
            && u.rows.values[k].(active := t.rows.values[k].active, updatedAt := t.rows.values[k].updatedAt)
               == t.rows.values[k]
            && (k in StaleKeys(t, provider, cutoff) ==> !u.rows.values[k].active && u.rows.values[k].updatedAt == now)
  {
  }

  /** Afterwards no row is stale, so a second run, at any time, changes nothing. */
  lemma DeactivatedIdempotent(t: Table, provider: string, cutoff: Timestamp, now: Timestamp, later: Timestamp)
    ensures StaleKeys(Deactivated(t, provider, cutoff, now), provider, cutoff) == {}
    ensures Deactivated(Deactivated(t, provider, cutoff, now), provider, cutoff, later) == Deactivated(t, provider, cutoff, now)
  {
    var u := Deactivated(t, provider, cutoff, now);
    assert Deactivated(u, provider, cutoff, later).rows.values == u.rows.values;
  }

  /** Rows of other providers, rows synced at or after the cutoff, and inactive rows are
      left as they are. */
  lemma DeactivatedKeepsOthers(t: Table, provider: string, cutoff: Timestamp, now: Timestamp, k: Key)
    requires k in t.rows.values
    requires t.rows.values[k].provider != provider || t.rows.values[k].lastSyncedAt >= cutoff
             || !t.rows.values[k].active
    ensures Deactivated(t, provider, cutoff, now).rows.values[k] == t.rows.values[k]
  {
  }

  // ----- The filtered, paged query -----

  /** The query parameters of `GET /job-offers`: page and page size, and the text and skill
      filters. */
  datatype Query = Query(page: Option<int>, pageSize: Option<int>, title: Option<string>,
                         location: Option<string>, company: Option<string>, skills: Option<seq<string>>)

  /** What request validation lets through: a page of at least 1 and a page size from 1 to
      100, when given. */
  predicate ValidQuery(q: Query) {
    && (q.page.Some? ==> q.page.value >= 1)
    && (q.pageSize.Some? ==> 1 <= q.pageSize.value <= 100)
  }

  /** `LOWER(column) LIKE LOWER('%filter%')`, applied only for a non-empty filter. */
  predicate TextMatches(column: string, filter: Option<string>) {
    !Truthy(filter) || Contains(ToLower(column), ToLower(filter.value))
  }

  /** `skills && ARRAY[...]`, applied only for a non-empty list: a null column overlaps
      nothing. */
  predicate SkillsMatch(column: Option<seq<string>>, filter: Option<seq<string>>) {
    filter.None? || filter.value == []
    || (column.Some? && exists s :: s in filter.value && s in column.value)
  }

  /** The rows the query's filters select: active rows matching every given filter. */
  predicate Matches(row: JobOffer, q: Query) {
    && row.active
    && TextMatches(row.title, q.title)
    && TextMatches(row.location, q.location)
    && TextMatches(row.company, q.company)
    && SkillsMatch(row.skills, q.skills)
  }

  /** The rows stored under `keys`, in that order. */
  function RowsIn(keys: seq<Key>, values: map<Key, JobOffer>): (rows: seq<JobOffer>)
    ensures forall r :: r in rows <==> exists k :: k in keys && k in values && values[k] == r
  {
    if keys == [] then []
    else (if keys[0] in values then [values[keys[0]]] else []) + RowsIn(keys[1..], values)
  }

  /** The table's rows in insertion order. */
  function Rows(t: Table): seq<JobOffer> {
    RowsIn(t.rows.keys, t.rows.values)
  }

  /** The text filters ignore case, both in the column and in the filter. */
  lemma TextMatchesIgnoresCase(column: string, filter: string)
    requires filter != ""
    ensures TextMatches(column, Some(filter)) <==> TextMatches(column, Some(ToLower(filter)))
    ensures TextMatches(column, Some(filter)) <==> TextMatches(ToLower(column), Some(filter))
  {
    ToLowerIdempotent(filter);
    ToLowerIdempotent(column);
  }

  /** The row with a given id, if any. */
  function RowWithId(rows: seq<JobOffer>, id: nat): (r: Option<JobOffer>)
    ensures r.Some? <==> exists i :: 0 <= i < |rows| && rows[i].id == id
    ensures r.Some? ==> r.value in rows && r.value.id == id
  {
    if rows == [] then None
    else if rows[0].id == id then Some(rows[0])
    else
      var r := RowWithId(rows[1..], id);
      assert forall i :: 1 <= i < |rows| ==> rows[i] == rows[1..][i - 1];
      r
  }

  /** The rows that match the query, in the given order. */
  function Matching(rows: seq<JobOffer>, q: Query): (m: seq<JobOffer>)
    ensures |m| <= |rows|
    ensures forall r :: r in m <==> r in rows && Matches(r, q)
  {
    if rows == [] then []
    else (if Matches(rows[0], q) then [rows[0]] else []) + Matching(rows[1..], q)
  }

  function CreatedAt(row: JobOffer): int {
    row.createdAt
  }

  /** The rows skipped before page `page`: the `page - 1` whole pages before it. */
  function Offset(page: int, pageSize: int): (skip: nat)
    requires page >= 1 && pageSize >= 1
    ensures page == 1 ==> skip == 0
  {
    (page - 1) * pageSize
  }

  /** Consecutive pages follow each other: page `p + 1` starts where page `p` ends. */
  lemma OffsetTiles(page: int, pageSize: int)
    requires page >= 1 && pageSize >= 1
    ensures Offset(page + 1, pageSize) == Offset(page, pageSize) + pageSize
  {
  }

  /** The matching rows, newest first (`ORDER BY created_at DESC`). */
  function Newest(t: Table, q: Query): seq<JobOffer> {
    SortDescending(CreatedAt, Matching(Rows(t), q))
  }

  /** The rows skipped before the requested page (page 1 and 20 rows when not given). */
  function Skipped(q: Query): nat
    requires ValidQuery(q)
  {
    Offset(q.page.GetOr(1), q.pageSize.GetOr(20))
  }

  /** `findWithFilters`: the requested page of the matching rows, newest first, and the
      number of matching rows. */
  function QueryPage(t: Table, q: Query): (r: (seq<JobOffer>, nat))
    requires ValidQuery(q)
  {
    (Window(Newest(t, q), Skipped(q), q.pageSize.GetOr(20)), |Matching(Rows(t), q)|)
  }

  /** The page's rows, by position: the consecutive sorted matching rows from position
      `Skipped(q)` on, at most a page size of them (20 when not given), newest first; the
      total counts every matching row. */
  lemma QueryPageWindow(t: Table, q: Query)
    requires ValidQuery(q)
    ensures QueryPage(t, q).1 == |Matching(Rows(t), q)|
    ensures |QueryPage(t, q).0| <= if q.pageSize.Some? then q.pageSize.value else 20
    ensures var n := |Newest(t, q)|; var s := Skipped(q); var take := q.pageSize.GetOr(20);
            |QueryPage(t, q).0| == if s >= n then 0 else if s + take <= n then take else n - s
    ensures Descending(CreatedAt, QueryPage(t, q).0)
    ensures forall k :: 0 <= k < |QueryPage(t, q).0| ==>
              Skipped(q) + k < |Newest(t, q)| && QueryPage(t, q).0[k] == Newest(t, q)[Skipped(q) + k]
  {
    WindowOfDescending(CreatedAt, Newest(t, q), Skipped(q), q.pageSize.GetOr(20));
  }

  /** Every row of the page is a stored row that is active and matches every filter given. */
  lemma QueryPageRows(t: Table, q: Query)
    requires ValidQuery(q)
    ensures forall r :: r in QueryPage(t, q).0 ==> r.active && Matches(r, q) && r in Rows(t)
  {
    var matching := Matching(Rows(t), q);
    var sorted := Newest(t, q);
    var skip := Skipped(q);
    SortKeeps(CreatedAt, matching);
    WindowOfDescending(CreatedAt, sorted, skip, q.pageSize.GetOr(20));
    forall r | r in QueryPage(t, q).0
      ensures r in matching
    {
      var k :| 0 <= k < |QueryPage(t, q).0| && QueryPage(t, q).0[k] == r;
      assert sorted[skip + k] == r;
      assert r in sorted;
    }
  }

  /** The `job_offers` table behind the repository. */
  class JobOfferRepository {
    var table: Table

    ghost predicate Valid()
      reads this
    {
      table.Valid()
    }

    constructor()
      ensures Valid() && table.Keys() == {}
    {
      table := EmptyTable();
    }

    /** `bulkUpsert(jobs)`: one statement per batch of 100 jobs, until the database refuses
        one; `outcomes(k)` is its verdict on statement number `k`. */
    method BulkUpsert(jobs: seq<SyncedJob>, now: Timestamp, outcomes: nat -> BatchOutcome)
      returns (r: Result<UpsertCounts, string>)
      requires Valid()
      modifies this
      ensures Valid()
      ensures table == BulkUpsertResult(old(table), jobs, now, outcomes).0
      ensures r == BulkUpsertResult(old(table), jobs, now, outcomes).1
    {
      if |jobs| == 0 {
        return Success(UpsertCounts(0, 0));
      }
      // A statement is refused when it would update one row twice, or when the database
      // rejects it.
      var run := RunBatchesLoop(Statement(now), Refusal(outcomes), Affected(outcomes), table, jobs);
      BulkUpsertValid(table, jobs, now, outcomes);
      table := run.state;
      r := if run.result.Success? then Success(UpsertCounts(run.result.value, 0)) else Failure(run.result.error);
    }

    /** `deactivateStaleJobs(provider, cutoff)`: switches off the stale rows and returns how
        many there were. */
    method DeactivateStaleJobs(provider: string, cutoff: Timestamp, now: Timestamp) returns (count: nat)
      requires Valid()
      modifies this
      ensures Valid()
      ensures table == Deactivated(old(table), provider, cutoff, now)
      ensures count == |StaleKeys(old(table), provider, cutoff)|
    {
      count := |StaleKeys(table, provider, cutoff)|;
      DeactivatedValid(table, provider, cutoff, now);
      table := Deactivated(table, provider, cutoff, now);
    }

    /** `findWithFilters(filters)`: a page of rows and the number of matching rows. */
    function FindWithFilters(q: Query): (r: (seq<JobOffer>, nat))
      reads this
      requires ValidQuery(q)
      ensures r == QueryPage(table, q)
    {
      QueryPage(table, q)
    }

    /** `findOne({ where: { id } })`. */
    function FindOne(id: nat): (r: Option<JobOffer>)
      reads this
      ensures r.Some? <==> exists i :: 0 <= i < |Rows(table)| && Rows(table)[i].id == id
      ensures r.Some? ==> r.value in Rows(table) && r.value.id == id
    {
      RowWithId(Rows(table), id)
    }
  }
}
