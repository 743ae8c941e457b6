/**
 * The job-offers service: it stamps freshly synchronised jobs and hands them to the
 * repository's bulk upsert, turning a failed upsert into an error count, and it shapes stored
 * rows into response records.
 */
module JobOffers {
  import opened Wrappers
  import opened Text
  import opened Jobs
  import opened Batches
  import opened Logging
  import opened Repository

  /** A job offer as the API returns it: list columns that hold null come back empty. */
  datatype JobOfferResponse = JobOfferResponse(
    id: nat,
    externalId: string,
    provider: string,
    title: string,
    description: string,
    company: string,
    location: string,
    skills: seq<string>,
    experienceLevel: string,
    employmentType: string,
    minSalary: Option<int>,
    maxSalary: Option<int>,
    currency: Option<string>,
    benefits: seq<string>,
    applicationUrl: string,
    active: bool,
    createdAt: Timestamp,
    updatedAt: Timestamp,
    lastSyncedAt: Timestamp)

  /** `toResponseDto(jobOffer)`. */
  function ToResponseDto(row: JobOffer): (d: JobOfferResponse)
    ensures row.skills.Some? ==> d.skills == row.skills.value
    ensures row.skills.None? ==> d.skills == []
    ensures row.benefits.Some? ==> d.benefits == row.benefits.value
    ensures row.benefits.None? ==> d.benefits == []
    ensures d.id == row.id && d.externalId == row.externalId && d.provider == row.provider
    ensures d.title == row.title && d.description == row.description && d.company == row.company
    ensures d.location == row.location && d.experienceLevel == row.experienceLevel
    ensures d.employmentType == row.employmentType
    ensures d.minSalary == row.minSalary && d.maxSalary == row.maxSalary && d.currency == row.currency
    ensures d.applicationUrl == row.applicationUrl && d.active == row.active
    ensures d.createdAt == row.createdAt && d.updatedAt == row.updatedAt && d.lastSyncedAt == row.lastSyncedAt
  {
    JobOfferResponse(row.id, row.externalId, row.provider, row.title, row.description, row.company,
                     row.location, row.skills.GetOr([]), row.experienceLevel, row.employmentType,
                     row.minSalary, row.maxSalary, row.currency, row.benefits.GetOr([]),
                     row.applicationUrl, row.active, row.createdAt, row.updatedAt, row.lastSyncedAt)
  }

  /** The jobs as handed to the repository: each one unchanged, in order, stamped with the
      time of the sync. */
  function Stamp(jobs: seq<UnifiedJob>, now: Timestamp): (stamped: seq<SyncedJob>)
    ensures |stamped| == |jobs|
    ensures forall i :: 0 <= i < |jobs| ==> stamped[i].job == jobs[i] && stamped[i].lastSyncedAt == now
  {
    seq(|jobs|, i requires 0 <= i < |jobs| => SyncedJob(jobs[i], now))
  }

  /** The counts `saveJobs` reports. */
  datatype SaveCounts = SaveCounts(saved: nat, updated: nat, errors: nat)

  /** What `saveJobs` leaves in the table and reports: the repository's counts and no errors
      when the upsert succeeds, and every job counted as an error when it fails. */
  function SaveJobsResult(t: Table, jobs: seq<UnifiedJob>, now: Timestamp, outcomes: nat -> BatchOutcome): (Table, SaveCounts) {
    var (u, r, _) := BulkUpsertResult(t, Stamp(jobs, now), now, outcomes);
    (u, if r.Success? then SaveCounts(r.value.saved, r.value.updated, 0) else SaveCounts(0, 0, |jobs|))
  }

  /** The line logged at the end of `saveJobs`. */
  function SaveLog(r: Result<UpsertCounts, string>): LogEntry {
    match r
    case Success(c) =>
      Info("Job sync completed: " + NatToString(c.saved) + " saved, " + NatToString(c.updated) + " updated, 0 errors")
    case Failure(e) => Error("Error during bulk upsert:", e)
  }

  /** What a save does. No jobs: nothing changes and nothing is counted. Otherwise a
      successful upsert reports the rows the database affected, no updates and no errors,
      and leaves every stamped job upserted; a failed one reports nothing saved and every
      job as an error, while the statements before the refused one stay applied. */
  lemma SaveJobsOutcome(t: Table, jobs: seq<UnifiedJob>, now: Timestamp, outcomes: nat -> BatchOutcome)
    ensures var (u, counts) := SaveJobsResult(t, jobs, now, outcomes);
            && (jobs == [] ==> u == t && counts == SaveCounts(0, 0, 0))
            && (t.Valid() ==> u.Valid() && u.Keys() >= t.Keys())
            && (counts.errors == 0 ==>
                  counts.updated == 0
                  && u == UpsertBatch(t, Stamp(jobs, now), now)
                  && (jobs != [] ==> counts.saved == SumOf(Affected(outcomes), 0, BatchCount(|jobs|))))
            && (counts.errors != 0 ==>
                  counts == SaveCounts(0, 0, |jobs|)
                  && exists applied :: 0 <= applied < |jobs| && applied % BatchSize == 0
                                       && u == UpsertBatch(t, Stamp(jobs, now)[..applied], now))
  {
    var stamped := Stamp(jobs, now);
    BulkUpsertApplies(t, stamped, now, outcomes);
    var (u, r, applied) := BulkUpsertResult(t, stamped, now, outcomes);
    if r.Success? {
      assert stamped[..applied] == stamped;
    }
  }

  /** `entities.map(toResponseDto)`. */
  function Responses(rows: seq<JobOffer>): (ds: seq<JobOfferResponse>)
    ensures |ds| == |rows|
    ensures forall i :: 0 <= i < |rows| ==> ds[i] == ToResponseDto(rows[i])
  {
    seq(|rows|, i requires 0 <= i < |rows| => ToResponseDto(rows[i]))
  }

  /** The records `findAll` returns: one per row of the page, in order, each of an active
      row, newest first, with the number of matching rows unchanged. */
  lemma FindAllPage(t: Table, q: Query)
    requires ValidQuery(q)
    ensures var ds := Responses(QueryPage(t, q).0);
            && |ds| == |QueryPage(t, q).0|
            && (forall i :: 0 <= i < |ds| ==> ds[i].active && ds[i].id == QueryPage(t, q).0[i].id)
            && (forall i, j :: 0 <= i < j < |ds| ==> ds[i].createdAt >= ds[j].createdAt)
  {
    var page := QueryPage(t, q).0;
    var ds := Responses(page);
    QueryPageWindow(t, q);
    QueryPageRows(t, q);
    forall i, j | 0 <= i < j < |ds|
      ensures ds[i].createdAt >= ds[j].createdAt
    {
      assert CreatedAt(page[i]) >= CreatedAt(page[j]);
    }
    forall i | 0 <= i < |ds|
      ensures ds[i].active
    {
      assert page[i] in page;
    }
  }

  /** The service, over the repository it was constructed with. */
  class JobOffersService {
    const repository: JobOfferRepository

    ghost predicate Valid()
      reads repository
    {
      repository.Valid()
    }

    constructor(repository: JobOfferRepository)
      requires repository.Valid()
      ensures Valid() && this.repository == repository
    {
      this.repository := repository;
    }

    /** `saveJobs(jobs)` at time `now`; `outcomes` are the database's verdicts on the
        upsert's statements. Also returns the line it logs. */
    method SaveJobs(jobs: seq<UnifiedJob>, now: Timestamp, outcomes: nat -> BatchOutcome)
      returns (counts: SaveCounts, log: LogEntry)
      requires Valid()
      modifies repository
      ensures Valid()
      ensures (repository.table, counts) == SaveJobsResult(old(repository.table), jobs, now, outcomes)
      ensures log == SaveLog(BulkUpsertResult(old(repository.table), Stamp(jobs, now), now, outcomes).1)
    {
      var validJobs: seq<SyncedJob> := [];
      var errors: nat := 0;
      var k := 0;
      while k < |jobs|
        invariant k <= |jobs| && |validJobs| == k
        invariant forall i :: 0 <= i < k ==> validJobs[i] == SyncedJob(jobs[i], now)
      {
        validJobs := validJobs + [SyncedJob(jobs[k], now)];
        k := k + 1;
      }
      assert validJobs == Stamp(jobs, now);
      var result := repository.BulkUpsert(validJobs, now, outcomes);
      match result
      case Success(c) =>
        counts := SaveCounts(c.saved, c.updated, errors);
        log := SaveLog(result);
      case Failure(e) =>
        counts := SaveCounts(0, 0, |jobs|);
        log := SaveLog(result);
    }

    /** `findAll(filters)`: the page of rows as response records and the number of
        matching rows. */
    function FindAll(q: Query): (r: (seq<JobOfferResponse>, nat))
      reads repository
      requires ValidQuery(q)
      ensures r == (Responses(repository.FindWithFilters(q).0), repository.FindWithFilters(q).1)
    {
      var (rows, total) := repository.FindWithFilters(q);
      (Responses(rows), total)
    }

    /** `findOne(id)`: the row with that id as a response record, or the not-found error. */
    function FindOne(id: nat): (r: Result<JobOfferResponse, string>)
      reads repository
      ensures r.Failure? <==> forall i :: 0 <= i < |Rows(repository.table)| ==> Rows(repository.table)[i].id != id
      ensures r.Failure? ==> r.error == "Job offer with ID " + NatToString(id) + " not found"
      ensures r.Success? ==> exists row :: row in Rows(repository.table) && row.id == id && r.value == ToResponseDto(row)
    {
      match repository.FindOne(id)
      case None => Failure("Job offer with ID " + NatToString(id) + " not found")
      case Some(row) => Success(ToResponseDto(row))
    }

    /** `deactivateStaleJobs(provider, syncDate)`: the repository's operation and count, run
        when the database clock reads `now`. */
    method DeactivateStaleJobs(provider: string, cutoff: Timestamp, now: Timestamp) returns (count: nat)
      requires Valid()
      modifies repository
      ensures Valid()
      ensures repository.table == Deactivated(old(repository.table), provider, cutoff, now)
      ensures count == |StaleKeys(old(repository.table), provider, cutoff)|
    {
      count := repository.DeactivateStaleJobs(provider, cutoff, now);
    }
  }
}
