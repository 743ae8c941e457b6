/**
 * Provider 2's normalization rules: a response with status "success" holds a `jobsList`
 * object whose properties are the jobs, keyed by job id; every property becomes one Unified
 * Job record.
 */
module Provider2 {
  import opened Wrappers
  import opened Text
  import opened Payloads
  import opened Jobs
  import opened BaseTransformer

  /** `x || null` for an optional number: zero is falsy and becomes null. */
  function NonZero(o: Option<int>): (r: Option<int>)
    ensures r.Some? <==> o.Some? && o.value != 0
    ensures r.Some? ==> r.value == o.value
  {
    if o.Some? && o.value != 0 then o else None
  }

  /** The truthy parts of a city and a state joined by ", ", then " (Remote)" for a remote
      location; "Unknown Location" when there is no location at all. */
  function FormatLocation(location: Option<P2Location>): (r: string)
    ensures location.None? ==> r == "Unknown Location"
    ensures location.Some? ==>
              var city := OrElse(location.value.city, "");
              var state := OrElse(location.value.state, "");
              var place := if city != "" && state != "" then city + ", " + state else city + state;
              r == if location.value.remote then place + " (Remote)" else place
  {
    if location.None? then "Unknown Location"
    else
      var city := OrElse(location.value.city, "");
      var state := OrElse(location.value.state, "");
      var place := Join(NonEmpty([city, state]), ", ");
      JoinPair(city, state, ", ");
      if location.value.remote then place + " (Remote)" else place
  }

  /** "Remote" for a remote location, "On-site" for every other job. */
  function EmploymentTypeOf(location: Option<P2Location>): (r: string)
    ensures r in CanonicalEmploymentTypes
    ensures r == "Remote" <==> location.Some? && location.value.remote
    ensures r != "Remote" ==> r == "On-site"
  {
    if location.Some? && location.value.remote then "Remote" else "On-site"
  }

  /** The employment types provider 2 produces are canonical names the shared employment
      type rule keeps as they are. */
  lemma EmploymentTypeOfCanonical(location: Option<P2Location>)
    ensures NormalizeEmploymentType(EmploymentTypeOf(location)) == EmploymentTypeOf(location)
  {
    CanonicalEmploymentTypesFixed(EmploymentTypeOf(location));
  }

  /** The experience clause after the lead part of a description. */
  lemma RequirementJoined(lead: string, n: string)
    requires lead != ""
    ensures Join(NonEmpty([lead, "requiring " + n + " years of experience"]), ", ") + "."
            == lead + (", requiring " + n + " years of experience") + "."
  {
    JoinFramed(lead, "requiring ", n, " years of experience", ", ");
    assert ", " + "requiring " == ", requiring ";
  }

  /** `"<position> at <company>"`, then `", requiring <n> years of experience"` when the
      job states a non-zero experience, closed by a period. An absent company reads
      "undefined". */
  function Description(job: P2Job): (r: string)
    ensures var e := job.Experience();
            r == job.position + " at " + Render(job.CompanyName())
                 + (if e.Some? && e.value != 0 then ", requiring " + IntToString(e.value) + " years of experience" else "")
                 + "."
  {
    var e := job.Experience();
    var lead := job.position + " at " + Render(job.CompanyName());
    if e.Some? && e.value != 0 then
      RequirementJoined(lead, IntToString(e.value));
      Join(NonEmpty([lead, "requiring " + IntToString(e.value) + " years of experience"]), ", ") + "."
    else
      JoinTwo(lead, "", ", ");
      Join(NonEmpty([lead, ""]), ", ") + "."
  }

  /** The record for the job stored under `jobId`. */
  function TransformJob(parse: DateParser, jobId: string, job: P2Job): (r: UnifiedJob)
    ensures Normalized(r)
  {
    UnifiedJob(
      externalId := jobId,
      provider := "provider2",
      title := job.position,
      company := OrElse(job.CompanyName(), "Unknown Company"),
      description := Description(job),
      location := FormatLocation(job.location),
      employmentType := EmploymentTypeOf(job.location),
      experienceLevel := NormalizeExperienceLevel(Years(job.Experience().GetOr(0))),
      minSalary := NonZero(job.MinSalary()),
      maxSalary := NonZero(job.MaxSalary()),
      currency := Some(OrElse(job.Currency(), "USD")),
      postedDate := ParseDate(parse, job.datePosted),
      applicationDeadline := None,
      applicationUrl := OrElse(job.Website(), ""),
      skills := job.Technologies().GetOr([]),
      benefits := [],
      active := true,
      rawData := Provider2Raw(job))
  }

  /** Where each field of a record comes from: the id and the job it was stored under, the
      experience level from the stated years (none counting as 0, so Entry Level), a zero
      salary bound as none, and "USD" when no currency is given. */
  lemma TransformJobFields(parse: DateParser, jobId: string, job: P2Job)
    ensures var u := TransformJob(parse, jobId, job);
            var e := job.Experience();
            && u.externalId == jobId && u.provider == "provider2" && u.title == job.position
            && u.company == OrElse(job.CompanyName(), "Unknown Company")
            && u.description == Description(job)
            && u.location == FormatLocation(job.location)
            && u.employmentType == EmploymentTypeOf(job.location)
            && u.experienceLevel == (if e.Some? then YearsLevel(e.value) else "Entry Level")
            && (u.minSalary.Some? <==> job.MinSalary().Some? && job.MinSalary().value != 0)
            && (u.maxSalary.Some? <==> job.MaxSalary().Some? && job.MaxSalary().value != 0)
            && u.minSalary == NonZero(job.MinSalary()) && u.maxSalary == NonZero(job.MaxSalary())
            && u.currency == Some(if Truthy(job.Currency()) then job.Currency().value else "USD")
            && u.postedDate == ParseDate(parse, job.datePosted)
            && u.applicationUrl == OrElse(job.Website(), "")
            && u.skills == job.Technologies().GetOr([])
            && u.rawData == Provider2Raw(job)
  {
  }

  /** The records of a response: none unless its status is "success" and it holds a jobs
      list, otherwise one per entry of the list, in enumeration order. */
  function Records(parse: DateParser, response: Payload): (r: seq<UnifiedJob>)
    ensures response.status != Some("success") || response.jobsList.None? ==> r == []
    ensures response.status == Some("success") && response.jobsList.Some? ==>
              |r| == |response.jobsList.value|
              && forall i :: 0 <= i < |r| ==>
                   r[i] == TransformJob(parse, response.jobsList.value[i].0, response.jobsList.value[i].1)
  {
    if response.status != Some("success") || response.jobsList.None? then []
    else
      var entries := response.jobsList.value;
      seq(|entries|, i requires 0 <= i < |entries| => TransformJob(parse, entries[i].0, entries[i].1))
  }

  /** The loop over `Object.entries(jobsList)` that pushes one record per entry. */
  method Transform(parse: DateParser, response: Payload) returns (jobs: seq<UnifiedJob>)
    ensures jobs == Records(parse, response)
  {
    if response.status != Some("success") || response.jobsList.None? {
      return [];
    }
    var entries := response.jobsList.value;
    jobs := [];
    for i := 0 to |entries|
      invariant |jobs| == i
      invariant forall k :: 0 <= k < i ==> jobs[k] == TransformJob(parse, entries[k].0, entries[k].1)
    {
      jobs := jobs + [TransformJob(parse, entries[i].0, entries[i].1)];
    }
  }

  /** Every record comes from provider 2 and is normalized. */
  lemma RecordsNormalized(parse: DateParser, response: Payload)
    ensures forall u :: u in Records(parse, response) ==> Normalized(u) && u.provider == "provider2"
  {
    var r := Records(parse, response);
    forall u | u in r
      ensures Normalized(u) && u.provider == "provider2"
    {
      var i :| 0 <= i < |r| && r[i] == u;
      var entry := response.jobsList.value[i];
      TransformJobFields(parse, entry.0, entry.1);
    }
  }

  /** The records of one response have distinct external ids, and each id is the key of its
      entry: an object cannot hold a property twice. */
  lemma RecordsDistinctIds(parse: DateParser, response: Payload)
    ensures var r := Records(parse, response);
            forall i, j :: 0 <= i < j < |r| ==> r[i].externalId != r[j].externalId
  {
    var r := Records(parse, response);
    if r != [] {
      var entries := response.jobsList.value;
      forall i, j | 0 <= i < j < |r|
        ensures r[i].externalId != r[j].externalId
      {
        TransformJobFields(parse, entries[i].0, entries[i].1);
        TransformJobFields(parse, entries[j].0, entries[j].1);
      }
    }
  }
}
