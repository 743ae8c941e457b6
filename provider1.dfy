/**
 * Provider 1's normalization rules: a response holds a `jobs` array, and every element
 * becomes one Unified Job record.
 */
module Provider1 {
  import opened Wrappers
  import opened Text
  import opened Payloads
  import opened Jobs
  import opened BaseTransformer

  /** The error `title.toLowerCase()` raises for a job without a title. */
  const MissingTitle := "TypeError: Cannot read properties of undefined (reading 'toLowerCase')"

  /** `"<title> position at <company>"`, then, each only when present, `"in the <industry>
      industry"`, `"located in <location>"` and `"(<type>)"`, separated by single spaces and
      closed by a period. An absent title or company reads "undefined". */
  function Description(job: P1Job): (r: string)
    ensures r == Render(job.title) + " position at " + Render(job.CompanyName())
                 + (if Truthy(job.Industry()) then " in the " + job.Industry().value + " industry" else "")
                 + (if Truthy(job.Location()) then " located in " + job.Location().value else "")
                 + (if Truthy(job.JobType()) then " (" + job.JobType().value + ")" else "")
                 + "."
  {
    var lead := Render(job.title) + " position at " + Render(job.CompanyName());
    var industry := if Truthy(job.Industry()) then "in the " + job.Industry().value + " industry" else "";
    var location := if Truthy(job.Location()) then "located in " + job.Location().value else "";
    var jobType := if Truthy(job.JobType()) then "(" + job.JobType().value + ")" else "";
    JoinFour(lead, industry, location, jobType, " ");
    SpacedParts(job);
    Join(NonEmpty([lead, industry, location, jobType]), " ") + "."
  }

  /** Each optional part of the description, after its separating space. */
  lemma SpacedParts(job: P1Job)
    ensures Sep(" ", if Truthy(job.Industry()) then "in the " + job.Industry().value + " industry" else "")
            == if Truthy(job.Industry()) then " in the " + job.Industry().value + " industry" else ""
    ensures Sep(" ", if Truthy(job.Location()) then "located in " + job.Location().value else "")
            == if Truthy(job.Location()) then " located in " + job.Location().value else ""
    ensures Sep(" ", if Truthy(job.JobType()) then "(" + job.JobType().value + ")" else "")
            == if Truthy(job.JobType()) then " (" + job.JobType().value + ")" else ""
  {
    if Truthy(job.Industry()) {
      SepFramed(" ", "in the ", job.Industry().value, " industry");
      assert " " + "in the " == " in the ";
    }
    if Truthy(job.Location()) {
      SepFramed(" ", "located in ", job.Location().value, "");
      assert " " + "located in " == " located in ";
      assert "located in " + job.Location().value + "" == "located in " + job.Location().value;
    }
    if Truthy(job.JobType()) {
      SepFramed(" ", "(", job.JobType().value, ")");
      assert " " + "(" == " (";
    }
  }

  /** One job as a Unified Job record. The title is required: without one the rules fail with
      the error `toLowerCase` raises. */
  function TransformJob(parse: DateParser, job: P1Job): (r: Result<UnifiedJob, string>)
    ensures r.Failure? <==> job.title.None?
    ensures r.Failure? ==> r.error == MissingTitle
  {
    var salary := SalaryFromText(OrElse(job.SalaryRange(), ""));
    if job.title.None? then Failure(MissingTitle)
    else
      Success(UnifiedJob(
        externalId := job.jobId,
        provider := "provider1",
        title := job.title.value,
        company := OrElse(job.CompanyName(), "Unknown Company"),
        description := Description(job),
        location := OrElse(job.Location(), "Unknown Location"),
        employmentType := NormalizeEmploymentType(OrElse(job.JobType(), "")),
        experienceLevel := InferExperienceFromTitle(job.title.value),
        minSalary := salary.min,
        maxSalary := salary.max,
        currency := Some(salary.currency),
        postedDate := ParseDate(parse, job.postedDate),
        applicationDeadline := None,
        applicationUrl := "",
        skills := job.skills.GetOr([]),
        benefits := [],
        active := true,
        rawData := Provider1Raw(job)))
  }

  /** Where each field of a record comes from, and that the record is normalized. */
  lemma TransformJobFields(parse: DateParser, job: P1Job)
    requires job.title.Some?
    ensures var u := TransformJob(parse, job).value;
            var salary := SalaryFromText(OrElse(job.SalaryRange(), ""));
            && Normalized(u)
            && u.externalId == job.jobId && u.provider == "provider1" && u.title == job.title.value
            && u.company == OrElse(job.CompanyName(), "Unknown Company")
            && u.description == Description(job)
            && u.location == OrElse(job.Location(), "Unknown Location")
            && u.employmentType == NormalizeEmploymentType(OrElse(job.JobType(), ""))
            && u.experienceLevel == InferExperienceFromTitle(job.title.value)
            && u.minSalary == salary.min && u.maxSalary == salary.max && u.currency == Some("USD")
            && u.postedDate == ParseDate(parse, job.postedDate)
            && u.applicationUrl == "" && u.skills == job.skills.GetOr([])
            && u.rawData == Provider1Raw(job)
  {
  }

  /** `jobs.map(transformJob)`: one record per job, in order, unless some job has no title. */
  function TransformAll(parse: DateParser, jobs: seq<P1Job>): (r: Result<seq<UnifiedJob>, string>)
    ensures r.Success? <==> forall i :: 0 <= i < |jobs| ==> jobs[i].title.Some?
    ensures r.Failure? ==> r.error == MissingTitle
    ensures r.Success? ==>
              |r.value| == |jobs| && forall i :: 0 <= i < |jobs| ==> TransformJob(parse, jobs[i]) == Success(r.value[i])
  {
    MapResult(job => TransformJob(parse, job), jobs)
  }

  /** The records of a response: none when `jobs` is absent or not an array. */
  function Transform(parse: DateParser, response: Payload): (r: Result<seq<UnifiedJob>, string>)
    ensures !response.jobs.JobsArray? ==> r == Success([])
    ensures response.jobs.JobsArray? ==> r == TransformAll(parse, response.jobs.items)
  {
    match response.jobs
    case JobsArray(items) => TransformAll(parse, items)
    case _ => Success([])
  }

  /** Every record of a successful transform comes from provider 1 and is normalized. */
  lemma TransformNormalized(parse: DateParser, response: Payload)
    requires Transform(parse, response).Success?
    ensures forall u :: u in Transform(parse, response).value ==> Normalized(u) && u.provider == "provider1"
  {
    var r := Transform(parse, response);
    if response.jobs.JobsArray? {
      var jobs := response.jobs.items;
      forall u | u in r.value
        ensures Normalized(u) && u.provider == "provider1"
      {
        var i :| 0 <= i < |r.value| && r.value[i] == u;
        assert TransformJob(parse, jobs[i]) == Success(u);
        TransformJobFields(parse, jobs[i]);
      }
    }
  }

  /** A job without salary text has no salary bounds, and one without a type is "Not
      Specified". */
  lemma MissingDetailsDefaults(parse: DateParser, job: P1Job)
    requires job.title.Some? && job.details.None?
    ensures TransformJob(parse, job).value.minSalary == None
    ensures TransformJob(parse, job).value.maxSalary == None
    ensures TransformJob(parse, job).value.employmentType == "Not Specified"
    ensures TransformJob(parse, job).value.location == "Unknown Location"
  {
    SalaryWithoutDigits("");
    TransformJobFields(parse, job);
  }
}
