/**
 * The raw provider payloads, as far as the normalization rules read them, and the
 * JavaScript value semantics the rules apply to their optional fields.
 * An absent JSON property is `None`.
 */
module Payloads {
  import opened Wrappers

  /** JavaScript truthiness of an optional string: present and not empty. */
  predicate Truthy(o: Option<string>) {
    o.Some? && o.value != ""
  }

  /** `o || fallback` for an optional string. */
  function OrElse(o: Option<string>, fallback: string): (r: string)
    ensures Truthy(o) ==> r == o.value
    ensures !Truthy(o) ==> r == fallback
  {
    if Truthy(o) then o.value else fallback
  }

  /** `${o}` in a template literal: an absent value is rendered as "undefined". */
  function Render(o: Option<string>): (r: string)
    ensures o.Some? ==> r == o.value
    ensures o.None? ==> r == "undefined"
  {
    if o.Some? then o.value else "undefined"
  }

  // Provider 1: `{ jobs: [ { jobId, title, details: {location, type, salaryRange},
  //                          company: {name, industry}, skills, postedDate } ] }`

  datatype P1Details = P1Details(location: Option<string>, jobType: Option<string>, salaryRange: Option<string>)

  datatype P1Company = P1Company(name: Option<string>, industry: Option<string>)

  datatype P1Job = P1Job(
    jobId: string,
    title: Option<string>,
    details: Option<P1Details>,
    company: Option<P1Company>,
    skills: Option<seq<string>>,
    postedDate: Option<string>)
  {
    /** `job.details?.location` */
    function Location(): Option<string> {
      if details.Some? then details.value.location else None
    }

    /** `job.details?.type` */
    function JobType(): Option<string> {
      if details.Some? then details.value.jobType else None
    }

    /** `job.details?.salaryRange` */
    function SalaryRange(): Option<string> {
      if details.Some? then details.value.salaryRange else None
    }

    /** `job.company?.name` */
    function CompanyName(): Option<string> {
      if company.Some? then company.value.name else None
    }

    /** `job.company?.industry` */
    function Industry(): Option<string> {
      if company.Some? then company.value.industry else None
    }
  }

  /** `response.jobs`: absent (or falsy), present but not an array, or an array. */
  datatype JobsField = JobsAbsent | JobsNotArray | JobsArray(items: seq<P1Job>)

  // Provider 2: `{ status, data: { jobsList: { <id>: { position, location: {city, state, remote},
  //   compensation: {min, max, currency}, employer: {companyName, website},
  //   requirements: {experience, technologies}, datePosted } } } }`

  /** `remote` absent is the same as `false` for every reader of this field. */
  datatype P2Location = P2Location(city: Option<string>, state: Option<string>, remote: bool)

  datatype P2Compensation = P2Compensation(min: Option<int>, max: Option<int>, currency: Option<string>)

  datatype P2Employer = P2Employer(companyName: Option<string>, website: Option<string>)

  datatype P2Requirements = P2Requirements(experience: Option<int>, technologies: Option<seq<string>>)

  datatype P2Job = P2Job(
    position: string,
    location: Option<P2Location>,
    compensation: Option<P2Compensation>,
    employer: Option<P2Employer>,
    requirements: Option<P2Requirements>,
    datePosted: Option<string>)
  {
    /** `job.employer?.companyName` */
    function CompanyName(): Option<string> {
      if employer.Some? then employer.value.companyName else None
    }

    /** `job.employer?.website` */
    function Website(): Option<string> {
      if employer.Some? then employer.value.website else None
    }

    /** `job.requirements?.experience` */
    function Experience(): Option<int> {
      if requirements.Some? then requirements.value.experience else None
    }

    /** `job.requirements?.technologies` */
    function Technologies(): Option<seq<string>> {
      if requirements.Some? then requirements.value.technologies else None
    }

    /** `job.compensation?.min` */
    function MinSalary(): Option<int> {
      if compensation.Some? then compensation.value.min else None
    }

    /** `job.compensation?.max` */
    function MaxSalary(): Option<int> {
      if compensation.Some? then compensation.value.max else None
    }

    /** `job.compensation?.currency` */
    function Currency(): Option<string> {
      if compensation.Some? then compensation.value.currency else None
    }
  }

  predicate DistinctKeys(entries: seq<(string, P2Job)>) {
    forall i, j :: 0 <= i < j < |entries| ==> entries[i].0 != entries[j].0
  }

  /** `Object.entries(jobsList)`: the properties of a JSON object, in enumeration order;
      an object cannot hold a property name twice. */
  type JobsList = entries: seq<(string, P2Job)> | DistinctKeys(entries) witness []

  /** A fetched response body. Each provider reads its own part of it: provider 1 reads
      `jobs`, provider 2 reads `status` and `data.jobsList` (`None` when `data` or
      `data.jobsList` is absent). */
  datatype Payload = Payload(jobs: JobsField, status: Option<string>, jobsList: Option<JobsList>)
}
