/** The Unified Job record every normalization rule produces. */
module Jobs {
  import opened Wrappers
  import opened Payloads

  /** A point in time, in milliseconds. */
  type Timestamp = int

  /** The raw provider record, kept on the unified record for audit. */
  datatype RawData = Provider1Raw(p1: P1Job) | Provider2Raw(p2: P2Job)

  datatype UnifiedJob = UnifiedJob(
    externalId: string,
    provider: string,
    title: string,
    company: string,
    description: string,
    location: string,
    employmentType: string,
    experienceLevel: string,
    minSalary: Option<int>,
    maxSalary: Option<int>,
    currency: Option<string>,
    postedDate: Option<Timestamp>,
    applicationDeadline: Option<Timestamp>,
    applicationUrl: string,
    skills: seq<string>,
    benefits: seq<string>,
    active: bool,
    rawData: RawData)
}
