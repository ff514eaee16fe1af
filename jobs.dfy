/**
 * The records the pipeline passes around: a job posting, the score the
 * aggregator attaches to it, and the parts of the user profile the core reads.
 * The repository's own model classes are not part of this model; these
 * records carry exactly the attributes the core reads and writes.
 */
module Jobs {
  import opened Wrappers
  import opened Tables
  import opened Explain

  /** One `{'raw': r, 'normalized': n, 'max': m}` entry of a score breakdown. */
  datatype ScoreEntry = ScoreEntry(raw: real, normalized: real, max: real)

  /** The aggregated score of a job: total, per-component breakdown in component order, and explanation. */
  datatype ScoreResult = ScoreResult(score: real, breakdown: seq<Entry<string, ScoreEntry>>, explanation: Message)

  /** A job posting. Times are seconds since the epoch. */
  datatype Job = Job(
    id: string,
    title: string,
    company: string,
    location: string,
    remoteType: Option<string>,
    url: string,
    description: string,
    postedDate: int,
    source: string,
    sourceId: Option<string>,
    techStack: Option<seq<string>>,
    contractType: Option<string>,
    salaryMin: Option<real>,
    salaryMax: Option<real>,
    salaryCurrency: Option<string>,
    scoreResult: Option<ScoreResult>)

  /**
   * What the core reads from the user profile: the answers of
   * `is_remote_preferred()`, `get_all_skills_flat()` and `get_min_score()`,
   * the profile text and the preferred locations.
   */
  datatype Profile = Profile(
    remotePreferred: bool,
    skills: seq<string>,
    profileText: string,
    locations: seq<string>,
    minScore: real)

  /** Python truthiness of an optional string: neither None nor empty. */
  predicate Truthy(s: Option<string>) {
    s.Some? && s.value != ""
  }

  /** `s or ""`. */
  function OrEmpty(s: Option<string>): (r: string)
    ensures Truthy(s) ==> r == s.value
    ensures !Truthy(s) ==> r == ""
  {
    if s.Some? then s.value else ""
  }

  /** `a or b` on optional strings. */
  function OrElse(a: Option<string>, b: Option<string>): (r: Option<string>)
    ensures Truthy(a) ==> r == a
    ensures !Truthy(a) ==> r == b
  {
    if Truthy(a) then a else b
  }

  const SecondsPerDay: int := 86400
}
