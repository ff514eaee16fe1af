/**
 * The pipeline's post-scrape steps: tech-stack extraction, deduplication,
 * scoring, the quality filter and the top-N selection with remote priority.
 * Scraping itself (network, concurrency) is not modelled: the scraped jobs
 * are an input. The tech extractor, the similarity ratio and the scorer are
 * passed in as functions.
 */
module Pipeline {
  import opened Wrappers
  import opened Jobs
  import opened Text
  import opened Lists
  import opened Sorting
  import JobFiltering
  import Dedup

  // ---------------------------------------------------------------------------
  // _get_top_jobs
  // ---------------------------------------------------------------------------

  const FullRemoteMarkers: seq<string> := ["remote", "100%", "homeoffice", "fully"]

  /** `get_remote_priority`: 3 for full remote, 2 for hybrid, 1 otherwise, read from the lowered remote type. */
  function RemotePriority(j: Job): (p: int)
    ensures 1 <= p <= 3
  {
    var remoteType := Lower(OrEmpty(j.remoteType));
    if exists kw :: kw in FullRemoteMarkers && Contains(remoteType, kw) then 3
    else if Contains(remoteType, "hybrid") then 2
    else 1
  }

  /**
   * A remote type mentioning "remote" gets the top priority even when it also
   * says "hybrid" (so "Hybrid Remote" ranks with full remote); priority 2
   * means "hybrid" without any full-remote marker.
   */
  lemma RemotePriorityCases(j: Job)
    ensures var remoteType := Lower(OrEmpty(j.remoteType));
      (Contains(remoteType, "remote") ==> RemotePriority(j) == 3)
      && (RemotePriority(j) == 2 <==> Contains(remoteType, "hybrid") && !ContainsAny(remoteType, FullRemoteMarkers))
      && (RemotePriority(j) == 1 <==> !Contains(remoteType, "hybrid") && !ContainsAny(remoteType, FullRemoteMarkers))
  {
    assert FullRemoteMarkers[0] == "remote";
  }

  lemma HybridRemoteRanksFirst(j: Job)
    requires j.remoteType == Some("Hybrid Remote")
    ensures RemotePriority(j) == 3
  {
    assert Lower("Hybrid Remote") == "hybrid remote";
    ContainsAt("hybrid remote", "remote", 7);
    RemotePriorityCases(j);
  }

  /** The job has a score and it reaches the profile's minimum. */
  predicate MeetsMinScore(minScore: real, j: Job) {
    j.scoreResult.Some? && j.scoreResult.value.score >= minScore
  }

  function MinScoreTest(minScore: real): Job -> bool {
    (j: Job) => MeetsMinScore(minScore, j)
  }

  /** The attached score, 0 for a job without one. */
  function ScoreOf(j: Job): real {
    if j.scoreResult.Some? then j.scoreResult.value.score else 0.0
  }

  /** The sort key `(get_remote_priority(j), j.score_result.score)`. */
  function PriorityKey(): Job -> Key {
    (j: Job) => Key(RemotePriority(j), ScoreOf(j))
  }

  /** `_get_top_jobs`: the jobs reaching the minimum score, stably sorted by descending key, cut to `top_n`. */
  function TopJobs(jobs: seq<Job>, minScore: real, topN: int): seq<Job> {
    Take(SortDesc(Filter(jobs, MinScoreTest(minScore)), PriorityKey()), topN)
  }

  /** The top jobs come from the input and reach the minimum score. */
  lemma TopJobsMembers(jobs: seq<Job>, minScore: real, topN: int)
    ensures forall j :: j in TopJobs(jobs, minScore, topN) ==> j in jobs && MeetsMinScore(minScore, j)
  {
    var f := Filter(jobs, MinScoreTest(minScore));
    var s := SortDesc(f, PriorityKey());
    forall j | j in TopJobs(jobs, minScore, topN) ensures j in jobs && MeetsMinScore(minScore, j) {
      assert j in s;
      assert j in multiset(s);
      assert j in f;
      assert MinScoreTest(minScore)(j);
    }
  }

  /**
   * The top jobs are in descending (priority, score) order, there are at
   * most `top_n` of them (for a non-negative `top_n`), and every qualifying
   * job left out ranks no higher than any job kept. With a `top_n` at least
   * the number of qualifying jobs, every qualifying job is kept.
   */
  lemma TopJobsRanking(jobs: seq<Job>, minScore: real, topN: int)
    ensures var r := TopJobs(jobs, minScore, topN);
      var f := Filter(jobs, MinScoreTest(minScore));
      SortedDesc(r, PriorityKey())
      && (topN >= 0 ==> |r| <= topN)
      && (forall j :: j in f && j !in r ==>
            forall i :: 0 <= i < |r| ==> !Greater(PriorityKey()(j), PriorityKey()(r[i])))
      && (topN >= |f| ==> forall j :: j in f ==> j in r)
  {
    var f := Filter(jobs, MinScoreTest(minScore));
    var s := SortDesc(f, PriorityKey());
    var r := TopJobs(jobs, minScore, topN);
    SortDescSorted(f, PriorityKey());
    assert r == s[..|r|];
    forall j | j in f && j !in r ensures forall i :: 0 <= i < |r| ==> !Greater(PriorityKey()(j), PriorityKey()(r[i])) {
      assert j in multiset(f);
      assert j in multiset(s);
      SortedPrefixDominates(s, |r|, PriorityKey(), j);
    }
    if topN >= |f| {
      assert r == s;
      forall j | j in f ensures j in r {
        assert j in multiset(f);
      }
    }
  }

  /** Jobs with equal (priority, score) keep their input order. */
  lemma TopJobsStable(jobs: seq<Job>, minScore: real, k: Key)
    ensures var f := Filter(jobs, MinScoreTest(minScore));
      WithKey(SortDesc(f, PriorityKey()), PriorityKey(), k) == WithKey(f, PriorityKey(), k)
  {
    SortDescStable(Filter(jobs, MinScoreTest(minScore)), PriorityKey(), k);
  }

  // ---------------------------------------------------------------------------
  // _extract_tech_stack and _score_jobs
  // ---------------------------------------------------------------------------

  /** Python truthiness of a tech-stack list. */
  predicate HasTechStack(ts: Option<seq<string>>) {
    ts.Some? && |ts.value| > 0
  }

  /**
   * One job after `_extract_tech_stack`: a job without a tech stack gets the
   * terms extracted from `"{title} {description}"`, when there are any.
   */
  function Enriched(j: Job, extract: string -> seq<string>): (r: Job)
    ensures r.(techStack := j.techStack) == j
    ensures HasTechStack(j.techStack) ==> r == j
    ensures r != j ==> r.techStack == Some(extract(j.title + " " + j.description)) && HasTechStack(r.techStack)
    ensures HasTechStack(r.techStack) || r == j
  {
    if !HasTechStack(j.techStack) then
      var techStack := extract(j.title + " " + j.description);
      if |techStack| > 0 then j.(techStack := Some(techStack)) else j
    else j
  }

  /** `_extract_tech_stack`, on the list of job values (the source updates the job objects in place). */
  method ExtractTechStack(jobs: seq<Job>, extract: string -> seq<string>) returns (r: seq<Job>)
    ensures |r| == |jobs|
    ensures forall i :: 0 <= i < |jobs| ==> r[i] == Enriched(jobs[i], extract)
  {
    r := jobs;
    for i := 0 to |jobs|
      invariant |r| == |jobs|
      invariant forall k :: 0 <= k < i ==> r[k] == Enriched(jobs[k], extract)
      invariant forall k :: i <= k < |jobs| ==> r[k] == jobs[k]
    {
      var job := r[i];
      if !HasTechStack(job.techStack) {
        var techStack := extract(job.title + " " + job.description);
        if |techStack| > 0 {
          r := r[i := job.(techStack := Some(techStack))];
        }
      }
    }
  }

  /** One job after `_score_jobs`: the scorer's result attached. */
  function Scored(j: Job, score: Job -> ScoreResult): Job {
    j.(scoreResult := Some(score(j)))
  }

  /** `_score_jobs`, on the list of job values. */
  method ScoreJobs(jobs: seq<Job>, score: Job -> ScoreResult) returns (r: seq<Job>)
    ensures |r| == |jobs|
    ensures forall i :: 0 <= i < |jobs| ==> r[i] == Scored(jobs[i], score)
  {
    r := jobs;
    for i := 0 to |jobs|
      invariant |r| == |jobs|
      invariant forall k :: 0 <= k < i ==> r[k] == Scored(jobs[k], score)
      invariant forall k :: i <= k < |jobs| ==> r[k] == jobs[k]
    {
      r := r[i := r[i].(scoreResult := Some(score(r[i])))];
    }
  }

  // ---------------------------------------------------------------------------
  // run
  // ---------------------------------------------------------------------------

  /** `_apply_quality_filters`: description of 50 characters, two weeks old at most, a preferred location, no senior roles. */
  function QualityCriteria(profile: Profile): JobFiltering.Criteria {
    JobFiltering.Criteria(Some(profile.locations), Some(50), Some(14), None, None, Some(true), None, None)
  }

  function EnrichedAll(jobs: seq<Job>, extract: string -> seq<string>): seq<Job> {
    seq(|jobs|, i requires 0 <= i < |jobs| => Enriched(jobs[i], extract))
  }

  function ScoredAll(jobs: seq<Job>, score: Job -> ScoreResult): seq<Job> {
    seq(|jobs|, i requires 0 <= i < |jobs| => Scored(jobs[i], score))
  }

  lemma EnrichedAllIs(r: seq<Job>, jobs: seq<Job>, extract: string -> seq<string>)
    requires |r| == |jobs| && forall i :: 0 <= i < |jobs| ==> r[i] == Enriched(jobs[i], extract)
    ensures r == EnrichedAll(jobs, extract)
  {
  }

  lemma ScoredAllIs(r: seq<Job>, jobs: seq<Job>, score: Job -> ScoreResult)
    requires |r| == |jobs| && forall i :: 0 <= i < |jobs| ==> r[i] == Scored(jobs[i], score)
    ensures r == ScoredAll(jobs, score)
  {
  }

  /**
   * What `run` returns after scraping: `[]` as soon as a stage leaves no
   * jobs, otherwise the top jobs of the quality-filtered, scored, unique jobs.
   */
  function RunResult(scraped: seq<Job>, extract: string -> seq<string>, ratio: Dedup.Ratio,
                     score: Job -> ScoreResult, profile: Profile, now: int, topN: int): Result<seq<Job>> {
    if |scraped| == 0 then Success([])
    else
      var unique := Dedup.Deduplicated(Dedup.DefaultDeduplicator, ratio, false, EnrichedAll(scraped, extract));
      if |unique| == 0 then Success([])
      else
        match JobFiltering.Applied(ScoredAll(unique, score), Some(QualityCriteria(profile)), now)
        case Failure(e) => Failure(e)
        case Success(quality) =>
          if |quality| == 0 then Success([])
          else Success(TopJobs(quality, profile.minScore, topN))
  }

  method Run(scraped: seq<Job>, extract: string -> seq<string>, ratio: Dedup.Ratio,
             score: Job -> ScoreResult, profile: Profile, now: int, topN: int) returns (r: Result<seq<Job>>)
    ensures r == RunResult(scraped, extract, ratio, score, profile, now, topN)
  {
    if |scraped| == 0 {
      return Success([]);
    }
    var jobsWithTech := ExtractTechStack(scraped, extract);
    EnrichedAllIs(jobsWithTech, scraped, extract);
    var uniqueJobs := Dedup.RemoveDuplicates(Dedup.DefaultDeduplicator, ratio, jobsWithTech, false);
    if |uniqueJobs| == 0 {
      return Success([]);
    }
    var scoredJobs := ScoreJobs(uniqueJobs, score);
    ScoredAllIs(scoredJobs, uniqueJobs, score);
    var qualityFiltered := JobFiltering.Apply(scoredJobs, Some(QualityCriteria(profile)), now);
    if qualityFiltered.Failure? {
      return Failure(qualityFiltered.error);
    }
    if |qualityFiltered.value| == 0 {
      return Success([]);
    }
    return Success(TopJobs(qualityFiltered.value, profile.minScore, topN));
  }

  /**
   * `run` never raises after scraping (the quality filter only sees a
   * non-empty list), and every job it returns is scored, reaches the
   * minimum score and passes the quality criteria; the list is in
   * descending (priority, score) order and no longer than `top_n`.
   */
  lemma RunProperties(scraped: seq<Job>, extract: string -> seq<string>, ratio: Dedup.Ratio,
                      score: Job -> ScoreResult, profile: Profile, now: int, topN: int)
    ensures RunResult(scraped, extract, ratio, score, profile, now, topN).Success?
    ensures var r := RunResult(scraped, extract, ratio, score, profile, now, topN).value;
      (forall j :: j in r ==> (MeetsMinScore(profile.minScore, j)
                               && JobFiltering.Accepts(QualityCriteria(profile), now, j)))
      && SortedDesc(r, PriorityKey())
      && (topN >= 0 ==> |r| <= topN)
  {
    if |scraped| > 0 {
      var unique := Dedup.Deduplicated(Dedup.DefaultDeduplicator, ratio, false, EnrichedAll(scraped, extract));
      if |unique| > 0 {
        var scored := ScoredAll(unique, score);
        var criteria := Some(QualityCriteria(profile));
        assert !JobFiltering.NoCriteria(criteria) by {
          assert QualityCriteria(profile).minDescriptionLength != JobFiltering.NoKeys.minDescriptionLength;
        }
        JobFiltering.AppliedProperties(scored, criteria, now);
        var quality := JobFiltering.Applied(scored, criteria, now).value;
        if |quality| > 0 {
          TopJobsMembers(quality, profile.minScore, topN);
          TopJobsRanking(quality, profile.minScore, topN);
        }
      }
    }
  }

  /** The unique jobs that `run` scores. */
  function UniqueJobs(scraped: seq<Job>, extract: string -> seq<string>, ratio: Dedup.Ratio): seq<Job> {
    Dedup.Deduplicated(Dedup.DefaultDeduplicator, ratio, false, EnrichedAll(scraped, extract))
  }

  lemma RunWithinScored(scraped: seq<Job>, extract: string -> seq<string>, ratio: Dedup.Ratio,
                        score: Job -> ScoreResult, profile: Profile, now: int, topN: int, j: Job)
    requires RunResult(scraped, extract, ratio, score, profile, now, topN).Success?
    requires j in RunResult(scraped, extract, ratio, score, profile, now, topN).value
    ensures j in ScoredAll(UniqueJobs(scraped, extract, ratio), score)
  {
    var scored := ScoredAll(UniqueJobs(scraped, extract, ratio), score);
    var criteria := Some(QualityCriteria(profile));
    assert !JobFiltering.NoCriteria(criteria) by {
      assert QualityCriteria(profile).minDescriptionLength != JobFiltering.NoKeys.minDescriptionLength;
    }
    JobFiltering.AppliedProperties(scored, criteria, now);
    var quality := JobFiltering.Applied(scored, criteria, now).value;
    TopJobsMembers(quality, profile.minScore, topN);
  }

  /** Every returned job is one of the scraped jobs with its tech stack filled in and its score attached. */
  lemma RunJobsComeFromScraped(scraped: seq<Job>, extract: string -> seq<string>, ratio: Dedup.Ratio,
                               score: Job -> ScoreResult, profile: Profile, now: int, topN: int, j: Job)
    requires RunResult(scraped, extract, ratio, score, profile, now, topN).Success?
    requires j in RunResult(scraped, extract, ratio, score, profile, now, topN).value
    ensures exists s :: s in scraped && j == Scored(Enriched(s, extract), score)
  {
    RunWithinScored(scraped, extract, ratio, score, profile, now, topN, j);
    ScoredUniqueFromScraped(scraped, extract, ratio, score, j);
  }

  /** A scored unique job is one of the scraped jobs, enriched and scored. */
  lemma ScoredUniqueFromScraped(scraped: seq<Job>, extract: string -> seq<string>, ratio: Dedup.Ratio,
                                score: Job -> ScoreResult, j: Job)
    requires j in ScoredAll(UniqueJobs(scraped, extract, ratio), score)
    ensures exists s :: s in scraped && j == Scored(Enriched(s, extract), score)
  {
    var unique := UniqueJobs(scraped, extract, ratio);
    var k :| 0 <= k < |unique| && ScoredAll(unique, score)[k] == j;
    UniqueFromScraped(scraped, extract, ratio, unique[k]);
    var m :| 0 <= m < |scraped| && unique[k] == Enriched(scraped[m], extract);
    assert scraped[m] in scraped;
  }

  /** A job that survives deduplication is one of the scraped jobs, enriched. */
  lemma UniqueFromScraped(scraped: seq<Job>, extract: string -> seq<string>, ratio: Dedup.Ratio, u: Job)
    requires u in UniqueJobs(scraped, extract, ratio)
    ensures exists m :: 0 <= m < |scraped| && u == Enriched(scraped[m], extract)
  {
    var enriched := EnrichedAll(scraped, extract);
    Dedup.DeduplicatedProperties(Dedup.DefaultDeduplicator, ratio, false, enriched);
    SubseqMember(UniqueJobs(scraped, extract, ratio), enriched, u);
    var m :| 0 <= m < |enriched| && enriched[m] == u;
  }
}
