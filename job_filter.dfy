/**
 * The pre-scoring job filter. Each criterion present (and truthy) in the
 * criteria dictionary removes the jobs that fail it, in a fixed order:
 * locations, minimum description length, maximum age, role keywords,
 * excluded keywords, seniority, remote only, contract types. The current
 * time is a parameter (seconds since the epoch).
 */
module JobFiltering {
  import opened Wrappers
  import opened Jobs
  import opened Text
  import opened Lists

  /** The criteria dictionary; a field is `None` when its key is absent. */
  datatype Criteria = Criteria(
    locations: Option<seq<string>>,
    minDescriptionLength: Option<int>,
    maxAgeDays: Option<int>,
    roleKeywords: Option<seq<string>>,
    excludeKeywords: Option<seq<string>>,
    excludeSeniorLead: Option<bool>,
    remoteOnly: Option<bool>,
    contractTypes: Option<seq<string>>)

  const NoKeys: Criteria := Criteria(None, None, None, None, None, None, None, None)

  /** `not criteria`: no dictionary, or an empty one. */
  predicate NoCriteria(criteria: Option<Criteria>) {
    criteria.None? || criteria.value == NoKeys
  }

  /** `criteria.get(key)` is truthy for a list: present and non-empty. */
  predicate ListSet(o: Option<seq<string>>) { o.Some? && |o.value| > 0 }

  /** `criteria.get(key)` is truthy for an integer: present and non-zero. */
  predicate IntSet(o: Option<int>) { o.Some? && o.value != 0 }

  /** `criteria.get(key)` is truthy for a flag: present and true. */
  predicate FlagSet(o: Option<bool>) { o.Some? && o.value }

  // ---------------------------------------------------------------------------
  // The single filters
  // ---------------------------------------------------------------------------

  /** Some lowered location occurs in the lowered job location or in the lowered remote type. */
  predicate MatchesLocation(locationsLower: seq<string>, j: Job) {
    var jobLocation := Lower(j.location);
    var remoteType := Lower(OrEmpty(j.remoteType));
    exists loc :: loc in locationsLower && (Contains(jobLocation, loc) || Contains(remoteType, loc))
  }

  function LocationTest(locationsLower: seq<string>): Job -> bool {
    (j: Job) => MatchesLocation(locationsLower, j)
  }

  /** `_filter_by_location`. */
  method FilterByLocation(jobs: seq<Job>, locations: seq<string>) returns (filtered: seq<Job>)
    ensures filtered == Filter(jobs, LocationTest(LowerAll(locations)))
    ensures forall j :: j in filtered <==> j in jobs && MatchesLocation(LowerAll(locations), j)
  {
    var locationsLower := LowerAll(locations);
    filtered := [];
    for i := 0 to |jobs|
      invariant filtered == Filter(jobs[..i], LocationTest(locationsLower))
    {
      var job := jobs[i];
      var matches := MatchesLocation(locationsLower, job);
      FilterStep(jobs, i, LocationTest(locationsLower));
      if matches {
        filtered := filtered + [job];
      }
    }
    assert jobs[..|jobs|] == jobs;
  }

  function LengthTest(minLength: int): Job -> bool {
    (j: Job) => |j.description| >= minLength
  }

  /** `_filter_by_description_length`: the jobs whose description has at least `minLength` characters. */
  function FilterByDescriptionLength(jobs: seq<Job>, minLength: int): (r: seq<Job>)
    ensures forall j :: j in r <==> j in jobs && |j.description| >= minLength
    ensures IsSubseq(r, jobs)
  {
    FilterSubseq(jobs, LengthTest(minLength));
    Filter(jobs, LengthTest(minLength))
  }

  /** `datetime.now() - timedelta(days=max_age_days)`, in seconds. */
  function Cutoff(now: int, maxAgeDays: int): int {
    now - maxAgeDays * SecondsPerDay
  }

  function AgeTest(cutoff: int): Job -> bool {
    (j: Job) => j.postedDate >= cutoff
  }

  /** `_filter_by_age`: the jobs posted at or after `maxAgeDays` days before `now`. */
  function FilterByAge(jobs: seq<Job>, maxAgeDays: int, now: int): (r: seq<Job>)
    ensures forall j :: j in r <==> j in jobs && now - j.postedDate <= maxAgeDays * SecondsPerDay
    ensures IsSubseq(r, jobs)
  {
    FilterSubseq(jobs, AgeTest(Cutoff(now, maxAgeDays)));
    Filter(jobs, AgeTest(Cutoff(now, maxAgeDays)))
  }

  /** A longer allowed age keeps at least the jobs a shorter one keeps. */
  lemma AgeMonotone(jobs: seq<Job>, shorter: int, longer: int, now: int)
    requires shorter <= longer
    ensures forall j :: j in FilterByAge(jobs, shorter, now) ==> j in FilterByAge(jobs, longer, now)
  {
  }

  /** Some lowered keyword occurs in the lowered `"{title} {description}"`. */
  predicate MatchesKeywords(keywordsLower: seq<string>, j: Job) {
    var searchable := Lower(j.title + " " + j.description);
    exists kw :: kw in keywordsLower && Contains(searchable, kw)
  }

  function KeywordTest(keywordsLower: seq<string>, mustMatch: bool): Job -> bool {
    (j: Job) => MatchesKeywords(keywordsLower, j) == mustMatch
  }

  /** `_filter_by_keywords`: with `mustMatch` the jobs that match some keyword, otherwise those that match none. */
  method FilterByKeywords(jobs: seq<Job>, keywords: seq<string>, mustMatch: bool) returns (filtered: seq<Job>)
    ensures filtered == Filter(jobs, KeywordTest(LowerAll(keywords), mustMatch))
    ensures forall j :: j in filtered <==> j in jobs && MatchesKeywords(LowerAll(keywords), j) == mustMatch
  {
    var keywordsLower := LowerAll(keywords);
    filtered := [];
    for i := 0 to |jobs|
      invariant filtered == Filter(jobs[..i], KeywordTest(keywordsLower, mustMatch))
    {
      var job := jobs[i];
      var matches := MatchesKeywords(keywordsLower, job);
      FilterStep(jobs, i, KeywordTest(keywordsLower, mustMatch));
      if mustMatch && matches {
        filtered := filtered + [job];
      } else if !mustMatch && !matches {
        filtered := filtered + [job];
      }
    }
    assert jobs[..|jobs|] == jobs;
  }

  /** The role filter and the exclusion filter with the same keywords split the jobs between them. */
  lemma KeywordFiltersPartition(jobs: seq<Job>, keywords: seq<string>)
    ensures |Filter(jobs, KeywordTest(LowerAll(keywords), true))|
          + |Filter(jobs, KeywordTest(LowerAll(keywords), false))| == |jobs|
  {
    FilterPartition(jobs, KeywordTest(LowerAll(keywords), true), KeywordTest(LowerAll(keywords), false));
  }

  const RemoteKeywords: seq<string> := ["remote", "full remote", "fully remote", "work from home"]

  /** Some remote keyword occurs in the lowered remote type or the lowered location. */
  predicate IsRemote(j: Job) {
    var remoteType := Lower(OrEmpty(j.remoteType));
    var location := Lower(j.location);
    exists kw :: kw in RemoteKeywords && (Contains(remoteType, kw) || Contains(location, kw))
  }

  function RemoteTest(): Job -> bool {
    (j: Job) => IsRemote(j)
  }

  /** `_filter_by_remote`. */
  method FilterByRemote(jobs: seq<Job>) returns (filtered: seq<Job>)
    ensures filtered == Filter(jobs, RemoteTest())
    ensures forall j :: j in filtered <==> j in jobs && IsRemote(j)
  {
    filtered := [];
    for i := 0 to |jobs|
      invariant filtered == Filter(jobs[..i], RemoteTest())
    {
      var job := jobs[i];
      var isRemote := IsRemote(job);
      FilterStep(jobs, i, RemoteTest());
      if isRemote {
        filtered := filtered + [job];
      }
    }
    assert jobs[..|jobs|] == jobs;
  }

  lemma LiteralContains(s: string, p: string, i: nat)
    requires i + |p| <= |s| && s[i..i + |p|] == p
    ensures Contains(s, p)
  {
    ContainsAt(s, p, i);
  }

  lemma RemotePhrasesHaveRemote()
    ensures Contains("full remote", "remote") && Contains("fully remote", "remote")
  {
    LiteralContains("full remote", "remote", 5);
    LiteralContains("fully remote", "remote", 6);
  }

  /**
   * "full remote" and "fully remote" add nothing to "remote": a job is
   * remote exactly when "remote" or "work from home" occurs in its lowered
   * remote type or location.
   */
  lemma IsRemoteReduced(j: Job)
    ensures IsRemote(j) <==>
      var remoteType := Lower(OrEmpty(j.remoteType));
      var location := Lower(j.location);
      Contains(remoteType, "remote") || Contains(location, "remote")
      || Contains(remoteType, "work from home") || Contains(location, "work from home")
  {
    var remoteType := Lower(OrEmpty(j.remoteType));
    var location := Lower(j.location);
    RemotePhrasesHaveRemote();
    if Contains(remoteType, "full remote") { ContainsTrans(remoteType, "full remote", "remote"); }
    if Contains(location, "full remote") { ContainsTrans(location, "full remote", "remote"); }
    if Contains(remoteType, "fully remote") { ContainsTrans(remoteType, "fully remote", "remote"); }
    if Contains(location, "fully remote") { ContainsTrans(location, "fully remote", "remote"); }
    assert RemoteKeywords[0] == "remote" && RemoteKeywords[3] == "work from home";
  }

  /** A job without a contract type is kept; otherwise some lowered accepted type must occur in its lowered contract type. */
  predicate AcceptsContract(typesLower: seq<string>, j: Job) {
    if Truthy(j.contractType) then
      var jobContract := Lower(j.contractType.value);
      exists ct :: ct in typesLower && Contains(jobContract, ct)
    else true
  }

  function ContractTest(typesLower: seq<string>): Job -> bool {
    (j: Job) => AcceptsContract(typesLower, j)
  }

  /** `_filter_by_contract_type`. */
  method FilterByContractType(jobs: seq<Job>, contractTypes: seq<string>) returns (filtered: seq<Job>)
    ensures filtered == Filter(jobs, ContractTest(LowerAll(contractTypes)))
    ensures forall j :: j in filtered <==> j in jobs && AcceptsContract(LowerAll(contractTypes), j)
  {
    var typesLower := LowerAll(contractTypes);
    filtered := [];
    for i := 0 to |jobs|
      invariant filtered == Filter(jobs[..i], ContractTest(typesLower))
    {
      var job := jobs[i];
      FilterStep(jobs, i, ContractTest(typesLower));
      if Truthy(job.contractType) {
        var jobContract := Lower(job.contractType.value);
        if exists ct :: ct in typesLower && Contains(jobContract, ct) {
          filtered := filtered + [job];
        }
      } else {
        filtered := filtered + [job];
      }
    }
    assert jobs[..|jobs|] == jobs;
  }

  /** Whatever the accepted types, a job with no (or an empty) contract type passes. */
  lemma MissingContractKept(jobs: seq<Job>, contractTypes: seq<string>, j: Job)
    requires j in jobs && !Truthy(j.contractType)
    ensures j in Filter(jobs, ContractTest(LowerAll(contractTypes)))
  {
  }

  const SeniorKeywords: seq<string> :=
    ["senior", "sr.", "sr", "lead", "tech lead", "team lead", "principal", "staff", "architect", "head of"]

  /** Some seniority keyword occurs in the lowered title. */
  predicate HasSenior(title: string) {
    var titleLower := Lower(title);
    exists keyword :: keyword in SeniorKeywords && Contains(titleLower, keyword)
  }

  function SeniorityTest(): Job -> bool {
    (j: Job) => !HasSenior(j.title)
  }

  /** `_filter_by_seniority`. */
  method FilterBySeniority(jobs: seq<Job>) returns (filtered: seq<Job>)
    ensures filtered == Filter(jobs, SeniorityTest())
    ensures forall j :: j in filtered <==> j in jobs && !HasSenior(j.title)
  {
    filtered := [];
    for i := 0 to |jobs|
      invariant filtered == Filter(jobs[..i], SeniorityTest())
    {
      var job := jobs[i];
      var hasSenior := HasSenior(job.title);
      FilterStep(jobs, i, SeniorityTest());
      if !hasSenior {
        filtered := filtered + [job];
      }
    }
    assert jobs[..|jobs|] == jobs;
  }

  lemma SeniorPhrasesHaveShortForms()
    ensures Contains("sr.", "sr") && Contains("tech lead", "lead") && Contains("team lead", "lead")
  {
    LiteralContains("sr.", "sr", 0);
    LiteralContains("tech lead", "lead", 5);
    LiteralContains("team lead", "lead", 5);
  }

  /**
   * "sr." adds nothing to "sr", and "tech lead" and "team lead" nothing to
   * "lead": the seniority test is decided by seven of its ten keywords.
   */
  lemma HasSeniorReduced(title: string)
    ensures HasSenior(title) <==>
      var t := Lower(title);
      Contains(t, "senior") || Contains(t, "sr") || Contains(t, "lead") || Contains(t, "principal")
      || Contains(t, "staff") || Contains(t, "architect") || Contains(t, "head of")
  {
    var t := Lower(title);
    SeniorPhrasesHaveShortForms();
    if Contains(t, "sr.") { ContainsTrans(t, "sr.", "sr"); }
    if Contains(t, "tech lead") { ContainsTrans(t, "tech lead", "lead"); }
    if Contains(t, "team lead") { ContainsTrans(t, "team lead", "lead"); }
    assert SeniorKeywords[0] == "senior" && SeniorKeywords[2] == "sr" && SeniorKeywords[3] == "lead";
    assert SeniorKeywords[6] == "principal" && SeniorKeywords[7] == "staff";
    assert SeniorKeywords[8] == "architect" && SeniorKeywords[9] == "head of";
  }

  // ---------------------------------------------------------------------------
  // apply
  // ---------------------------------------------------------------------------

  /** A list criterion, lowered; `[]` when the key is absent. */
  function Lowered(o: Option<seq<string>>): seq<string> {
    LowerAll(o.GetOr([]))
  }

  // The eight stages of `apply`, each a no-op when its criterion is not set.

  function LocationStage(s: seq<Job>, c: Criteria): seq<Job> {
    FilterIf(s, ListSet(c.locations), LocationTest(Lowered(c.locations)))
  }

  function LengthStage(s: seq<Job>, c: Criteria): seq<Job> {
    FilterIf(s, IntSet(c.minDescriptionLength), LengthTest(c.minDescriptionLength.GetOr(0)))
  }

  function AgeStage(s: seq<Job>, c: Criteria, now: int): seq<Job> {
    FilterIf(s, IntSet(c.maxAgeDays), AgeTest(Cutoff(now, c.maxAgeDays.GetOr(0))))
  }

  function RoleStage(s: seq<Job>, c: Criteria): seq<Job> {
    FilterIf(s, ListSet(c.roleKeywords), KeywordTest(Lowered(c.roleKeywords), true))
  }

  function ExcludeStage(s: seq<Job>, c: Criteria): seq<Job> {
    FilterIf(s, ListSet(c.excludeKeywords), KeywordTest(Lowered(c.excludeKeywords), false))
  }

  function SeniorityStage(s: seq<Job>, c: Criteria): seq<Job> {
    FilterIf(s, FlagSet(c.excludeSeniorLead), SeniorityTest())
  }

  function RemoteStage(s: seq<Job>, c: Criteria): seq<Job> {
    FilterIf(s, FlagSet(c.remoteOnly), RemoteTest())
  }

  function ContractStage(s: seq<Job>, c: Criteria): seq<Job> {
    FilterIf(s, ListSet(c.contractTypes), ContractTest(Lowered(c.contractTypes)))
  }

  /** The three filters `get_filter_stats` simulates, in order. */
  function FirstThree(jobs: seq<Job>, c: Criteria, now: int): seq<Job> {
    AgeStage(LengthStage(LocationStage(jobs, c), c), c, now)
  }

  /** The remaining five filters of `apply`, in order. */
  function LastFive(s: seq<Job>, c: Criteria): seq<Job> {
    ContractStage(RemoteStage(SeniorityStage(ExcludeStage(RoleStage(s, c), c), c), c), c)
  }

  /**
   * What `apply` returns. With criteria and no jobs the final log line
   * divides by the initial count of zero, which raises `ZeroDivisionError`.
   */
  function Applied(jobs: seq<Job>, criteria: Option<Criteria>, now: int): Result<seq<Job>> {
    if NoCriteria(criteria) then Success(jobs)
    else if |jobs| == 0 then Failure("ZeroDivisionError: division by zero")
    else Success(LastFive(FirstThree(jobs, criteria.value, now), criteria.value))
  }

  /** The criteria `get_filter_stats` simulates, all met. */
  predicate AcceptsFirstThree(c: Criteria, now: int, j: Job) {
    (ListSet(c.locations) ==> MatchesLocation(Lowered(c.locations), j))
    && (IntSet(c.minDescriptionLength) ==> |j.description| >= c.minDescriptionLength.value)
    && (IntSet(c.maxAgeDays) ==> now - j.postedDate <= c.maxAgeDays.value * SecondsPerDay)
  }

  /** The other five criteria, all met. */
  predicate AcceptsLastFive(c: Criteria, j: Job) {
    (ListSet(c.roleKeywords) ==> MatchesKeywords(Lowered(c.roleKeywords), j))
    && (ListSet(c.excludeKeywords) ==> !MatchesKeywords(Lowered(c.excludeKeywords), j))
    && (FlagSet(c.excludeSeniorLead) ==> !HasSenior(j.title))
    && (FlagSet(c.remoteOnly) ==> IsRemote(j))
    && (ListSet(c.contractTypes) ==> AcceptsContract(Lowered(c.contractTypes), j))
  }

  /** Every criterion that is set is met. */
  predicate Accepts(c: Criteria, now: int, j: Job) {
    AcceptsFirstThree(c, now, j) && AcceptsLastFive(c, j)
  }

  method Apply(jobs: seq<Job>, criteria: Option<Criteria>, now: int) returns (r: Result<seq<Job>>)
    ensures r == Applied(jobs, criteria, now)
  {
    if NoCriteria(criteria) {
      return Success(jobs);
    }
    var c := criteria.value;
    var initialCount := |jobs|;
    var filtered := ApplyFirstThree(jobs, c, now);
    filtered := ApplyLastFive(filtered, c);
    if initialCount == 0 {
      return Failure("ZeroDivisionError: division by zero");
    }
    return Success(filtered);
  }

  /** The location, description-length and age steps of `apply`. */
  method ApplyFirstThree(jobs: seq<Job>, c: Criteria, now: int) returns (filtered: seq<Job>)
    ensures filtered == FirstThree(jobs, c, now)
  {
    filtered := jobs;
    ghost var before := filtered;
    if ListSet(c.locations) {
      filtered := FilterByLocation(filtered, c.locations.value);
    }
    assert filtered == LocationStage(before, c);
    before := filtered;
    if IntSet(c.minDescriptionLength) {
      filtered := FilterByDescriptionLength(filtered, c.minDescriptionLength.value);
    }
    assert filtered == LengthStage(before, c);
    if IntSet(c.maxAgeDays) {
      filtered := FilterByAge(filtered, c.maxAgeDays.value, now);
    }
  }

  /** The role, exclusion, seniority, remote and contract-type steps of `apply`. */
  method ApplyLastFive(jobs: seq<Job>, c: Criteria) returns (filtered: seq<Job>)
    ensures filtered == LastFive(jobs, c)
  {
    filtered := jobs;
    ghost var before := filtered;
    if ListSet(c.roleKeywords) {
      filtered := FilterByKeywords(filtered, c.roleKeywords.value, true);
    }
    assert filtered == RoleStage(before, c);
    before := filtered;
    if ListSet(c.excludeKeywords) {
      filtered := FilterByKeywords(filtered, c.excludeKeywords.value, false);
    }
    assert filtered == ExcludeStage(before, c);
    before := filtered;
    if FlagSet(c.excludeSeniorLead) {
      filtered := FilterBySeniority(filtered);
    }
    assert filtered == SeniorityStage(before, c);
    before := filtered;
    if FlagSet(c.remoteOnly) {
      filtered := FilterByRemote(filtered);
    }
    assert filtered == RemoteStage(before, c);
    if ListSet(c.contractTypes) {
      filtered := FilterByContractType(filtered, c.contractTypes.value);
    }
  }

  lemma FirstThreeProperties(jobs: seq<Job>, c: Criteria, now: int)
    ensures IsSubseq(FirstThree(jobs, c, now), jobs)
    ensures forall j :: j in FirstThree(jobs, c, now) <==> j in jobs && AcceptsFirstThree(c, now, j)
  {
    var s1 := LocationStage(jobs, c);
    var s2 := LengthStage(s1, c);
    var s3 := AgeStage(s2, c, now);
    FilterIfSubseq(jobs, ListSet(c.locations), LocationTest(Lowered(c.locations)));
    FilterIfSubseq(s1, IntSet(c.minDescriptionLength), LengthTest(c.minDescriptionLength.GetOr(0)));
    FilterIfSubseq(s2, IntSet(c.maxAgeDays), AgeTest(Cutoff(now, c.maxAgeDays.GetOr(0))));
    FilterIfMembers(jobs, ListSet(c.locations), LocationTest(Lowered(c.locations)));
    FilterIfMembers(s1, IntSet(c.minDescriptionLength), LengthTest(c.minDescriptionLength.GetOr(0)));
    FilterIfMembers(s2, IntSet(c.maxAgeDays), AgeTest(Cutoff(now, c.maxAgeDays.GetOr(0))));
    SubseqTrans(s2, s1, jobs);
    SubseqTrans(s3, s2, jobs);
  }

  lemma LastFiveProperties(s: seq<Job>, c: Criteria)
    ensures IsSubseq(LastFive(s, c), s)
    ensures forall j :: j in LastFive(s, c) <==> j in s && AcceptsLastFive(c, j)
  {
    LastFiveSubseq(s, c);
    forall j ensures j in LastFive(s, c) <==> j in s && AcceptsLastFive(c, j) {
      LastFiveMember(s, c, j);
    }
  }

  lemma LastFiveMember(s: seq<Job>, c: Criteria, j: Job)
    ensures j in LastFive(s, c) <==> j in s && AcceptsLastFive(c, j)
  {
    var s4 := RoleStage(s, c);
    var s5 := ExcludeStage(s4, c);
    var s6 := SeniorityStage(s5, c);
    var s7 := RemoteStage(s6, c);
    FilterIfMember(s, ListSet(c.roleKeywords), KeywordTest(Lowered(c.roleKeywords), true), j);
    FilterIfMember(s4, ListSet(c.excludeKeywords), KeywordTest(Lowered(c.excludeKeywords), false), j);
    FilterIfMember(s5, FlagSet(c.excludeSeniorLead), SeniorityTest(), j);
    FilterIfMember(s6, FlagSet(c.remoteOnly), RemoteTest(), j);
    FilterIfMember(s7, ListSet(c.contractTypes), ContractTest(Lowered(c.contractTypes)), j);
  }

  lemma LastFiveSubseq(s: seq<Job>, c: Criteria)
    ensures IsSubseq(LastFive(s, c), s)
  {
    var s4 := RoleStage(s, c);
    var s5 := ExcludeStage(s4, c);
    var s6 := SeniorityStage(s5, c);
    var s7 := RemoteStage(s6, c);
    var s8 := ContractStage(s7, c);
    FilterIfSubseq(s, ListSet(c.roleKeywords), KeywordTest(Lowered(c.roleKeywords), true));
    FilterIfSubseq(s4, ListSet(c.excludeKeywords), KeywordTest(Lowered(c.excludeKeywords), false));
    FilterIfSubseq(s5, FlagSet(c.excludeSeniorLead), SeniorityTest());
    FilterIfSubseq(s6, FlagSet(c.remoteOnly), RemoteTest());
    FilterIfSubseq(s7, ListSet(c.contractTypes), ContractTest(Lowered(c.contractTypes)));
    SubseqTrans(s5, s4, s);
    SubseqTrans(s6, s5, s);
    SubseqTrans(s7, s6, s);
    SubseqTrans(s8, s7, s);
  }

  /**
   * `apply` keeps, in their order, exactly the jobs that meet every
   * criterion that is set, so the order in which the filters run does not
   * change which jobs survive. It fails exactly when criteria are given and
   * there are no jobs.
   */
  lemma AppliedProperties(jobs: seq<Job>, criteria: Option<Criteria>, now: int)
    ensures Applied(jobs, criteria, now).Failure? <==> !NoCriteria(criteria) && |jobs| == 0
    ensures Applied(jobs, criteria, now).Success? ==>
      var r := Applied(jobs, criteria, now).value;
      IsSubseq(r, jobs)
      && forall j :: j in r <==> j in jobs && (NoCriteria(criteria) || Accepts(criteria.value, now, j))
  {
    if NoCriteria(criteria) {
      SubseqRefl(jobs);
    } else if |jobs| > 0 {
      var c := criteria.value;
      FirstThreeProperties(jobs, c, now);
      LastFiveProperties(FirstThree(jobs, c, now), c);
      SubseqTrans(LastFive(FirstThree(jobs, c, now), c), FirstThree(jobs, c, now), jobs);
    }
  }

  /** Filtering the result again with the same criteria changes nothing. */
  lemma AppliedIdempotent(jobs: seq<Job>, criteria: Option<Criteria>, now: int)
    requires Applied(jobs, criteria, now).Success?
    requires |Applied(jobs, criteria, now).value| > 0
    ensures Applied(Applied(jobs, criteria, now).value, criteria, now) == Applied(jobs, criteria, now)
  {
    if !NoCriteria(criteria) {
      var c := criteria.value;
      var r := Applied(jobs, criteria, now).value;
      AppliedProperties(jobs, criteria, now);
      FirstThreeFixed(r, c, now);
      LastFiveFixed(r, c);
    }
  }

  lemma FirstThreeFixed(s: seq<Job>, c: Criteria, now: int)
    requires forall j :: j in s ==> AcceptsFirstThree(c, now, j)
    ensures FirstThree(s, c, now) == s
  {
    FilterIfAll(s, ListSet(c.locations), LocationTest(Lowered(c.locations)));
    FilterIfAll(s, IntSet(c.minDescriptionLength), LengthTest(c.minDescriptionLength.GetOr(0)));
    FilterIfAll(s, IntSet(c.maxAgeDays), AgeTest(Cutoff(now, c.maxAgeDays.GetOr(0))));
  }

  lemma LastFiveFixed(s: seq<Job>, c: Criteria)
    requires forall j :: j in s ==> AcceptsLastFive(c, j)
    ensures LastFive(s, c) == s
  {
    FilterIfAll(s, ListSet(c.roleKeywords), KeywordTest(Lowered(c.roleKeywords), true));
    FilterIfAll(s, ListSet(c.excludeKeywords), KeywordTest(Lowered(c.excludeKeywords), false));
    FilterIfAll(s, FlagSet(c.excludeSeniorLead), SeniorityTest());
    FilterIfAll(s, FlagSet(c.remoteOnly), RemoteTest());
    FilterIfAll(s, ListSet(c.contractTypes), ContractTest(Lowered(c.contractTypes)));
  }

  // ---------------------------------------------------------------------------
  // get_filter_stats
  // ---------------------------------------------------------------------------

  /** One `{'name', 'before', 'after'}` entry of `filters_applied`. */
  datatype AppliedFilter = AppliedFilter(name: string, before: nat, after: nat)

  /** The statistics dictionary; `retentionRate` is `None` when the key is absent. */
  datatype FilterStats = FilterStats(
    totalJobs: nat,
    filtersApplied: seq<AppliedFilter>,
    estimatedRetained: nat,
    retentionRate: Option<real>)

  /** The entry a stage adds to `filters_applied`: one when it ran, none otherwise. */
  function Record(name: string, active: bool, before: seq<Job>, after: seq<Job>): seq<AppliedFilter> {
    if active then [AppliedFilter(name, |before|, |after|)] else []
  }

  /** What `get_filter_stats` returns. */
  function FilterStatsOf(jobs: seq<Job>, criteria: Option<Criteria>, now: int): FilterStats {
    if NoCriteria(criteria) then FilterStats(|jobs|, [], |jobs|, None)
    else
      var c := criteria.value;
      var s1 := LocationStage(jobs, c);
      var s2 := LengthStage(s1, c);
      var s3 := AgeStage(s2, c, now);
      FilterStats(|jobs|,
                  Record("locations", ListSet(c.locations), jobs, s1)
                  + Record("description_length", IntSet(c.minDescriptionLength), s1, s2)
                  + Record("age", IntSet(c.maxAgeDays), s2, s3),
                  |s3|,
                  Some(if |jobs| > 0 then (|s3| as real) / (|jobs| as real) else 0.0))
  }

  method GetFilterStats(jobs: seq<Job>, criteria: Option<Criteria>, now: int) returns (stats: FilterStats)
    ensures stats == FilterStatsOf(jobs, criteria, now)
  {
    stats := FilterStats(|jobs|, [], |jobs|, None);
    if NoCriteria(criteria) {
      return;
    }
    var c := criteria.value;
    var currentJobs := jobs;
    var applied: seq<AppliedFilter> := [];
    if ListSet(c.locations) {
      var filtered := FilterByLocation(currentJobs, c.locations.value);
      applied := applied + [AppliedFilter("locations", |currentJobs|, |filtered|)];
      currentJobs := filtered;
    }
    assert currentJobs == LocationStage(jobs, c);
    assert applied == Record("locations", ListSet(c.locations), jobs, currentJobs);
    ghost var s1 := currentJobs;
    ghost var a1 := applied;
    if IntSet(c.minDescriptionLength) {
      var filtered := FilterByDescriptionLength(currentJobs, c.minDescriptionLength.value);
      applied := applied + [AppliedFilter("description_length", |currentJobs|, |filtered|)];
      currentJobs := filtered;
    }
    assert currentJobs == LengthStage(s1, c);
    assert applied == a1 + Record("description_length", IntSet(c.minDescriptionLength), s1, currentJobs);
    ghost var s2 := currentJobs;
    ghost var a2 := applied;
    if IntSet(c.maxAgeDays) {
      var filtered := FilterByAge(currentJobs, c.maxAgeDays.value, now);
      applied := applied + [AppliedFilter("age", |currentJobs|, |filtered|)];
      currentJobs := filtered;
    }
    assert currentJobs == AgeStage(s2, c, now);
    assert applied == a2 + Record("age", IntSet(c.maxAgeDays), s2, currentJobs);
    var rate := if |jobs| > 0 then (|currentJobs| as real) / (|jobs| as real) else 0.0;
    stats := FilterStats(|jobs|, applied, |currentJobs|, Some(rate));
  }

  /**
   * `steps` lead from `start` jobs to `end` jobs: each step starts where the
   * previous one ended and never grows the list.
   */
  predicate Chained(steps: seq<AppliedFilter>, start: nat, end: nat)
    decreases |steps|
  {
    if |steps| == 0 then start == end
    else steps[0].before == start && steps[0].after <= steps[0].before
         && Chained(steps[1..], steps[0].after, end)
  }

  /** A chain never grows the list, and its steps meet end to end. */
  lemma {:induction false} ChainedSteps(steps: seq<AppliedFilter>, start: nat, end: nat)
    requires Chained(steps, start, end)
    ensures end <= start
    ensures |steps| > 0 ==> steps[0].before == start && steps[|steps| - 1].after == end
    ensures forall k :: 0 <= k < |steps| ==> steps[k].after <= steps[k].before
    ensures forall k :: 0 <= k < |steps| - 1 ==> steps[k + 1].before == steps[k].after
    decreases |steps|
  {
    if |steps| > 0 {
      ChainedSteps(steps[1..], steps[0].after, end);
      assert forall k :: 1 <= k < |steps| ==> steps[k] == steps[1..][k - 1];
    }
  }

  lemma {:induction false} ChainedAppend(a: seq<AppliedFilter>, b: seq<AppliedFilter>, start: nat, mid: nat, end: nat)
    requires Chained(a, start, mid) && Chained(b, mid, end)
    ensures Chained(a + b, start, end)
    decreases |a|
  {
    if |a| > 0 {
      assert (a + b)[1..] == a[1..] + b;
      ChainedAppend(a[1..], b, a[0].after, mid, end);
    } else {
      assert a + b == b;
    }
  }

  lemma ChainedRecord(name: string, active: bool, before: seq<Job>, after: seq<Job>)
    requires |after| <= |before|
    requires !active ==> after == before
    ensures Chained(Record(name, active, before, after), |before|, |after|)
  {
    if active {
      var r := Record(name, active, before, after);
      assert r[1..] == [];
    }
  }

  /**
   * The simulated steps form a chain from all jobs to the estimate, which is
   * what the first three filters of `apply` keep; the retention rate is in [0, 1].
   */
  lemma FilterStatsChain(jobs: seq<Job>, criteria: Option<Criteria>, now: int)
    ensures var st := FilterStatsOf(jobs, criteria, now);
      st.totalJobs == |jobs|
      && Chained(st.filtersApplied, |jobs|, st.estimatedRetained)
      && (!NoCriteria(criteria) ==> st.estimatedRetained == |FirstThree(jobs, criteria.value, now)|)
      && (st.retentionRate.Some? ==> 0.0 <= st.retentionRate.value <= 1.0)
  {
    if !NoCriteria(criteria) {
      var c := criteria.value;
      var s1 := LocationStage(jobs, c);
      var s2 := LengthStage(s1, c);
      var s3 := AgeStage(s2, c, now);
      var r1 := Record("locations", ListSet(c.locations), jobs, s1);
      var r2 := Record("description_length", IntSet(c.minDescriptionLength), s1, s2);
      var r3 := Record("age", IntSet(c.maxAgeDays), s2, s3);
      ChainedRecord("locations", ListSet(c.locations), jobs, s1);
      ChainedRecord("description_length", IntSet(c.minDescriptionLength), s1, s2);
      ChainedRecord("age", IntSet(c.maxAgeDays), s2, s3);
      ChainedAppend(r1, r2, |jobs|, |s1|, |s2|);
      ChainedAppend(r1 + r2, r3, |jobs|, |s2|, |s3|);
      if |jobs| > 0 {
        RatioBounds(|s3|, |jobs|);
      }
    }
  }

  lemma RatioBounds(part: nat, whole: nat)
    requires part <= whole && whole > 0
    ensures 0.0 <= (part as real) / (whole as real) <= 1.0
  {
  }
}
