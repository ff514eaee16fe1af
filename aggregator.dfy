/**
 * The score aggregator: six components in a fixed order, each evaluated with
 * its own fault isolation, summed and clamped to [0, 100].
 */
module Aggregator {
  import opened Wrappers
  import opened Tables
  import opened Text
  import opened Explain
  import opened Jobs
  import opened ScoringBase
  import TfidfScoring
  import TechStackScoring
  import LocationScoring
  import RemoteScoring
  import KeywordScoring
  import ContractScoring

  datatype ScoreAggregator = ScoreAggregator(
    tfidf: TfidfScoring.TfidfComponent,
    techStack: TechStackScoring.TechStackComponent,
    location: LocationScoring.LocationComponent,
    remote: RemoteScoring.RemoteComponent,
    keywords: KeywordScoring.KeywordComponent,
    contract: ContractScoring.ContractComponent)

  /** The scoring-rule sections the component constructors read. */
  datatype ScoringRules = ScoringRules(
    techStack: TechStackScoring.TechRules,
    keywords: KeywordScoring.KeywordRules,
    contractTypes: seq<Rule>,
    remote: seq<RemoteScoring.RemoteRule>)

  const ComponentNames: seq<string> := ["tfidf", "tech_stack", "location", "remote", "keywords", "contract"]

  /** `get_component_weights`: each component's name with its budget, in component order. */
  function GetComponentWeights(a: ScoreAggregator): (w: seq<Entry<string, real>>)
    ensures Keys(w) == ComponentNames
  {
    [Entry("tfidf", a.tfidf.maxScore), Entry("tech_stack", a.techStack.maxScore),
     Entry("location", a.location.maxScore), Entry("remote", a.remote.maxScore),
     Entry("keywords", a.keywords.maxScore), Entry("contract", a.contract.maxScore)]
  }

  /** The budgets the constructor assigns. */
  predicate StandardWeights(a: ScoreAggregator) {
    && a.tfidf.maxScore == 35.0 && a.techStack.maxScore == 25.0 && a.location.maxScore == 15.0
    && a.remote.maxScore == 15.0 && a.keywords.maxScore == 8.0 && a.contract.maxScore == 2.0
  }

  const StandardBudgets: seq<real> := [35.0, 25.0, 15.0, 15.0, 8.0, 2.0]

  lemma StandardValues(a: ScoreAggregator)
    requires StandardWeights(a)
    ensures Values(GetComponentWeights(a)) == StandardBudgets
  {
  }

  /** The standard budgets add up to 100. */
  lemma StandardBudgetsSum()
    ensures SumValues(StandardBudgets) == 100.0
  {
    var v := StandardBudgets;
    assert v[..5] == [35.0, 25.0, 15.0, 15.0, 8.0];
    assert v[..5][..4] == [35.0, 25.0, 15.0, 15.0];
    assert v[..5][..4][..3] == [35.0, 25.0, 15.0];
    assert v[..5][..4][..3][..2] == [35.0, 25.0];
    assert v[..5][..4][..3][..2][..1] == [35.0];
    assert SumValues([35.0]) == 35.0 by {
      assert [35.0][..0] == [];
    }
    assert SumValues([35.0, 25.0]) == 60.0;
    assert SumValues([35.0, 25.0, 15.0]) == 75.0;
    assert SumValues([35.0, 25.0, 15.0, 15.0]) == 90.0;
    assert SumValues([35.0, 25.0, 15.0, 15.0, 8.0]) == 98.0;
  }

  /**
   * `__init__`: the six components with budgets 35, 25, 15, 15, 8 and 2, built
   * from the same rules; a remote pattern that does not compile is an error.
   */
  method NewAggregator(rules: ScoringRules, synonyms: LocationScoring.Synonyms, valid: string -> bool)
    returns (r: Result<ScoreAggregator>)
    ensures r.Success? <==> RemoteScoring.AllValid(rules.remote, valid)
    ensures r.Success? ==> StandardWeights(r.value)
    ensures r.Success? ==> r.value.techStack.techScores == PutAll([], TechStackScoring.TechAssignments(rules.techStack))
    ensures r.Success? ==> r.value.keywords.keywords == PutAll([], KeywordScoring.KeywordAssignments(rules.keywords))
    ensures r.Success? ==> r.value.contract.contractScores == PutAll([], RuleEntries(rules.contractTypes))
    ensures r.Success? ==> r.value.remote.patterns == PutAll([], RemoteScoring.GroupEntries(rules.remote))
  {
    var tfidf := TfidfScoring.TfidfComponent(35.0);
    var techTable := TechStackScoring.BuildTechScores(rules.techStack);
    var location := LocationScoring.NewLocationComponent(15.0, synonyms);
    var patterns := RemoteScoring.BuildPatterns(rules.remote, valid);
    if patterns.Failure? {
      return Failure(patterns.error);
    }
    var keywordTable := KeywordScoring.BuildKeywords(rules.keywords);
    var contractTable := ContractScoring.BuildContractScores(rules.contractTypes);
    r := Success(ScoreAggregator(
      tfidf,
      TechStackScoring.TechStackComponent(25.0, techTable),
      location,
      RemoteScoring.RemoteComponent(15.0, patterns.value),
      KeywordScoring.KeywordComponent(8.0, keywordTable),
      ContractScoring.ContractComponent(2.0, contractTable)));
  }

  function SumValues(xs: seq<real>): real
    decreases |xs|
  {
    if |xs| == 0 then 0.0 else SumValues(xs[..|xs| - 1]) + xs[|xs| - 1]
  }

  /** `verify_total_weight`: the budgets add up to 100 within 0.01. */
  function VerifyTotalWeight(a: ScoreAggregator): (ok: bool)
    ensures ok <==> -0.01 <= SumValues(Values(GetComponentWeights(a))) - 100.0 <= 0.01
  {
    var total := SumValues(Values(GetComponentWeights(a)));
    var diff := if total - 100.0 < 0.0 then 100.0 - total else total - 100.0;
    !(diff > 0.01)
  }

  /** The constructed budgets pass the weight check. */
  lemma StandardWeightsVerify(a: ScoreAggregator)
    requires StandardWeights(a)
    ensures SumValues(Values(GetComponentWeights(a))) == 100.0
    ensures VerifyTotalWeight(a)
  {
    StandardValues(a);
    StandardBudgetsSum();
  }

  /** The breakdown entry of one component: its result's three numbers, or zeros and its budget when it raised. */
  function EntryFor(name: string, maxScore: real, outcome: Result<ComponentScore>): Entry<string, ScoreEntry> {
    if outcome.Success? then Entry(name, ScoreEntry(outcome.value.rawScore, outcome.value.score, outcome.value.maxScore))
    else Entry(name, ScoreEntry(0.0, 0.0, maxScore))
  }

  /** The explanation line of one component: `NAME: text`, or `NAME: Error - message` when it raised. */
  function LineFor(name: string, outcome: Result<ComponentScore>): Message {
    if outcome.Success? then [Lit(Upper(name) + ": ")] + outcome.value.explanation
    else [Lit(Upper(name) + ": Error - " + outcome.error)]
  }

  function BreakdownEntries(components: seq<Entry<string, real>>, outcomes: seq<Result<ComponentScore>>)
    : (r: seq<Entry<string, ScoreEntry>>)
    requires |outcomes| == |components|
    ensures |r| == |components| && Keys(r) == Keys(components)
  {
    seq(|components|, i requires 0 <= i < |components| => EntryFor(components[i].key, components[i].value, outcomes[i]))
  }

  function Lines(components: seq<Entry<string, real>>, outcomes: seq<Result<ComponentScore>>): (r: seq<Message>)
    requires |outcomes| == |components|
    ensures |r| == |components|
  {
    seq(|components|, i requires 0 <= i < |components| => LineFor(components[i].key, outcomes[i]))
  }

  function SumNormalized(b: seq<Entry<string, ScoreEntry>>): real
    decreases |b|
  {
    if |b| == 0 then 0.0 else SumNormalized(b[..|b| - 1]) + b[|b| - 1].value.normalized
  }

  function SumMax(b: seq<Entry<string, ScoreEntry>>): real
    decreases |b|
  {
    if |b| == 0 then 0.0 else SumMax(b[..|b| - 1]) + b[|b| - 1].value.max
  }

  /** The result when something outside the per-component guard raised: zero everywhere. */
  function FaultResult(components: seq<Entry<string, real>>, error: string): ScoreResult {
    ScoreResult(0.0,
                PutAll([], seq(|components|, i requires 0 <= i < |components| =>
                                 Entry(components[i].key, ScoreEntry(0.0, 0.0, components[i].value)))),
                Plain("Error calculating score: " + error))
  }

  /** `sum(breakdown[name]['normalized'] for name in breakdown)`. */
  method SumBreakdown(b: seq<Entry<string, ScoreEntry>>) returns (total: real)
    ensures total == SumNormalized(b)
  {
    total := 0.0;
    for i := 0 to |b|
      invariant total == SumNormalized(b[..i])
    {
      assert b[..i + 1][..i] == b[..i];
      total := total + b[i].value.normalized;
    }
    assert b[..|b|] == b;
  }

  /**
   * The body of `score_job`, given what each component's `calculate` did and
   * whether something outside the per-component guard raised.
   */
  method Aggregate(components: seq<Entry<string, real>>, outcomes: seq<Result<ComponentScore>>, outerFault: Option<string>)
    returns (sr: ScoreResult)
    requires |outcomes| == |components|
    ensures outerFault.Some? ==> sr == FaultResult(components, outerFault.value)
    ensures outerFault.None? ==>
              && sr.breakdown == PutAll([], BreakdownEntries(components, outcomes))
              && sr.score == Clamp(SumNormalized(sr.breakdown), 0.0, 100.0)
              && sr.explanation == JoinMessages(Lines(components, outcomes), "\n")
  {
    if outerFault.Some? {
      return FaultResult(components, outerFault.value);
    }
    var es := BreakdownEntries(components, outcomes);
    var breakdown: seq<Entry<string, ScoreEntry>> := [];
    var explanations: seq<Message> := [];
    for i := 0 to |components|
      invariant breakdown == PutAll([], es[..i])
      invariant explanations == Lines(components, outcomes)[..i]
    {
      var name := components[i].key;
      var outcome := outcomes[i];
      AggregateStep(components, outcomes, i);
      if outcome.Success? {
        var result := outcome.value;
        breakdown := Put(breakdown, name, ScoreEntry(result.rawScore, result.score, result.maxScore));
        explanations := explanations + [[Lit(Upper(name) + ": ")] + result.explanation];
      } else {
        breakdown := Put(breakdown, name, ScoreEntry(0.0, 0.0, components[i].value));
        explanations := explanations + [[Lit(Upper(name) + ": Error - " + outcome.error)]];
      }
    }
    assert es[..|components|] == es;
    assert Lines(components, outcomes)[..|components|] == Lines(components, outcomes);
    var finalScore := SumBreakdown(breakdown);
    finalScore := Clamp(finalScore, 0.0, 100.0);
    sr := ScoreResult(finalScore, breakdown, JoinMessages(explanations, "\n"));
  }

  /** One more component: its entry put into the breakdown, its line appended to the explanations. */
  lemma AggregateStep(components: seq<Entry<string, real>>, outcomes: seq<Result<ComponentScore>>, i: int)
    requires |outcomes| == |components| && 0 <= i < |components|
    ensures PutAll([], BreakdownEntries(components, outcomes)[..i + 1])
         == Put(PutAll([], BreakdownEntries(components, outcomes)[..i]), components[i].key,
                EntryFor(components[i].key, components[i].value, outcomes[i]).value)
    ensures Lines(components, outcomes)[..i + 1]
         == Lines(components, outcomes)[..i] + [LineFor(components[i].key, outcomes[i])]
  {
    var es := BreakdownEntries(components, outcomes);
    PutAllSnoc([], es[..i], es[i]);
    assert es[..i + 1] == es[..i] + [es[i]];
    var ls := Lines(components, outcomes);
    assert ls[..i + 1] == ls[..i] + [ls[i]];
  }

  /** With distinct component names the breakdown holds exactly one entry per component, in order. */
  lemma BreakdownOnePerComponent(components: seq<Entry<string, real>>, outcomes: seq<Result<ComponentScore>>)
    requires |outcomes| == |components| && DistinctKeys(components)
    ensures PutAll([], BreakdownEntries(components, outcomes)) == BreakdownEntries(components, outcomes)
    ensures Keys(PutAll([], BreakdownEntries(components, outcomes))) == Keys(components)
  {
    var es := BreakdownEntries(components, outcomes);
    forall i, j | 0 <= i < j < |es| ensures es[i].key != es[j].key {
      assert es[i].key == Keys(es)[i] && es[j].key == Keys(es)[j];
    }
    PutAllFresh(es);
  }

  /** Each entry within its budget keeps the sum within the sum of the budgets. */
  lemma {:induction false} SumWithinBudgets(b: seq<Entry<string, ScoreEntry>>)
    requires forall i :: 0 <= i < |b| ==> 0.0 <= b[i].value.normalized <= b[i].value.max
    ensures 0.0 <= SumNormalized(b) <= SumMax(b)
    decreases |b|
  {
    if |b| > 0 {
      SumWithinBudgets(b[..|b| - 1]);
    }
  }

  /** Every entry inside its result's budget. */
  predicate WithinBudgets(outcomes: seq<Result<ComponentScore>>, components: seq<Entry<string, real>>) {
    forall i :: 0 <= i < |outcomes| && i < |components| ==>
      (outcomes[i].Success? ==> 0.0 <= outcomes[i].value.score <= outcomes[i].value.maxScore
                                && outcomes[i].value.maxScore == components[i].value) &&
      components[i].value >= 0.0
  }

  /** When every component stays in its budget and the budgets add up to at most 100, the upper clamp never bites. */
  lemma NoClampNeeded(components: seq<Entry<string, real>>, outcomes: seq<Result<ComponentScore>>)
    requires |outcomes| == |components| && DistinctKeys(components)
    requires WithinBudgets(outcomes, components)
    requires SumValues(Values(components)) <= 100.0
    ensures var b := PutAll([], BreakdownEntries(components, outcomes));
            Clamp(SumNormalized(b), 0.0, 100.0) == SumNormalized(b)
  {
    BreakdownOnePerComponent(components, outcomes);
    var b := BreakdownEntries(components, outcomes);
    SumWithinBudgets(b);
    SumMaxIsBudgets(components, outcomes, |components|);
    assert b[..|b|] == b;
    assert Values(components)[..|components|] == Values(components);
  }

  lemma {:induction false} SumMaxIsBudgets(components: seq<Entry<string, real>>, outcomes: seq<Result<ComponentScore>>, n: nat)
    requires |outcomes| == |components| && n <= |components|
    requires WithinBudgets(outcomes, components)
    ensures SumMax(BreakdownEntries(components, outcomes)[..n]) == SumValues(Values(components)[..n])
    decreases n
  {
    if n > 0 {
      var b := BreakdownEntries(components, outcomes);
      SumMaxIsBudgets(components, outcomes, n - 1);
      assert b[..n][..n - 1] == b[..n - 1];
      assert Values(components)[..n][..n - 1] == Values(components)[..n - 1];
    }
  }

  /**
   * `score_job`: every component is evaluated on the job and the profile, the
   * oracles standing in for the matcher, the profile's skill list and regex
   * search; `outcomes` (ghost) names what the six `calculate` calls returned.
   */
  method ScoreJob(a: ScoreAggregator, job: Job, profile: Profile,
                  similarity: Result<real>, jobTerms: Result<seq<string>>, skills: Result<seq<string>>,
                  search: (string, string) -> bool, outerFault: Option<string>)
    returns (sr: ScoreResult, ghost outcomes: seq<Result<ComponentScore>>)
    ensures Evaluated(a, job, profile, similarity, jobTerms, skills, search, outcomes)
    ensures outerFault.Some? ==> sr == FaultResult(GetComponentWeights(a), outerFault.value) && sr.score == 0.0
    ensures outerFault.None? ==>
              && sr.breakdown == PutAll([], BreakdownEntries(GetComponentWeights(a), outcomes))
              && Keys(sr.breakdown) == ComponentNames
              && sr.score == Clamp(SumNormalized(sr.breakdown), 0.0, 100.0)
              && sr.explanation == JoinMessages(Lines(GetComponentWeights(a), outcomes), "\n")
    ensures outerFault.None? && StandardWeights(a) ==>
              sr.score == SumNormalized(sr.breakdown) && 0.0 <= sr.score <= 100.0
  {
    var results := EvaluateComponents(a, job, profile, similarity, jobTerms, skills, search);
    outcomes := results;
    var components := GetComponentWeights(a);
    sr := Aggregate(components, results, outerFault);
    if outerFault.None? {
      OneEntryPerName(a, outcomes);
      if StandardWeights(a) {
        StandardScoreInRange(a, outcomes);
      }
    }
  }

  /** With the standard budgets and every component within its budget, the sum lies in 0..100 unclamped. */
  lemma StandardScoreInRange(a: ScoreAggregator, outcomes: seq<Result<ComponentScore>>)
    requires |outcomes| == 6 && StandardWeights(a)
    requires WithinBudgets(outcomes, GetComponentWeights(a))
    ensures var b := PutAll([], BreakdownEntries(GetComponentWeights(a), outcomes));
      Clamp(SumNormalized(b), 0.0, 100.0) == SumNormalized(b) && 0.0 <= SumNormalized(b) <= 100.0
  {
    var components := GetComponentWeights(a);
    assert DistinctKeys(components);
    StandardWeightsVerify(a);
    NoClampNeeded(components, outcomes);
    BreakdownOnePerComponent(components, outcomes);
    SumWithinBudgets(BreakdownEntries(components, outcomes));
  }

  /** The six results are, in component order, what each component's `calculate` returns on this job and profile. */
  ghost predicate ComponentsCalculated(a: ScoreAggregator, job: Job, profile: Profile,
                                       similarity: Result<real>, jobTerms: Result<seq<string>>, skills: Result<seq<string>>,
                                       search: (string, string) -> bool,
                                       tfidf: ComponentScore, tech: ComponentScore, location: ComponentScore,
                                       remote: ComponentScore, keywords: ComponentScore, contract: ComponentScore)
  {
    && tfidf == TfidfScoring.Calculate(a.tfidf, similarity, jobTerms)
    && TechStackScoring.Calculated(a.techStack, job, skills, tech)
    && LocationScoring.Calculated(a.location, job, location)
    && RemoteScoring.Calculated(a.remote, job, profile.remotePreferred, search, remote)
    && KeywordScoring.Calculated(a.keywords, job, keywords)
    && ContractScoring.Calculated(a.contract, job, contract)
  }

  /** Six outcomes, none of them raised, each what its component's `calculate` returns. */
  ghost predicate Evaluated(a: ScoreAggregator, job: Job, profile: Profile,
                            similarity: Result<real>, jobTerms: Result<seq<string>>, skills: Result<seq<string>>,
                            search: (string, string) -> bool, outcomes: seq<Result<ComponentScore>>)
  {
    && |outcomes| == 6
    && outcomes[0].Success? && outcomes[1].Success? && outcomes[2].Success?
    && outcomes[3].Success? && outcomes[4].Success? && outcomes[5].Success?
    && ComponentsCalculated(a, job, profile, similarity, jobTerms, skills, search,
                            outcomes[0].value, outcomes[1].value, outcomes[2].value,
                            outcomes[3].value, outcomes[4].value, outcomes[5].value)
  }

  /** The first half of `score_job`: each component's `calculate`, in component order. */
  method EvaluateComponents(a: ScoreAggregator, job: Job, profile: Profile,
                            similarity: Result<real>, jobTerms: Result<seq<string>>, skills: Result<seq<string>>,
                            search: (string, string) -> bool)
    returns (outcomes: seq<Result<ComponentScore>>)
    ensures Evaluated(a, job, profile, similarity, jobTerms, skills, search, outcomes)
    ensures StandardWeights(a) ==> WithinBudgets(outcomes, GetComponentWeights(a))
  {
    var tfidf := TfidfScoring.Calculate(a.tfidf, similarity, jobTerms);
    var tech := TechStackScoring.Calculate(a.techStack, job, skills);
    var location := LocationScoring.Calculate(a.location, job);
    var remote := RemoteScoring.Calculate(a.remote, job, profile.remotePreferred, search);
    var keywords := KeywordScoring.Calculate(a.keywords, job);
    var contract := ContractScoring.Calculate(a.contract, job);
    assert ComponentsCalculated(a, job, profile, similarity, jobTerms, skills, search,
                                tfidf, tech, location, remote, keywords, contract);
    outcomes := AllSucceeded(tfidf, tech, location, remote, keywords, contract);
    EvaluatedOf(a, job, profile, similarity, jobTerms, skills, search,
                tfidf, tech, location, remote, keywords, contract, outcomes);
    if StandardWeights(a) {
      EvaluatedWithinBudgets(a, job, profile, similarity, jobTerms, skills, search, outcomes);
    }
  }

  /** The outcomes when no component raised. */
  function AllSucceeded(tfidf: ComponentScore, tech: ComponentScore, location: ComponentScore,
                        remote: ComponentScore, keywords: ComponentScore, contract: ComponentScore)
    : (r: seq<Result<ComponentScore>>)
    ensures |r| == 6 && r[0] == Success(tfidf) && r[1] == Success(tech) && r[2] == Success(location)
    ensures r[3] == Success(remote) && r[4] == Success(keywords) && r[5] == Success(contract)
  {
    [Success(tfidf), Success(tech), Success(location), Success(remote), Success(keywords), Success(contract)]
  }

  lemma EvaluatedOf(a: ScoreAggregator, job: Job, profile: Profile,
                    similarity: Result<real>, jobTerms: Result<seq<string>>, skills: Result<seq<string>>,
                    search: (string, string) -> bool,
                    tfidf: ComponentScore, tech: ComponentScore, location: ComponentScore,
                    remote: ComponentScore, keywords: ComponentScore, contract: ComponentScore,
                    outcomes: seq<Result<ComponentScore>>)
    requires ComponentsCalculated(a, job, profile, similarity, jobTerms, skills, search,
                                  tfidf, tech, location, remote, keywords, contract)
    requires |outcomes| == 6 && outcomes[0] == Success(tfidf) && outcomes[1] == Success(tech)
    requires outcomes[2] == Success(location) && outcomes[3] == Success(remote)
    requires outcomes[4] == Success(keywords) && outcomes[5] == Success(contract)
    ensures Evaluated(a, job, profile, similarity, jobTerms, skills, search, outcomes)
  {
  }

  /** With the standard budgets every evaluated component stays within its own budget. */
  lemma EvaluatedWithinBudgets(a: ScoreAggregator, job: Job, profile: Profile,
                               similarity: Result<real>, jobTerms: Result<seq<string>>, skills: Result<seq<string>>,
                               search: (string, string) -> bool, outcomes: seq<Result<ComponentScore>>)
    requires StandardWeights(a)
    requires Evaluated(a, job, profile, similarity, jobTerms, skills, search, outcomes)
    ensures WithinBudgets(outcomes, GetComponentWeights(a))
  {
    EvaluatedBounded(a, job, profile, similarity, jobTerms, skills, search, outcomes);
    BoundedWithinBudgets(a, outcomes);
  }

  /** What every component's `calculate` promises: its budget, and a score within it when the budget is not negative. */
  predicate Bounded(cs: ComponentScore, maxScore: real) {
    cs.maxScore == maxScore && (maxScore >= 0.0 ==> 0.0 <= cs.score <= maxScore)
  }

  predicate AllBounded(a: ScoreAggregator, outcomes: seq<Result<ComponentScore>>) {
    && |outcomes| == 6
    && outcomes[0].Success? && outcomes[1].Success? && outcomes[2].Success?
    && outcomes[3].Success? && outcomes[4].Success? && outcomes[5].Success?
    && Bounded(outcomes[0].value, a.tfidf.maxScore) && Bounded(outcomes[1].value, a.techStack.maxScore)
    && Bounded(outcomes[2].value, a.location.maxScore) && Bounded(outcomes[3].value, a.remote.maxScore)
    && Bounded(outcomes[4].value, a.keywords.maxScore) && Bounded(outcomes[5].value, a.contract.maxScore)
  }

  lemma EvaluatedBounded(a: ScoreAggregator, job: Job, profile: Profile,
                         similarity: Result<real>, jobTerms: Result<seq<string>>, skills: Result<seq<string>>,
                         search: (string, string) -> bool, outcomes: seq<Result<ComponentScore>>)
    requires Evaluated(a, job, profile, similarity, jobTerms, skills, search, outcomes)
    ensures AllBounded(a, outcomes)
  {
  }

  lemma BoundedWithinBudgets(a: ScoreAggregator, outcomes: seq<Result<ComponentScore>>)
    requires StandardWeights(a) && AllBounded(a, outcomes)
    ensures WithinBudgets(outcomes, GetComponentWeights(a))
  {
  }

  lemma OneEntryPerName(a: ScoreAggregator, outcomes: seq<Result<ComponentScore>>)
    requires |outcomes| == 6
    ensures Keys(PutAll([], BreakdownEntries(GetComponentWeights(a), outcomes))) == ComponentNames
  {
    var components := GetComponentWeights(a);
    assert DistinctKeys(components);
    BreakdownOnePerComponent(components, outcomes);
  }
}
