# Job finder core, in Dafny

The job finder collects job postings from several job boards and processes them in a fixed order. It extracts the tech stack, removes duplicate postings, scores each posting against the user's profile, filters by quality, and ranks the result. This project models that core and proves properties of it.

The scoring engine gives every posting a score out of 100, built from six components:

| component | budget |
|---|---|
| text similarity | 35 |
| tech stack | 25 |
| location | 15 |
| remote work | 15 |
| keywords | 8 |
| contract type | 2 |

Each component maps a raw score into its budget with a clamped linear normalisation. The aggregator isolates a failing component (it scores 0) and clamps the total to [0, 100].

The core around the scorer:

- **Deduplicator.** It keeps the first posting of every id, then drops postings whose (title, company) signature is close to one already kept.
- **Job filter.** It applies up to eight criteria in a fixed order.
- **Pipeline.** It keeps postings above the minimum score and sorts them stably by remote priority, then score, then cuts the list to the top N.
- **Scrapers.** Seven job boards are covered: HackerNews, Indeed, Adzuna, StepStone, XING, RemoteOK and WeWorkRemotely. Their parsers turn a listing, feed entry or API item into a job. Their page loops gather the jobs.
- **Text classifiers.** Remote-type classifiers, the remote detector, whitespace normalisation and the tech-term extractor with its categorisation.
- **Rate limiter.** A per-source rate limiter with an explicit clock.
- **Sheets export.** The rules of the Google Sheets export: the row shape and the colour bands.
- **Settings.** The settings validators.

How the model is written:

- Python dictionaries are insertion-ordered sequences of entries (`Tables`).
- Floats are reals. Times are seconds.
- Exceptions are `Option`/`Result` values.
- The network is a function parameter. It returns what a request gave, or that it raised.
- Foreign libraries are function parameters: the regular-expression engine where a pattern comes from the rule files, `SequenceMatcher`, the TF-IDF matcher, BeautifulSoup, feedparser, FlashText, `html.unescape`, date parsing and `Job.generate_id`.
- Code that loops and updates state in the source is a method with loop invariants, proved equal to a specification function. The properties the source promises are lemmas about that function.
- The rate limiter is a class whose methods update its per-source state.

## Model

| member | source | states |
|---|---|---|
| ScoringBase.NewComponentScore | scorers/base.py:28-34 | the stored score lies in [0, max_score], equals the computed score when that is already inside, is 0 below and max_score above; a missing details map becomes empty and the other fields are kept |
| ScoringBase.ErrorScore | scorers/components/contract_component.py:106-114 | a component that raised scores 0 with raw score 0, keeps its max_score, explains "Error: <message>" and has no details |
| ScoringBase.NormalizeScore | scorers/base.py:72-111 | the result lies in [0, max_score]; an empty raw interval gives half the budget; a raw score at or below raw_min gives 0 and at or above raw_max gives max_score |
| ScoringBase.NormalizeLinear | scorers/base.py:107-108 | inside the raw interval the result is the linear interpolation (raw - min) / (max - min) * max_score |
| ScoringBase.NormalizeClamped | scorers/base.py:100-111 | on a non-empty interval the result is the linear interpolation of the clamped raw score, so the final clamp never changes it |
| ScoringBase.NormalizeMonotone | scorers/base.py:72-111 | a higher raw score never normalises to a lower score |
| ScoringBase.NormalizeRemoteExamples | scorers/base.py:91-98 | the documented examples: with max_score 15 on [-3, 5], raw 5 gives 15, raw -3 gives 0, raw 0 gives 5.625 |
| ScoringBase.RuleEntries | scorers/components/contract_component.py:56-58 | one dictionary assignment per rule, in rule order, keyed by the lower-cased name and carrying its score |
| ScoringBase.AddRules | scorers/components/contract_component.py:52-61 | the loop leaves the table equal to the rule assignments applied in order to the starting table |
| ScoringBase.RuleEntriesLower | scorers/components/contract_component.py:57 | every key the rules assign is lower case |
| Aggregator.GetComponentWeights | scorers/aggregator.py:136-146 | the keys are the six component names in construction order |
| Aggregator.StandardValues | scorers/aggregator.py:38-45 | the budgets of a constructed aggregator are 35, 25, 15, 15, 8 and 2, in component order |
| Aggregator.StandardBudgetsSum | scorers/aggregator.py:38-50 | the six budgets add up to 100 |
| Aggregator.NewAggregator | scorers/aggregator.py:33-50 | construction succeeds exactly when every remote pattern compiles; on success the budgets are the standard ones and each component's table is built from its rules |
| Aggregator.VerifyTotalWeight | scorers/aggregator.py:148-164 | true exactly when the budgets add up to 100 within 0.01 |
| Aggregator.StandardWeightsVerify | scorers/aggregator.py:148-164 | a constructed aggregator's budgets add up to exactly 100, so the weight check passes |
| Aggregator.BreakdownEntries | scorers/aggregator.py:69-91 | one breakdown entry per component, under the component's name, in component order |
| Aggregator.Lines | scorers/aggregator.py:81-91 | one explanation line per component, in component order |
| Aggregator.SumBreakdown | scorers/aggregator.py:94-97 | the loop's total is the sum of the normalised scores of the breakdown |
| Aggregator.Aggregate | scorers/aggregator.py:63-134 | when nothing outside the per-component guard raised, the breakdown holds each component's entry (zeros for one that raised), the score is the clamped sum and the explanation joins the lines with newlines; otherwise the all-zero fallback result |
| Aggregator.BreakdownOnePerComponent | scorers/aggregator.py:69-91 | with distinct names no breakdown entry overwrites another, so the breakdown has exactly the component names |
| Aggregator.SumWithinBudgets | scorers/aggregator.py:93-100 | when every entry is within its budget the sum is between 0 and the sum of the budgets |
| Aggregator.NoClampNeeded | scorers/aggregator.py:99-100 | when every component stays in budget and the budgets add up to at most 100, the clamp to [0, 100] never changes the sum |
| Aggregator.SumMaxIsBudgets | scorers/aggregator.py:75-90 | the max fields of the breakdown add up to the component budgets |
| Aggregator.ScoreJob | scorers/aggregator.py:52-134 | an outer fault gives the all-zero fallback with score 0; otherwise the six outcomes are each the result its component's `calculate` specifies, the breakdown holds one entry per component name built from those outcomes, the explanation joins their lines with newlines, and the score is the clamped sum; with the standard budgets that sum already lies in [0, 100] |
| Aggregator.EvaluateComponents | scorers/aggregator.py:69-79 | six outcomes in component order (TF-IDF, tech stack, location, remote, keywords, contract), every one a success and each exactly the result its component's `calculate` specifies; with the standard budgets each stays within its budget |
| Aggregator.EvaluatedBounded | scorers/aggregator.py:69-79 | every evaluated component scores between 0 and its own maximum |
| Aggregator.EvaluatedWithinBudgets | scorers/aggregator.py:38-45 | with the standard budgets, the six evaluated outcomes are each within the constructed aggregator's budget for that component |
| Aggregator.OneEntryPerName | scorers/aggregator.py:69-91 | for six outcomes the breakdown keys are exactly the six component names |
| ContractScoring.BuildContractScores | scorers/components/contract_component.py:42-61 | the table is the rule assignments applied in order: keys distinct and lower case, and each key holds the score of the last rule naming it |
| ContractScoring.FirstMatch | scorers/components/contract_component.py:137-139 | the index found is the first table entry whose name occurs in the text; no earlier entry occurs |
| ContractScoring.MatchContractType | scorers/components/contract_component.py:116-142 | the first table entry whose name occurs in the lower-cased "contract_type title description" gives the score and name; with none, score 0 and "standard contract (unspecified)" |
| ContractScoring.Tone | scorers/components/contract_component.py:155 | "favorable" exactly when the raw score is positive, "unfavorable" exactly when negative, "neutral" exactly when zero |
| ContractScoring.Calculate | scorers/components/contract_component.py:63-104 | the score lies in [0, max_score] and is the normalisation of the matched raw score on [-5, 2]; details carry the matched type and the contract field (empty when missing); the explanation names the type and tone |
| ContractScoring.ContractNormalizationPoints | scorers/components/contract_component.py:39-90 | raw 2 gives the whole budget, raw -5 gives 0, an unmatched contract (raw 0) gives 5/7 of the budget |
| KeywordScoring.BuildKeywords | scorers/components/keyword_component.py:40-70 | the table is the urgency, positive and negative assignments applied in order: keys distinct and lower case, each holding the score of its last assignment |
| KeywordScoring.MatchedInIff | scorers/components/keyword_component.py:91-94 | an entry is matched exactly when it is in the table and its phrase occurs in the text |
| KeywordScoring.MatchedInDistinct | scorers/components/keyword_component.py:89-94 | the matched keywords have distinct keys, as the dict `matched_keywords` does |
| KeywordScoring.NestedPhrasesBothCount | scorers/components/keyword_component.py:91-94 | a phrase and a phrase inside it both count when the longer one occurs |
| KeywordScoring.WithSign | scorers/components/keyword_component.py:144-145 | the positives (or negatives) are the matched entries with a positive (or negative) score, in order |
| KeywordScoring.KeywordExplanationBound | scorers/components/keyword_component.py:149-157 | the explanation shows the scores of at most the first three positives and the first two negatives |
| KeywordScoring.ZeroMatchesExplanation | scorers/components/keyword_component.py:149-157 | when every matched keyword scores 0 the explanation is the bare "." |
| KeywordScoring.Calculate | scorers/components/keyword_component.py:72-111 | the raw score is the sum of the scores of the keywords found in the lower-cased title and description; the score is that clamped to [0, max_score]; details list the matches and the table size |
| KeywordScoring.NoMatchGivesZero | scorers/components/keyword_component.py:133-134 | with no keyword in the text nothing matches, the raw and final scores are 0 and the explanation is "No significant keywords matched." |
| TfidfScoring.Level | scorers/components/tfidf_component.py:92-101 | the similarity bands: at least 0.7 "Very high", 0.5 "High", 0.3 "Medium", 0.15 "Low", below that "Very low" |
| TfidfScoring.TfidfExplanation | scorers/components/tfidf_component.py:103-109 | the explanation shows the similarity as a percentage and ends with the strong-match sentence exactly when the similarity is at least 0.5 |
| TfidfScoring.Calculate | scorers/components/tfidf_component.py:30-80 | a failing matcher call gives the error score; otherwise the raw score is the similarity, the score is similarity * max_score kept in [0, max_score], and details carry the similarity and the first ten terms (all of them when there are fewer) |
| TfidfScoring.SimilarityScalesExactly | scorers/components/tfidf_component.py:48-52 | for a similarity in [0, 1] the score is exactly similarity * max_score |
| LocationScoring.AddLowered | scorers/components/location_component.py:94-95 | adding a group's names leaves the set grown by exactly their lower-cased forms |
| LocationScoring.BuildGermanyTerms | scorers/components/location_component.py:87-105 | the Germany terms are the lower-cased country names, cities and regions, and every one of them is in the set |
| LocationScoring.BuildNeighborTerms | scorers/components/location_component.py:117-142 | the neighbour terms are the lower-cased country names and cities of Austria, Switzerland and the Netherlands |
| LocationScoring.NewLocationComponent | scorers/components/location_component.py:30-115 | the component holds the four lower-cased term sets built from the synonyms |
| LocationScoring.DefaultNeighborsEmpty | scorers/components/location_component.py:75-85 | the fallback synonyms name no neighbouring country, so the neighbour set is empty |
| LocationScoring.MatchesAny | scorers/components/location_component.py:221-235 | true exactly when some term occurs in the text |
| LocationScoring.Tier | scorers/components/location_component.py:165-179 | Germany 15 first, then a neighbouring country 8, then Europe 8, else "Other" 3 |
| LocationScoring.RemoteBonus | scorers/components/location_component.py:181-185 | the bonus is at most 5 and never lifts the score past max_score; no bonus without remote or at the cap; otherwise 5 or exactly up to the cap |
| LocationScoring.Calculate | scorers/components/location_component.py:144-219 | score and raw score are the tier plus the remote bonus capped at max_score, computed from term matches in the lower-cased "location remote_type"; details carry every flag and the explanation mentions the bonus only when it is positive |
| LocationScoring.LocationBounds | scorers/components/location_component.py:165-188 | the final score lies between min(3, max_score) and max_score |
| LocationScoring.GermanyRemoteCapped | scorers/components/location_component.py:168-188 | with a budget of at most 15 a German location earns no remote bonus and scores the whole budget |
| LocationScoring.OtherAndRemoteAlone | scorers/components/location_component.py:177-188 | an unknown location scores 3, and 8 when it is remote |
| LocationScoring.DefaultGermanyMatchesSweden | scorers/components/location_component.py:221-235 | substring matching with the fallback term "de" counts "sweden" as Germany |
| RemoteScoring.GroupEntries | scorers/components/remote_component.py:56-69 | one entry per configured remote type, in order, with its score and patterns |
| RemoteScoring.BuildPatterns | scorers/components/remote_component.py:42-72 | building succeeds exactly when every pattern compiles, giving the table of groups; otherwise the error names a pattern that does not compile |
| RemoteScoring.ClassifyIndex | scorers/components/remote_component.py:156-164 | the index found is the first type in the match order that has a matching pattern; no earlier type matches |
| RemoteScoring.MatchPatterns | scorers/components/remote_component.py:139-167 | the first of onsite_required, hybrid_2days, hybrid_1day, full_remote with a pattern found in "remote_type description" gives the score and name; otherwise 0 and "unknown (assumed hybrid)" |
| RemoteScoring.OnlyOrderedGroupsMatter | scorers/components/remote_component.py:154-158 | groups not in the match order never influence the result |
| RemoteScoring.Tone | scorers/components/remote_component.py:189 | "positive" exactly when the raw score is positive, "negative" exactly when negative, "neutral" exactly when zero |
| RemoteScoring.Calculate | scorers/components/remote_component.py:74-127 | the score lies in [0, max_score] and normalises the raw score on [-3, 5]; the raw score is the matched one when the profile prefers remote and 0 otherwise, with the matching name, details and explanation |
| RemoteScoring.NotPreferredIsThreeEighths | scorers/components/remote_component.py:98-108 | a profile that does not prefer remote work gets 3/8 of the budget |
| TechStackScoring.BuildTechScores | scorers/components/tech_stack_component.py:40-70 | the table is the high, medium and negative assignments applied in order: keys distinct and lower case, each holding the score of its last assignment |
| TechStackScoring.NegativeGroupWins | scorers/components/tech_stack_component.py:64-67 | a term listed as negative keeps its negative score whatever the other groups say |
| TechStackScoring.MediumBeatsHigh | scorers/components/tech_stack_component.py:59-62 | a term listed in the medium group and not as negative keeps its medium score |
| TechStackScoring.SetPointsRemove | scorers/components/tech_stack_component.py:97-101 | the sum over a set is one member's points plus the sum over the rest, whatever the iteration order |
| TechStackScoring.UnknownTechAddsNothing | scorers/components/tech_stack_component.py:98 | a technology that is not in the table adds nothing |
| TechStackScoring.SetPointsNonPositive | scorers/components/tech_stack_component.py:97-104 | when no technology scores positively the raw score is at most 0 |
| TechStackScoring.MatchedAdd | scorers/components/tech_stack_component.py:98-101 | a technology joins the matched map exactly when the table knows it |
| TechStackScoring.SumPoints | scorers/components/tech_stack_component.py:94-101 | the loop's raw score is the sum of the table points of the job's technologies, and the matched map holds the known ones |
| TechStackScoring.Calculate | scorers/components/tech_stack_component.py:72-129 | a missing tech stack or a failing skills lookup gives the error score; otherwise the raw score sums the lower-cased technologies' points and the score clamps it to [0, max_score] |
| Sorting.SortDesc | main.py:259-262 | the sorted list is a permutation of the input (same multiset, same length) |
| Sorting.SortDescSorted | main.py:259-262 | the result is in descending key order: no element has a greater key than one before it |
| Sorting.SortDescStable | main.py:259-262 | elements with equal keys keep their input order, as Python's stable sort with reverse=True does |
| Sorting.InsertSorted | main.py:259-262 | inserting one element into a descending list keeps it descending |
| Sorting.InsertWithKey | main.py:259-262 | the inserted element goes after every element already there with the same key |
| Pipeline.RemotePriority | main.py:245-256 | the priority is 1, 2 or 3 |
| Pipeline.RemotePriorityCases | main.py:245-256 | a lower-cased remote_type with "remote" (or another full-remote marker) ranks 3; 2 exactly when it says "hybrid" and no full-remote marker; 1 exactly when it says neither |
| Pipeline.HybridRemoteRanksFirst | main.py:245-256 | "Hybrid Remote" ranks 3, because the full-remote markers are checked before "hybrid" |
| Pipeline.TopJobsMembers | main.py:236-242 | every top job is one of the input jobs and has a score of at least the profile's minimum |
| Pipeline.TopJobsRanking | main.py:233-264 | the top jobs are in descending (priority, score) order, at most top_n of them, no passing job left out outranks one kept, and with top_n at least the passing count every passing job is kept |
| Pipeline.TopJobsStable | main.py:259-262 | jobs with equal (priority, score) stay in their input order |
| Pipeline.Enriched | main.py:193-200 | only the tech stack may change; a job with a tech stack is unchanged; a changed job's tech stack is the non-empty extraction from "title description" |
| Pipeline.ExtractTechStack | main.py:189-204 | the loop enriches each job in place, in order, and changes nothing else |
| Pipeline.ScoreJobs | main.py:219-231 | the loop attaches to each job, in order, the aggregator's score for it |
| Pipeline.Run | main.py:87-139 | the method performs the steps of the pipeline in order, returning [] where scraping, deduplication or quality filtering leaves nothing |
| Pipeline.RunProperties | main.py:108-187 | the run returns a list in which every job meets the minimum score and passes the quality filter (length 50, age 14 days, profile locations, no senior titles), in descending (priority, score) order and at most top_n long |
| Pipeline.RunWithinScored | main.py:113-133 | every job returned is one of the scored unique jobs |
| Pipeline.RunJobsComeFromScraped | main.py:106-133 | every job returned is a scraped job with its tech stack enriched and its score attached |
| Sheets.HeaderPositions | integrations/google_sheets.py:37-52 | there are 13 distinct headers, with Title, Company, Location, URL, Source, Score and Breakdown at the positions the row uses |
| Sheets.ColorForScore | integrations/google_sheets.py:368-386 | green exactly when the score is at least 80, yellow exactly when it is in [60, 80), white exactly below 60 |
| Sheets.ColorBandsMonotone | integrations/google_sheets.py:378-386 | a higher score never gets a lower colour band |
| Sheets.BreakdownComponents | integrations/google_sheets.py:266-269 | the loop yields one "name:normalized" text per breakdown entry, in breakdown order |
| Sheets.BreakdownNumbers | integrations/google_sheets.py:266-270 | the breakdown cell shows exactly one number per component |
| Sheets.JobToRow | integrations/google_sheets.py:242-295 | the row has one cell per header: date, title, company, location, remote type and contract (empty when missing), tech stack joined by ", ", the score and breakdown only when the job id has a score, then URL, source and two empty cells |
| Sheets.WriteJobsStart | integrations/google_sheets.py:128-134 | writing proceeds exactly when the integration is enabled and there are jobs; being disabled is reported first |
| Sheets.WriteJobs | integrations/google_sheets.py:111-180 | the result is true exactly when the integration is enabled, there are jobs and the sheet calls succeed |
| Config.ValidateLogLevel | config/settings.py:113-120 | accepted exactly when the upper-cased value is one of DEBUG, INFO, WARNING, ERROR, CRITICAL, and the upper-cased value is stored |
| Config.ValidateMinScore | config/settings.py:122-127 | accepted exactly when 0 <= v <= 100, unchanged |
| Config.LogLevelExamples | config/settings.py:113-120 | "debug" becomes "DEBUG", "Warning" becomes "WARNING", "INVALID" and "" are rejected |
| Config.EnvFlag | config/settings.py:86-97 | a flag is true exactly when the variable (or the default when unset) is the four letters t, r, u, e in any mix of upper and lower case; any other value, such as "1" or "yes", is false |
| Config.EnvFlagExamples | config/settings.py:86-97 | "TRUE" and "True" are true, "1" and "yes" are false, an unset variable takes its default |
| Config.NewSettingsProperties | config/settings.py:77-127 | construction fails on an unparsable number; otherwise explicit overrides win over the environment, and it succeeds exactly when the resulting log level and min score pass their validators |
| Config.Defaults | config/settings.py:42-101 | with no environment and no overrides the settings are INFO, cache on for 24 hours, min score 60, dev mode and advanced NLP off, 20 results |
| Config.GetScrapersConfig | config/settings.py:200-216 | the scraper config mirrors the timeout, retry and delay settings and carries three user agents |
| ScraperBase.NormalizeRemoteType | scrapers/base.py:166-175 | the label is one of the four; "Full Remote" exactly when a full-remote phrase occurs, "Hybrid" exactly when none does and "hybrid" or "partial" occurs, "Remote" exactly when only "remote" occurs, else "On-site" |
| ScraperBase.RemoteLabelsNeedRemote | scrapers/base.py:168-173 | a Full Remote or Remote label needs the word "remote" in the text |
| ScraperBase.NormalizeRemoteTypeIdempotent | scrapers/base.py:166-175 | normalising a label again gives the same label |
| ScraperBase.NormalizeRemoteTypeExamples | scrapers/base.py:166-175 | "Partial Remote" is Hybrid, "100% remote" and "Fully Remote" are Full Remote, "Office" is On-site |
| RateLimiting.MinDelaySleep | utils/rate_limiter.py:70-75 | the first delay is never negative; a request sooner than min_delay after the last one sleeps until exactly min_delay has passed; otherwise it does not sleep |
| RateLimiting.StepProperties | utils/rate_limiter.py:60-98 | after a wait the last request time is the clock after sleeping, at least min_delay after the previous request; without a per-minute limit the count grows by one; with a limit m >= 1 the count stays between 1 and m |
| RateLimiting.FullWindowWaits | utils/rate_limiter.py:86-94 | a source that used up its window sleeps until the window's minute is over and starts a new window with count 1 |
| RateLimiting.UnlimitedCountsWaits | utils/rate_limiter.py:96-98 | without a per-minute limit the count equals the number of waits |
| RateLimiting.LimitedCountBounded | utils/rate_limiter.py:78-98 | with a limit m >= 1 the count never exceeds m whatever the clock readings |
| RateLimiting.RateLimiter.constructor | utils/rate_limiter.py:29-44 | the limiter keeps its settings and starts with no per-source state |
| RateLimiting.RateLimiter.GetState | utils/rate_limiter.py:46-58 | an unseen source gets a fresh state; every other source is left as it was |
| RateLimiting.RateLimiter.Wait | utils/rate_limiter.py:60-98 | only the waiting source's state changes, to the result of one step from its previous (or fresh) state, and the delay slept is returned |
| RateLimiting.RateLimiter.Reset | utils/rate_limiter.py:144-154 | no source clears every state; a named source is removed and the others are kept |
| RateLimiting.RateLimiter.GetStats | utils/rate_limiter.py:156-179 | an unknown source reports zeros and no times; a known one reports its count as both totals, its last request and its window start |
| Dedup.IdsMember | processors/deduplicator.py:89-95 | an id is among the ids seen exactly when some job carries it |
| Dedup.ExactPassIds | processors/deduplicator.py:79-97 | the exact pass keeps every id that occurs |
| Dedup.ExactPassDistinctIds | processors/deduplicator.py:79-97 | after the exact pass no two jobs share an id |
| Dedup.RemoveExactDuplicates | processors/deduplicator.py:79-97 | the loop over `seen_ids` returns the exact pass: each job whose id was not seen before, in input order |
| Dedup.ExactPassDistinct | processors/deduplicator.py:89-95 | a list with distinct ids passes unchanged |
| Dedup.ExactPassSubseq | processors/deduplicator.py:89-95 | the exact pass is an order-preserving subsequence of its input |
| Dedup.ExactPassKeepsFirst | processors/deduplicator.py:92-94 | every job kept is the first job in the input with its id |
| Dedup.ExactPassCount | processors/deduplicator.py:89-95 | the exact pass keeps as many jobs as there are distinct ids |
| Dedup.ExactPassFirstIsFirst | processors/deduplicator.py:92-94 | a non-empty input's first job is kept first |
| Dedup.SignatureSimilarityBounds | processors/deduplicator.py:168-195 | for ratios in [0, 1], 0.7 * title ratio + 0.3 * company ratio lies in [0, 1] and is 1 exactly when both ratios are 1 |
| Dedup.FirstSimilar | processors/deduplicator.py:130-135 | the scan stops at the first kept signature whose similarity reaches the threshold; no earlier one does |
| Dedup.FirstIndexOf | processors/deduplicator.py:138-144 | the description check looks at the first kept job whose signature equals the similar one |
| Dedup.IsDuplicateWithoutDescription | processors/deduplicator.py:130-157 | without the description gate a job is a duplicate exactly when some kept job's signature reaches the title/company threshold |
| Dedup.DescriptionOnlyNarrows | processors/deduplicator.py:136-150 | with the description gate a job counts as a duplicate only if it would without it |
| Dedup.ScanKept | processors/deduplicator.py:127-160 | the inner loop with its breaks decides "duplicate" exactly as the specification of one step does |
| Dedup.RemoveSimilarDuplicates | processors/deduplicator.py:99-166 | the loop returns the fuzzy pass: each job in order, kept unless it is a duplicate of a job kept before it |
| Dedup.FuzzyPassSubseq | processors/deduplicator.py:162-164 | the fuzzy pass is an order-preserving subsequence of its input |
| Dedup.FuzzyPassStable | processors/deduplicator.py:127-164 | no job of the fuzzy pass's output is a duplicate of the jobs kept before it |
| Dedup.StableFixed | processors/deduplicator.py:127-164 | a list in which no job is a duplicate of the ones before it passes unchanged |
| Dedup.FuzzyPassIdempotent | processors/deduplicator.py:99-166 | running the fuzzy pass twice gives the same list as running it once |
| Dedup.FuzzyPassPairwise | processors/deduplicator.py:127-157 | without the description gate, every two jobs kept are below the title/company threshold |
| Dedup.FuzzyPassPrefix | processors/deduplicator.py:162-164 | a non-empty input's first job is kept first |
| Dedup.RemoveDuplicates | processors/deduplicator.py:36-77 | the method returns the exact pass followed by the fuzzy pass, a subsequence of the input with distinct ids |
| Dedup.DeduplicatedProperties | processors/deduplicator.py:36-77 | the result is an order-preserving subsequence of the input with distinct ids |
| Dedup.DeduplicatedIdempotent | processors/deduplicator.py:36-77 | deduplicating twice gives the same list as once |
| Dedup.DeduplicatedKeepsFirst | processors/deduplicator.py:36-77 | a non-empty input keeps its first job first |
| Dedup.FindDuplicates | processors/deduplicator.py:211-242 | the nested loops list the pairs (i, j) with i < j whose signature similarity reaches the threshold (the default when none is given), in (i, j) order |
| Dedup.RowMembers | processors/deduplicator.py:232-240 | one row lists exactly the later jobs similar enough to job i |
| Dedup.PairsMembers | processors/deduplicator.py:230-240 | a pair is reported exactly when it is (job i, job j) with i < j and their similarity reaches the threshold |
| Dedup.GetDeduplicationStats | processors/deduplicator.py:244-274 | exact duplicates = total - distinct ids (= total - exact pass size); similar pairs = the number of reported pairs; estimated unique = total - exact - pairs |
| Dedup.EstimatedUniqueCanBeNegative | processors/deduplicator.py:266 | three copies of one posting give 2 exact duplicates and 3 similar pairs, so the estimate is -2 |
| JobFiltering.FilterByLocation | processors/filter.py:133-164 | the loop keeps, in order, exactly the jobs whose lower-cased location or remote type contains one of the lower-cased locations |
| JobFiltering.FilterByDescriptionLength | processors/filter.py:166-184 | a job is kept exactly when its description has at least the minimum length; order is kept |
| JobFiltering.FilterByAge | processors/filter.py:186-206 | a job is kept exactly when it was posted no more than max_age_days before now; order is kept |
| JobFiltering.AgeMonotone | processors/filter.py:201-206 | a job kept with a shorter age limit is also kept with a longer one |
| JobFiltering.FilterByKeywords | processors/filter.py:208-241 | with must_match a job is kept exactly when some keyword occurs in its lower-cased title and description; without, exactly when none does |
| JobFiltering.KeywordFiltersPartition | processors/filter.py:226-239 | the role filter and the exclude filter with the same keywords split the jobs between them |
| JobFiltering.FilterByRemote | processors/filter.py:243-269 | the loop keeps, in order, exactly the jobs with a remote keyword in their remote type or location |
| JobFiltering.IsRemoteReduced | processors/filter.py:253-267 | a job is remote exactly when "remote" or "work from home" occurs in its lower-cased remote type or location |
| JobFiltering.FilterByContractType | processors/filter.py:271-300 | the loop keeps, in order, exactly the jobs without a contract type and those whose lower-cased contract type contains one of the given types |
| JobFiltering.MissingContractKept | processors/filter.py:288-290 | a job without a contract type always passes the contract filter |
| JobFiltering.FilterBySeniority | processors/filter.py:302-327 | the loop keeps, in order, exactly the jobs whose title contains no seniority term |
| JobFiltering.HasSeniorReduced | processors/filter.py:312-325 | a title is senior exactly when its lower-cased form contains senior, sr, lead, principal, staff, architect or head of, as substrings |
| JobFiltering.Apply | processors/filter.py:22-131 | the method returns the specification of `apply`: the input when there are no criteria, an error for an empty job list with criteria, else the filters run in their fixed order |
| JobFiltering.ApplyFirstThree | processors/filter.py:50-78 | the location, length and age filters each run only when their criterion is truthy |
| JobFiltering.ApplyLastFive | processors/filter.py:80-124 | the role, exclude, seniority, remote and contract filters each run only when their criterion is truthy |
| JobFiltering.FirstThreeProperties | processors/filter.py:50-78 | after the first three filters the jobs are an order-preserving subsequence, kept exactly when they pass every active one |
| JobFiltering.LastFiveProperties | processors/filter.py:80-124 | after the last five filters the jobs are an order-preserving subsequence, kept exactly when they pass every active one |
| JobFiltering.AppliedProperties | processors/filter.py:22-131 | `apply` fails exactly when there are criteria and no jobs (the retained-percentage division by zero); otherwise the result is an order-preserving subsequence holding exactly the jobs that pass every active filter |
| JobFiltering.AppliedIdempotent | processors/filter.py:22-131 | filtering a non-empty result again changes nothing |
| JobFiltering.GetFilterStats | processors/filter.py:329-389 | the method returns the statistics the specification gives |
| JobFiltering.ChainedSteps | processors/filter.py:353-386 | the recorded filter steps chain: each starts where the previous ended and never grows the count |
| JobFiltering.FilterStatsChain | processors/filter.py:344-389 | the totals are the input size, the recorded steps run from it to the estimate, the estimate is the size after the location, length and age filters, and the retention rate lies in [0, 1] |
| RemoteDetector.CompilePatterns | utils/remote_detector.py:68-77 | the loop keeps, in order, exactly the patterns that compile, skipping the others |
| RemoteDetector.CompiledEntries | utils/remote_detector.py:64-82 | one group per configured remote type, in order, holding the patterns that compile |
| RemoteDetector.LoadPatterns | utils/remote_detector.py:50-88 | a rules file that fails to load gives no groups; otherwise the table of compiled groups |
| RemoteDetector.LoadedPatternsValid | utils/remote_detector.py:68-77 | every pattern in a loaded group compiles |
| RemoteDetector.OppositeOfScorerOrder | utils/remote_detector.py:209-215 | the detector checks the scorer's four groups in the reverse order |
| RemoteDetector.MatchPatterns | utils/remote_detector.py:196-227 | no label exactly when no group in full_remote, hybrid_flexible, hybrid_1day, hybrid_2days, onsite_required matches; "Remote" exactly when full_remote matches; "Onsite" exactly when only onsite_required does |
| RemoteDetector.FallbackDetection | utils/remote_detector.py:229-265 | "Hybrid" exactly when a hybrid keyword occurs; "Remote" exactly when a remote keyword occurs without one; "Onsite" exactly when neither occurs |
| RemoteDetector.RemoteMoeglichIsHybrid | utils/remote_detector.py:242-258 | "remote möglich" contains "remote" but is a hybrid keyword, so it gives Hybrid |
| RemoteDetector.StepStoneMarker | utils/remote_detector.py:145-155 | "teilweise" gives Hybrid, else "homeoffice" or "remote" gives Remote, else nothing |
| RemoteDetector.DetectStepStoneHtml | utils/remote_detector.py:134-168 | the work-from-home element decides when it names a type; otherwise the work-type metadata element does; the result is Hybrid, Remote or nothing |
| RemoteDetector.DetectXingHtml | utils/remote_detector.py:170-194 | "hybrid" gives Hybrid; else "keine kernarbeitszeit" with "homeoffice", or "ortsunabhängig", gives Remote; else nothing |
| RemoteDetector.HtmlResult | utils/remote_detector.py:111-121 | an HTML label is found only for an element with a StepStone or XING source, and is Hybrid or Remote |
| RemoteDetector.Detect | utils/remote_detector.py:90-132 | the result is always "Remote", "Hybrid" or "Onsite" |
| RemoteDetector.DetectPriority | utils/remote_detector.py:111-132 | an HTML label wins; without one a pattern match; without that the keyword fallback on "title description location" |
| RemoteDetector.NoGroupsFallsBack | utils/remote_detector.py:123-132 | with no loaded groups detection falls through to the keyword fallback |
| Extractors.WordsOfJoin | extractors/base.py:39 | splitting words joined by single spaces gives the words back |
| Extractors.ConcatWords | extractors/base.py:39 | the words of a text are its non-whitespace characters, in order |
| Extractors.WordsEmpty | extractors/base.py:39 | a text has no words exactly when it is all whitespace |
| Extractors.PreprocessTextShape | extractors/base.py:28-41 | the result has no leading, trailing or doubled whitespace, keeps the non-whitespace characters in order, and is empty exactly when the text is all whitespace |
| Extractors.PreprocessTextIdempotent | extractors/base.py:28-41 | the result has the same words as the text, and preprocessing it again changes nothing |
| TechExtraction.Variants | extractors/tech_extractor.py:76-82 | a term is registered as itself, in lower case and in upper case, each mapping back to the term, and nothing else |
| TechExtraction.TermKeywordsMembers | extractors/tech_extractor.py:74-82 | a category registers exactly the variants of its terms |
| TechExtraction.DictKeywordsMembers | extractors/tech_extractor.py:70-82 | the dictionary registers exactly the variants of the terms of its categories |
| TechExtraction.RegisterTerm | extractors/tech_extractor.py:76-82 | the processor's keywords grow by the term's variants |
| TechExtraction.RegisterCategory | extractors/tech_extractor.py:74-82 | the inner loop adds the variants of every term of one category, in order |
| TechExtraction.BuildKeywordProcessor | extractors/tech_extractor.py:70-82 | the nested loops register exactly the dictionary's keywords, category by category |
| TechExtraction.ProcessorEntries | extractors/tech_extractor.py:38 | the case-insensitive processor keys each keyword by its lower-case form, keeping its clean name |
| TechExtraction.TermRegistered | extractors/tech_extractor.py:70-82 | every dictionary term is in the processor under its lower-case form |
| TechExtraction.EntriesAreTerms | extractors/tech_extractor.py:70-82 | every processor entry maps a lower-cased term back to a dictionary term |
| TechExtraction.ProcessorFindsTerms | extractors/tech_extractor.py:38-41 | looking a term up case-insensitively yields a dictionary term equal to it up to case |
| TechExtraction.CanonicalNames | extractors/tech_extractor.py:119-126 | the six special patterns have six distinct canonical names, and every name has a pattern |
| TechExtraction.SpecialCases | extractors/tech_extractor.py:106-134 | the result holds only canonical names, and a pattern's name is in it exactly when the pattern as written occurs in the text; for C#, C++ and F# that includes the trailing word boundary, so they are found only when a word character follows |
| TechExtraction.ExtractSpecialCases | extractors/tech_extractor.py:116-134 | the loop over the patterns as written collects exactly the special cases |
| TechExtraction.CSharpAsWrittenNeedsWordAfter | extractors/tech_extractor.py:93 | the pattern as written matches only when a word character follows the `#` |
| TechExtraction.CSharpMissedAsWritten | extractors/tech_extractor.py:93 | the pattern as written does not find "C#" in the text "C#", so the special cases of "C#" leave out C# |
| TechExtraction.SymbolTermFound | extractors/tech_extractor.py:93-99 | with the trailing word boundary dropped, C#, C++ and F# are found wherever they start a word, whatever follows |
| TechExtraction.DotNetFound | extractors/tech_extractor.py:97 | ".NET" is found wherever it occurs |
| TechExtraction.Extract | extractors/tech_extractor.py:136-163 | nothing for an empty text; otherwise exactly the processor's hits and the special cases, with the patterns as written, in the preprocessed text |
| TechExtraction.ExtractKeepsSpecialCases | extractors/tech_extractor.py:153-159 | a special pattern that, as written, occurs in the preprocessed text puts its canonical name in the result |
| TechExtraction.FirstCategory | extractors/tech_extractor.py:184-189 | the first category whose terms equal the term up to case, or none when no category has it |
| TechExtraction.FindCategory | extractors/tech_extractor.py:183-192 | the inner loop with its break finds the first matching category |
| TechExtraction.CategoryName | extractors/tech_extractor.py:182-192 | a term goes to its first matching category, else to "other" |
| TechExtraction.CategoryKeys | extractors/tech_extractor.py:178-179 | the result keys are the dictionary's categories in order, plus "other" |
| TechExtraction.CategoryKeysDistinct | extractors/tech_extractor.py:178-179 | the result keys are distinct |
| TechExtraction.Categorized | extractors/tech_extractor.py:177-192 | each category's set holds exactly the terms that belong in it |
| TechExtraction.EmptyCategorized | extractors/tech_extractor.py:178-179 | the initial dictionary is every category with an empty set |
| TechExtraction.CategorizedAdd | extractors/tech_extractor.py:182-192 | adding one term adds it to its own category's set only |
| TechExtraction.Categorize | extractors/tech_extractor.py:177-192 | the loop over the terms builds the categorised dictionary |
| TechExtraction.RemoveEmpty | extractors/tech_extractor.py:195 | the categories with an empty set are removed, order kept |
| TechExtraction.ExtractByCategory | extractors/tech_extractor.py:165-195 | computes the categorised, non-empty grouping of the terms |
| TechExtraction.ByCategoryProperties | extractors/tech_extractor.py:165-195 | no empty set; each set is exactly the terms assigned to its category; sets are disjoint; keys distinct; every term is in some set and only terms are |
| TechExtraction.ExtractByCategoryUnion | extractors/tech_extractor.py:165-195 | the union of the grouping is exactly `extract`'s result, and an empty text gives an empty grouping |
| HackerNews.ParseFirstLine | scrapers/hackernews.py:275-313 | a company is always produced; no title exactly when the line has no `\|`, fewer than two `-` and no `:`, and then the company is the first 50 characters of the line |
| HackerNews.PipeFormat | scrapers/hackernews.py:294-297 | "Company \| Title \| …" gives the stripped company and title |
| HackerNews.DashFormat | scrapers/hackernews.py:299-302 | "Company - Title - …" without a pipe gives the stripped company and title |
| HackerNews.ColonFormat | scrapers/hackernews.py:304-308 | "Company: Title" without a pipe or two dashes gives the stripped company and title |
| HackerNews.CommentId | scrapers/hackernews.py:245 | the comment's objectID, else its id, else "" |
| HackerNews.DetermineRemoteType | scrapers/hackernews.py:342-364 | Onsite exactly when "remote" is absent or denied by "no remote"/"not remote"; Hybrid exactly when "remote ok" or "remote-ok" occurs undenied; Remote for any other mention of remote |
| HackerNews.DetermineRemoteTypePhrases | scrapers/hackernews.py:355-364 | "no remote"/"not remote" force Onsite; "remote ok" without a denial gives Hybrid |
| HackerNews.ParseComment | scrapers/hackernews.py:195-273 | a job exactly when the stripped text has at least 50 characters; then "Unknown" and "Software Engineer" fill a missing company or title, the url falls back to the item link, the description is the first 1000 characters, the source is HackerNews and the source id the comment id |
| HackerNews.PipeCommentCompanyTitle | scrapers/hackernews.py:214-226 | a comment whose first line is "Company \| Title" becomes a job with that company and title |
| HackerNews.MatchesKeywordsFields | scrapers/hackernews.py:403-406 | a keyword occurring, in any case, in the title, description or company makes the job match |
| HackerNews.MatchesLocationParts | scrapers/hackernews.py:408-411 | the location matches when it occurs in the job's location or remote type, in any case; a Remote job passes "remote" |
| HackerNews.MinTimestamp | scrapers/hackernews.py:105 | the lower bound lies exactly `max_age_days` days before now |
| HackerNews.SelectedThreadsProperties | scrapers/hackernews.py:118-125 | at most three threads, each saying "hiring" with more than ten comments, in search order; all of them when there are at most three |
| HackerNews.ThreadJobs | scrapers/hackernews.py:133-193 | at most 100 jobs per thread |
| HackerNews.ThreadsJobs | scrapers/hackernews.py:65-84 | at most 100 jobs per thread read |
| HackerNews.FetchJobs | scrapers/hackernews.py:33-91 | nothing when the search failed; otherwise the jobs of the selected threads, in order |
| HackerNews.ThreadsJobsProperties | scrapers/hackernews.py:65-84 | at most 300 jobs; each passed the filters, has HackerNews as source, at most 1000 characters of description, and parses from a comment of one of the threads |
| Indeed.ParseTitleFormats | scrapers/indeed.py:263-290 | "T - C - L" gives company C and location L; "T - C" gives company C and "Unknown Location"; a title without " - " gives both defaults |
| Indeed.CleanTitleSuffixes | scrapers/indeed.py:292-313 | with the corrected cleaning, "T - C - L" and "T - C" clean to T |
| Indeed.CleanTitleFormats | scrapers/indeed.py:292-313 | a "T - C - L" title cleans to T with the company and location parsed from it |
| Indeed.ReplaceCompanyInLocation | scrapers/indeed.py:307-308 | `replace` of " - C" also removes "C" wherever it starts the location |
| Indeed.CleanTitleAsWrittenCutsLocation | scrapers/indeed.py:305-313 | as written, a location that starts with the company name loses that prefix from the cleaned title, where the corrected cleaning gives T |
| Indeed.CleanTitleAsWrittenExample | scrapers/indeed.py:305-313 | "Engineer - SAP - SAP Labs" cleans to "Engineer Labs" as written and to "Engineer" when corrected |
| Indeed.CleanTitleAsWrittenFormats | scrapers/indeed.py:292-313 | as written, "T - C - L" cleans to T, or to T followed by the rest of L when L starts with C, and "T - C" cleans to T |
| Indeed.JkAtShape | scrapers/indeed.py:329 | a `jk=` match is a non-empty run of lower-case hex digits following "jk=" in the URL |
| Indeed.ExtractJobId | scrapers/indeed.py:315-334 | the first `jk=` hex run when there is one, else the hash fallback |
| Indeed.ExtractJobIdShape | scrapers/indeed.py:328-331 | an extracted id is non-empty hex and occurs after "jk=" in the URL |
| Indeed.ExtractJobIdRoundTrip | scrapers/indeed.py:319-331 | a URL "…jk=HEX…" with the hex run ended gives back exactly HEX |
| Indeed.StripTags | scrapers/indeed.py:347 | tag removal never lengthens the text, leaves text without '>' alone and keeps a leading non-tag character |
| Indeed.StripTagsNoTag | scrapers/indeed.py:347 | no tag remains after removal |
| Indeed.CleanHtmlShape | scrapers/indeed.py:336-355 | the result is single spaced, keeps the non-whitespace characters of the unescaped, de-tagged text, and is empty exactly when that text is all whitespace |
| Indeed.DetermineRemoteType | scrapers/indeed.py:357-382 | Onsite exactly when no remote keyword occurs in "title description"; Hybrid exactly when one does and "hybrid" occurs too |
| Indeed.DescriptionOr | scrapers/indeed.py:252 | the description is never empty and a non-empty description is kept |
| Indeed.ParseRssItem | scrapers/indeed.py:190-261 | no job exactly when the title or the link element is missing; otherwise the id is "indeed_" plus the URL's job id, company and location are parsed from the title, the title is cleaned as `_clean_title` is written, the description is the cleaned HTML or the generated sentence, and the source is Indeed |
| Indeed.ParseRssItemTitle | scrapers/indeed.py:211-224 | an item titled "T - C - L" is a job at company C in L whose title is T, except that when L starts with C the rest of L after C is left on the title, as the code is written |
| Indeed.KeywordList | scrapers/indeed.py:76-80 | the given keywords when non-empty, else the three defaults; never empty |
| Indeed.FeedUrl | scrapers/indeed.py:134-140 | spaces in the keyword and location are replaced, so the URL has none when the domain has none |
| Indeed.GatheredMembers | scrapers/indeed.py:87-106 | every gathered job came from the feed of one of the keywords |
| Indeed.KeysAreIds | scrapers/indeed.py:109-112 | the dictionary's keys are exactly the ids of its values |
| Indeed.AppendById | scrapers/indeed.py:111-112 | adding a job under its id keeps the table keyed by id and appends the job to its values |
| Indeed.FirstPerId | scrapers/indeed.py:108-112 | the loop keeps the first job per id, in order |
| Indeed.FetchJobs | scrapers/indeed.py:57-117 | the first job per id among the jobs gathered keyword by keyword, cut to `max_results` |
| Indeed.AllFailedGathersNothing | scrapers/indeed.py:87-106 | a keyword loop in which every feed raised gathers nothing |
| Indeed.FetchResultAsWritten | scrapers/indeed.py:145 | when every feed request raises, as the awaited rate-limiter call makes it, `fetch_jobs` returns no job |
| Indeed.FetchResultProperties | scrapers/indeed.py:108-114 | ids are distinct, the result is a subsequence of the gathered jobs, at most `max_results` long, and each job is the first gathered with its id |
| Adzuna.ClampResultsPerPage | scrapers/adzuna.py:64 | the page size is the requested one, capped at 50 |
| Adzuna.NewScraper | scrapers/adzuna.py:35-72 | credentials are the arguments, else the ADZUNA_APP_ID / ADZUNA_APP_KEY environment values; the page size is clamped |
| Adzuna.NewScraperCredentials | scrapers/adzuna.py:60-72 | given non-empty credentials are used; with neither an argument nor an environment value the scraper has no credentials |
| Adzuna.DetermineRemoteType | scrapers/adzuna.py:250-281 | Onsite exactly when no remote keyword occurs in "title description location"; Hybrid exactly when one does and "hybrid" occurs too |
| Adzuna.RemoteKeywordInLocation | scrapers/adzuna.py:267-281 | a remote keyword in the location alone makes the job not Onsite |
| Adzuna.FieldOr | scrapers/adzuna.py:201-205 | `get` with a default: the field's value when present, else the default |
| Adzuna.Currency | scrapers/adzuna.py:241 | EUR exactly for country "de", GBP otherwise |
| Adzuna.PostedDate | scrapers/adzuna.py:211-219 | the ISO date with "Z" read as "+00:00" when given and parseable, else now |
| Adzuna.ParseJob | scrapers/adzuna.py:189-248 | no job exactly when the stripped title or description is empty; otherwise stripped fields with "Unknown Company"/"Unknown Location" defaults, id "adzuna_" plus the item id, contract type from contract_type else contract_time, salaries copied, source Adzuna |
| Adzuna.ParseJobStripped | scrapers/adzuna.py:201-204 | a parsed job's title and description are stripped |
| Adzuna.ParseJobNeedsTitleAndDescription | scrapers/adzuna.py:207-209 | a missing title or description, or a blank title, gives no job |
| Adzuna.SearchQuery | scrapers/adzuna.py:95 | the keywords joined by " OR ", or the default query when none are given |
| Adzuna.PageJobs | scrapers/adzuna.py:127-187 | status 429 gives an empty page; a failed request raises; otherwise the items that parse |
| Adzuna.FetchJobs | scrapers/adzuna.py:74-125 | nothing without credentials; otherwise the jobs of pages 1 to `max_pages`, stopping after an empty page and skipping a page that raised |
| Adzuna.FetchResultAsWritten | scrapers/adzuna.py:160 | when every page request raises, as the awaited rate-limiter call makes it, `fetch_jobs` returns no job |
| Adzuna.FetchResultProperties | scrapers/adzuna.py:89-125 | a returned job implies credentials, and is the parse of an item the API returned for a page from 1 to `max_pages`, with non-empty title and description, an "adzuna_" id and the country's currency |
| StepStone.Slug | scrapers/stepstone.py:139-140 | the slug is the lower-cased text with every space turned into '-', same length, no space left |
| StepStone.SlugIdempotent | scrapers/stepstone.py:139-140 | slugging a slug changes nothing |
| StepStone.SearchQuery | scrapers/stepstone.py:88 | the keywords joined by spaces, or the default query when none are given |
| StepStone.SearchPath | scrapers/stepstone.py:137-145 | the search URL lies under the site's "/jobs/" path and contains no space |
| StepStone.DigitsAtShape | scrapers/stepstone.py:325 | a match is a non-empty run of digits between two slashes |
| StepStone.ExtractJobId | scrapers/stepstone.py:312-330 | the first "/digits/" run of the URL when there is one, else the hash fallback |
| StepStone.ExtractJobIdShape | scrapers/stepstone.py:324-327 | an extracted id is non-empty, all digits, and occurs between slashes in the URL |
| StepStone.ExtractJobIdRoundTrip | scrapers/stepstone.py:324-327 | a URL "…/DIGITS/…" whose prefix has no "/digit" gives back exactly DIGITS |
| StepStone.DetermineRemoteType | scrapers/stepstone.py:348-379 | Onsite exactly when no remote keyword occurs in "title description location"; Hybrid exactly when one does and "hybrid" or "teilweise" occurs too |
| StepStone.DescriptionOr | scrapers/stepstone.py:271-282 | the stripped snippet when there is one, else the generated sentence |
| StepStone.ParseJobContainer | scrapers/stepstone.py:220-310 | a job exactly when the card has a title link; the link made absolute, "Unknown Company" and "Deutschland" as defaults, id "stepstone_" plus the URL's id, date one day before now, source StepStone |
| StepStone.ParseJobContainerRelativeLink | scrapers/stepstone.py:246-295 | a card linking "/stellenangebote/DIGITS/…" gets the absolute site URL and the id "stepstone_DIGITS" |
| StepStone.RelativeHref | scrapers/stepstone.py:250-251 | a relative link gets the base URL put in front of it |
| StepStone.IdFromSitePath | scrapers/stepstone.py:324-327 | the id of a site job URL is its digit segment |
| StepStone.PageJobs | scrapers/stepstone.py:120-167 | status 404 gives an empty page; a failed request raises; otherwise the cards that parse |
| StepStone.FetchJobs | scrapers/stepstone.py:70-118 | the jobs of pages 1 to `max_pages`, stopping after an empty page and skipping a page that raised |
| StepStone.FetchResultAsWritten | scrapers/stepstone.py:150 | when every page request raises, as the awaited rate-limiter call makes it, `fetch_jobs` returns no job |
| StepStone.FetchResultProperties | scrapers/stepstone.py:95-118 | every returned job is the parse of a titled card on a page from 1 to `max_pages`, with the "stepstone_" prefix, source StepStone and a date one day before now |
| Xing.JobsIdAtShape | scrapers/xing.py:355 | a match is a non-empty alphanumeric run following "/jobs/", a slug and a slash |
| Xing.ExtractJobId | scrapers/xing.py:341-360 | the first "/jobs/slug/ID" id of the URL when there is one, else the hash fallback |
| Xing.ExtractJobIdShape | scrapers/xing.py:353-357 | an extracted id is non-empty, alphanumeric, and follows a slash in the URL |
| Xing.ExtractJobIdRoundTrip | scrapers/xing.py:353-357 | a URL "…/jobs/SLUG/ID…" with the id run ended gives back exactly ID |
| Xing.DetermineRemoteType | scrapers/xing.py:378-410 | Onsite exactly when no remote keyword occurs in "title description location"; Hybrid exactly when one does and "hybrid", "teilweise" or "anteilig" occurs too |
| Xing.DescriptionOr | scrapers/xing.py:297-308 | the stripped snippet when there is one, else the generated "on XING" sentence |
| Xing.CardId | scrapers/xing.py:310-314 | a non-empty `data-job-id` attribute wins; otherwise the id extracted from the URL |
| Xing.ParseJobContainer | scrapers/xing.py:246-339 | a job exactly when the card has a title link; the link made absolute, "Unknown Company" and "Deutschland" as defaults, id "xing_" plus the card id, date one day before now, source XING |
| Xing.AttributeIdWins | scrapers/xing.py:311-314 | with a `data-job-id` attribute the id does not depend on the link |
| Xing.SearchQuery | scrapers/xing.py:91 | the keywords joined by spaces, or the default query when none are given |
| Xing.PageJobs | scrapers/xing.py:132-193 | status 401/403 and 404 give an empty page; a failed request raises; otherwise the cards that parse |
| Xing.FetchJobs | scrapers/xing.py:73-130 | the jobs of pages 1 to `max_pages`, stopping after an empty page and skipping a page that raised |
| Xing.FetchResultAsWritten | scrapers/xing.py:162 | when every page request raises, as the awaited rate-limiter call makes it, `fetch_jobs` returns no job |
| Xing.AuthRequiredEndsSearch | scrapers/xing.py:112-114 | a page asking for authentication ends the search: later pages do not change the result |
| Xing.FetchResultProperties | scrapers/xing.py:98-130 | every returned job is the parse of a titled card on a page from 1 to `max_pages`, with the "xing_" prefix and source XING |
| RemoteOK.StrippedField | scrapers/remoteok.py:98-99 | `get(field, '').strip()`: the stripped value, or "" when the field is missing |
| RemoteOK.SplitCompanyTitle | scrapers/remoteok.py:121-130 | the company field when set; otherwise the title is cut at its first ':' into stripped company and title; without a ':' the company is "Unknown" and the title is kept |
| RemoteOK.SplitAtFirstColon | scrapers/remoteok.py:125-128 | "C:T" with no ':' in C gives company C and title T, both stripped |
| RemoteOK.ParseEntry | scrapers/remoteok.py:86-167 | a job exactly when the stripped title and link are non-empty; company and title from the split, location defaulting to "Remote", always Full Remote, the summary text or "No description available", the tags as tech stack only when there are any, the link as source id |
| RemoteOK.ParseEntryColonTitle | scrapers/remoteok.py:121-157 | an entry "C:T" without company and location fields is job T at C in "Remote", Full Remote, with its tags |
| RemoteOK.ParseEntryExample | scrapers/remoteok.py:121-157 | "TestCorp: Senior Developer" with three tags is a Full Remote "Senior Developer" job at TestCorp in "Remote" with those tags |
| RemoteOK.ParseEntryNeedsTitleAndLink | scrapers/remoteok.py:101-103 | an entry without a title or without a link gives no job |
| RemoteOK.TagMatches | scrapers/remoteok.py:169-184 | a keyword found in one of the tags makes the job match |
| RemoteOK.FetchJobs | scrapers/remoteok.py:29-84 | nothing when the feed failed or is empty; otherwise the entries that parse and pass the keyword filter, in feed order |
| RemoteOK.FetchResultProperties | scrapers/remoteok.py:54-80 | every returned job is the parse of a feed entry, Full Remote, from RemoteOK, with a link, and matches a keyword when keywords were given; without keywords every entry that parses is returned |
| WeWorkRemotely.SelectCategories | scrapers/weworkremotely.py:56-60 | all three categories when none are requested; otherwise exactly the known categories whose name is requested, in the class's order |
| WeWorkRemotely.ContractOfTagMeaning | scrapers/weworkremotely.py:169-179 | "full-time"/"full time" gives Full-time; else "contract" gives Contract; else "part-time"/"part time" gives Part-time; else nothing |
| WeWorkRemotely.ContractFromTags | scrapers/weworkremotely.py:167-179 | the contract type is absent or one of Full-time, Contract, Part-time |
| WeWorkRemotely.ContractFromTagsMeaning | scrapers/weworkremotely.py:167-179 | a type found is that of a tag with no earlier tag naming one; no type exactly when no tag names one |
| WeWorkRemotely.ContractFromTagsFirst | scrapers/weworkremotely.py:169-179 | the first tag naming a type decides it, whatever follows |
| WeWorkRemotely.FullTimeBeforeContract | scrapers/weworkremotely.py:171-176 | a tag saying both "full-time" and "contract" counts as Full-time |
| WeWorkRemotely.ListingUrl | scrapers/weworkremotely.py:141 | a path starting with '/' gets the site URL in front; any other is kept; a non-empty path gives a non-empty URL |
| WeWorkRemotely.ListingDescription | scrapers/weworkremotely.py:185-189 | the description starts "title. Category: category. " and is exactly that when there are no tags |
| WeWorkRemotely.ListingJob | scrapers/weworkremotely.py:117-216 | a job exactly when the listing has a link, a non-empty stripped href and a non-empty title; then Full Remote, "Unknown"/"Worldwide" defaults, the URL as source id, the contract type of the first tag naming one, no tech stack, source WeWorkRemotely |
| WeWorkRemotely.NonEmptyTags | scrapers/weworkremotely.py:159-165 | the tag loop keeps the non-empty tag texts, in order |
| WeWorkRemotely.FirstContract | scrapers/weworkremotely.py:167-179 | the loop with its breaks finds the contract type of the first tag naming one |
| WeWorkRemotely.ParseListing | scrapers/weworkremotely.py:117-216 | the imperative parse computes the listing's job |
| WeWorkRemotely.CategoryKeywordMatches | scrapers/weworkremotely.py:234-249 | a keyword found in the category name matches every job of that category, since the description names it |
| WeWorkRemotely.HarvestListings | scrapers/weworkremotely.py:88-104 | the listing loop keeps the listings that parse and pass the keyword filter, in order |
| WeWorkRemotely.FetchCategory | scrapers/weworkremotely.py:68-108 | a category page that failed or has no listings gives nothing; otherwise its harvested jobs |
| WeWorkRemotely.FetchJobs | scrapers/weworkremotely.py:36-115 | the jobs of the selected categories, category after category |
| WeWorkRemotely.CategoriesJobsProperties | scrapers/weworkremotely.py:55-111 | every returned job comes from a listing on one selected category's page, is Full Remote from WeWorkRemotely with a title and a URL, and matches a keyword when keywords were given |
| Scraping.RemoteFromKeywords | scrapers/stepstone.py:348-379 | the shared shape of the scrapers' remote check: Hybrid exactly when a remote keyword and a hybrid marker occur, Remote exactly when only a remote keyword does, Onsite exactly when no remote keyword does |
| Scraping.RemoteFromKeywordsGrows | scrapers/stepstone.py:365-379 | adding text never turns a remote or hybrid posting back into Onsite, nor a hybrid one into Remote |
| Scraping.KeywordInFieldMatches | scrapers/weworkremotely.py:245-249 | a keyword found in one of the joined fields matches the joined text |
| Scraping.FetchPages | scrapers/stepstone.py:95-115 | the page loop gathers pages 1 to `max_pages`, skipping pages that raised and stopping after the first empty page |
| Scraping.PagesJobsFromPages | scrapers/stepstone.py:95-115 | every gathered job came from a page in range that returned it |
| Scraping.AllRaisedGathersNothing | scrapers/stepstone.py:95-115 | a page loop in which every page raised gathers nothing |
| Scraping.PagesStopAtEmpty | scrapers/stepstone.py:109-111 | after an empty page the later pages do not affect the result |
| Scraping.HarvestItems | scrapers/remoteok.py:61-80 | the item loop keeps, in order, the jobs that parse and pass the filter |
| Scraping.HarvestMembers | scrapers/remoteok.py:62-73 | a job is kept exactly when some item parses to it and it passes the filter |
| Scraping.AbsoluteUrl | scrapers/stepstone.py:249-251 | an empty or "http…" link is kept; any other gets the base URL in front |
| Scraping.AbsoluteUrlAbsolute | scrapers/stepstone.py:249-251 | with an "http" base a non-empty link becomes absolute, and making it absolute twice changes nothing |
| Scraping.SearchFrom | scrapers/indeed.py:329-331 | `re.search`: the match at the first position where the pattern matches, or none when it matches nowhere |
| Scraping.SearchFindsFirst | scrapers/indeed.py:329-331 | a match with no match before it is the one found |
| Scraping.TextOr | scrapers/stepstone.py:260 | the element's stripped text when present, else the default |

Where the source's own documentation and its code disagree, the model follows the code:

- **Component budgets.** The base class docstring lists 40/30/15/10/5 points (scorers/base.py:40-46), and the components' "Max score" docstrings and `max_score` defaults say 40/30/15/15/10/5 (for example scorers/components/tfidf_component.py:14,24 and scorers/components/tech_stack_component.py:15,28). The aggregator constructs the components with 35/25/15/15/8/2 (scorers/aggregator.py:38-45), and those budgets are modelled.
- **Remote component, remote not preferred.** The comment at scorers/components/remote_component.py:98 calls the result a neutral score. The code forces a raw score of 0, and normalising raw 0 on [-3, 5] gives 3/8 of the 15-point budget (scorers/components/remote_component.py:99-108), that is 5.625 points; the class comment at scorers/components/remote_component.py:20 calls it "~5.6 points". This is what the model proves.
- **Stale tests.** tests/test_models.py:15 expects a breakdown of five components, and tests/test_pipeline_integration.py:6 imports a `JobFinder` class that main.py does not define. The code's six components and `JobFinderPipeline` are modelled.

## Left out

- Network and concurrency:
  - httpx clients, tenacity retries, `_fetch_url` and `asyncio.gather` in the pipeline's `run` are left out. They are I/O and concurrency. Every request is a function parameter that returns what the request gave, or that it raised.
  - `async_wait` and its lock (utils/rate_limiter.py:100-142) are left out as concurrency. Only the synchronous `wait` is modelled.
  - `await self.rate_limiter.wait()` (scrapers/indeed.py:145, scrapers/stepstone.py:150, scrapers/xing.py:162, scrapers/adzuna.py:160) awaits the `None` that the synchronous `wait` returns (utils/rate_limiter.py:60), which raises `TypeError`. The per-keyword or per-page `try`/`except` catches it (scrapers/indeed.py:88-104, scrapers/stepstone.py:96-113, scrapers/xing.py:99-116, scrapers/adzuna.py:103-120), so as written these four `fetch_jobs` return an empty list. The request is a parameter of the model, so `Indeed.FetchJobs`, `StepStone.FetchJobs`, `Xing.FetchJobs` and `Adzuna.FetchJobs` describe the listing a working wait would give; the `FetchResultAsWritten` lemmas of the four modules state the as-written outcome (see Findings).
- Foreign libraries are function parameters with no contract of their own:
  - TF-IDF matcher: its similarity and term weights;
  - `difflib.SequenceMatcher.ratio`;
  - BeautifulSoup element lookup, including the CSS selector fallbacks and container selection of StepStone and XING;
  - feedparser;
  - FlashText's scan;
  - `html.unescape`;
  - `datetime` parsing;
  - the regular expressions loaded from the rule files.
  - The TF-IDF matcher itself (matchers/tfidf_matcher.py) is not part of this model, including the tie order of `find_most_similar`.
- Randomised ids: the `hash(url)` id fallbacks of Indeed, StepStone and XING are a parameter, because Python randomises them per process.
- HackerNews `_extract_location` and `_extract_url`: both are regular-expression searches over the comment, passed in as functions.
- Loading and environment:
  - gspread and credential handling, the Sheets API calls, YAML/JSON/environment file loading and directory creation are left out. The rule tables, synonyms, tech dictionary and environment are inputs.
  - TechExtraction: `_load_tech_dictionary` and its six-empty-categories fallback are not modelled. The dictionary is an input.
  - The module-level singletons (`get_settings`, `detect_remote_type`) are left out.
- Models: models/job.py and models/profile.py are not part of this model.
  - Job, score result and profile are records holding the attributes the core reads and writes.
  - `Job.generate_id`, `is_remote_preferred`, `get_all_skills_flat` and `get_min_score` are opaque inputs.
  - `_get_top_jobs` drops a job without a score result, which is what its `hasattr` test does when the attribute is unset.
- Text rendering:
  - Float, percentage and date formatting in explanations and sheet cells is kept as a number with its format specification. The digits are not rendered.
  - Logging, the command-line `main()`, and the milestone and scratch scripts are left out.
- Text semantics:
  - `str.lower`/`str.upper` fold the letters of ASCII and Latin-1 (so 'Ä' becomes 'ä') and nothing beyond: 'ÿ' and 'µ' keep their case, 'ß' is not upper-cased to "SS", and Greek, Cyrillic and other scripts are left as they are.
  - `\d` and `\s` in the written-out patterns are the ASCII digits and Python's whitespace set.
  - `\w`, and with it `\b`, covers ASCII and Latin-1 only (`TechExtraction.IsWordChar`). Python's Unicode `\w` is wider, so a letter beyond Latin-1 right after "C#", "C++" or "F#" satisfies the trailing `\b` in Python but not in the model.
- Sheets.BreakdownComponents: the 0.0 default of `comp_data.get('normalized', 0.0)` (integrations/google_sheets.py:267) is not modelled, because every breakdown entry the aggregator builds carries `normalized` (scorers/aggregator.py:75-90) and the model's breakdown entry always has that field.
- Pipeline.Run: the scorer, the tech extractor and the similarity ratio are function parameters. Their inputs (the TF-IDF matcher, the dictionary, `difflib`) are foreign, so the run does not call `Aggregator.ScoreJob` itself; each job's score is whatever the scorer parameter gives for it.
- TechStackScoring.Calculate: with at least one matched technology the explanation text is not stated, because it lists the matches in Python's set iteration order; its score, raw score, details and the no-match explanation are stated.
- Adzuna JSON nulls: a JSON `null` field of an Adzuna item is treated like a missing field (the default is used). Python would raise on `.strip()` and drop the item.
- Stub methods: the stub scrapers (github_jobs, stackoverflow) are left out. So are the `parse_job` methods of HackerNews, StepStone, XING and WeWorkRemotely, which always return `None`.
- Reals and ints: numbers are unbounded integers and exact reals, so float rounding in sums and normalisation is not modelled.

## Findings

| source | as written | input that shows it | evidently intended | confidence | as-written member | corrected member |
|---|---|---|---|---|---|---|
| extractors/tech_extractor.py:93 | The C# pattern is `\bC\s*#\b`. The trailing `\b` needs a word character right after `#`, because `#` is not a word character. The C++ and F# patterns at lines 95 and 99 end the same way. | the text "C#", or "C# developer" | C#, C++ and F# are found wherever they start a word, whatever follows them | not executed | TechExtraction.CSharpMissedAsWritten | TechExtraction.SymbolTermFound |
| scrapers/indeed.py:305-313 | `_clean_title` removes every occurrence of " - {company}", including the start of " - {location}" when the location begins with the company name. | "Engineer - SAP - SAP Labs" (company "SAP", location "SAP Labs") cleans to "Engineer Labs" | the title without its trailing company and location parts: "Engineer" | not executed | Indeed.CleanTitleAsWrittenExample | Indeed.CleanTitleFormats |
| utils/rate_limiter.py:60 | `wait` is synchronous and returns `None`, but the Indeed, StepStone, XING and Adzuna fetches `await` it (scrapers/indeed.py:145, scrapers/stepstone.py:150, scrapers/xing.py:162, scrapers/adzuna.py:160). The `TypeError` is caught per keyword or page like a failed request. | any search on these four boards | the request is made after the rate-limit delay and its jobs are returned | not executed | StepStone.FetchResultAsWritten | StepStone.FetchJobs |

In each case the model's main path follows the code as written: `TechExtraction.SpecialCases` and `TechExtraction.Extract` use the patterns with their trailing word boundary, `Indeed.ParseRssItem` cleans titles with `CleanTitleAsWritten`, and the four page loops are stated for whatever the request gives, including the always-raising request of the code as written. The corrected members stand beside them and state the intended behaviour.
