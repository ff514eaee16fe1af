/**
 * The contract-type scoring component: the first rule name (in table order)
 * occurring in the lower-cased contract field, title and description
 * decides a raw score on [-5, 2], which is mapped linearly into the budget.
 */
module ContractScoring {
  import opened Wrappers
  import opened Tables
  import opened Text
  import opened Explain
  import opened Jobs
  import opened ScoringBase

  datatype ContractComponent = ContractComponent(maxScore: real, contractScores: seq<Entry<string, real>>)

  const RawMin: real := -5.0
  const RawMax: real := 2.0
  const Unspecified: string := "standard contract (unspecified)"

  /** `_build_contract_scores` over the `contract.types` items (`name` lower-cased, `score`). */
  method BuildContractScores(types: seq<Rule>) returns (table: seq<Entry<string, real>>)
    ensures table == PutAll([], RuleEntries(types))
    ensures DistinctKeys(table) && LowerKeys(table)
    ensures forall k :: Get(table, k) == LastValue(RuleEntries(types), k)
  {
    table := AddRules([], types);
    PutAllDistinct([], RuleEntries(types));
    RuleEntriesLower(types);
    PutAllLowerKeys([], RuleEntries(types));
    forall k ensures Get(table, k) == LastValue(RuleEntries(types), k) {
      GetPutAll([], RuleEntries(types), k);
    }
  }

  /** `f"{contract_type} {title} {description}".lower()`, with a missing field read as "". */
  function ContractText(job: Job): string {
    Lower(OrEmpty(job.contractType) + " " + job.title + " " + job.description)
  }

  /** The position of the first table entry whose name occurs in `text`, or `|table|` when none does. */
  function FirstMatch(table: seq<Entry<string, real>>, text: string): (r: nat)
    ensures r <= |table|
    ensures r < |table| ==> Contains(text, table[r].key)
    ensures forall j :: 0 <= j < r ==> !Contains(text, table[j].key)
    decreases |table|
  {
    if |table| == 0 then 0
    else if Contains(text, table[0].key) then 0
    else 1 + FirstMatch(table[1..], text)
  }

  /** `_match_contract_type`: the score and name of the first entry found, else 0 and the unspecified label. */
  method MatchContractType(table: seq<Entry<string, real>>, contractType: string, title: string, description: string)
    returns (score: real, name: string)
    ensures var text := Lower(contractType + " " + title + " " + description);
            var i := FirstMatch(table, text);
            if i < |table| then score == table[i].value && name == table[i].key
            else score == 0.0 && name == Unspecified
  {
    var text := Lower(contractType + " " + title + " " + description);
    for i := 0 to |table|
      invariant forall j :: 0 <= j < i ==> !Contains(text, table[j].key)
    {
      if Contains(text, table[i].key) {
        return table[i].value, table[i].key;
      }
    }
    return 0.0, Unspecified;
  }

  /** The word the explanation uses for a raw score. */
  function Tone(raw: real): (r: string)
    ensures r == "favorable" <==> raw > 0.0
    ensures r == "unfavorable" <==> raw < 0.0
    ensures r == "neutral" <==> raw == 0.0
  {
    if raw > 0.0 then "favorable" else if raw < 0.0 then "unfavorable" else "neutral"
  }

  function ContractExplanation(matchedType: string, raw: real): Message {
    [Lit("Contract type: " + matchedType + " (" + Tone(raw) + ", "), Num(raw, Signed0), Lit(" raw score).")]
  }

  /** What `calculate` returns: the first match decides the raw score, normalised from [-5, 2]. */
  predicate Calculated(c: ContractComponent, job: Job, r: ComponentScore) {
    && r.maxScore == c.maxScore && (c.maxScore >= 0.0 ==> 0.0 <= r.score <= c.maxScore)
    && (var i := FirstMatch(c.contractScores, ContractText(job));
        && r.rawScore == (if i < |c.contractScores| then c.contractScores[i].value else 0.0)
        && r.details == ContractDetails(if i < |c.contractScores| then c.contractScores[i].key else Unspecified,
                                        OrEmpty(job.contractType))
        && r.explanation == ContractExplanation(r.details.matchedType, r.rawScore))
    && r.score == Clamp(NormalizeScore(c.maxScore, r.rawScore, RawMin, RawMax), 0.0, c.maxScore)
    && (c.maxScore >= 0.0 ==> r.score == NormalizeScore(c.maxScore, r.rawScore, RawMin, RawMax))
  }

  /** `calculate`: the first match decides the raw score. */
  method Calculate(c: ContractComponent, job: Job) returns (r: ComponentScore)
    ensures Calculated(c, job, r)
  {
    var contractType := OrEmpty(job.contractType);
    var raw, matchedType := MatchContractType(c.contractScores, contractType, job.title, job.description);
    var normalized := NormalizeScore(c.maxScore, raw, RawMin, RawMax);
    r := NewComponentScore(normalized, raw, c.maxScore, ContractExplanation(matchedType, raw),
                           Some(ContractDetails(matchedType, contractType)));
  }

  /** The documented points of the normalisation on [-5, 2]: 2 gives the budget, -5 nothing, 0 five sevenths. */
  lemma ContractNormalizationPoints(maxScore: real)
    requires maxScore >= 0.0
    ensures NormalizeScore(maxScore, 2.0, RawMin, RawMax) == maxScore
    ensures NormalizeScore(maxScore, -5.0, RawMin, RawMax) == 0.0
    ensures NormalizeScore(maxScore, 0.0, RawMin, RawMax) == 5.0 / 7.0 * maxScore
  {
    NormalizeLinear(maxScore, 0.0, RawMin, RawMax);
  }
}
