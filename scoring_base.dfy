/**
 * The shared part of the scoring engine: the result every scoring component
 * returns, with the clamp its constructor applies, and the linear
 * normalisation of a raw score into a component's budget.
 */
module ScoringBase {
  import opened Wrappers
  import opened Tables
  import opened Text
  import opened Explain

  /** The `details` dictionary of a component result; each component fills in its own keys. */
  datatype Details =
    | NoDetails
    | TechDetails(matchedTech: map<string, real>, totalJobTech: nat, totalProfileSkills: nat)
    | KeywordDetails(matchedKeywords: seq<Entry<string, real>>, totalKeywordsChecked: nat)
    | ContractDetails(matchedType: string, contractTypeField: string)
    | RemoteDetails(matchedType: string, remoteTypeField: string, isRemotePreferred: bool)
    | LocationDetails(locationType: string, isGermany: bool, isRemote: bool, isEurope: bool,
                      baseScore: real, remoteBonus: real, finalScore: real)
    | TfidfDetails(similarity: real, topJobTerms: seq<string>)

  datatype ComponentScore = ComponentScore(
    score: real, rawScore: real, maxScore: real, explanation: Message, details: Details)

  /** `max(lo, min(x, hi))`. */
  function Clamp(x: real, lo: real, hi: real): (r: real)
    ensures lo <= hi ==> lo <= r <= hi
    ensures lo <= x <= hi ==> r == x
    ensures x <= lo ==> r == lo
    ensures lo <= hi <= x ==> r == hi
    ensures r >= lo
  {
    var m := if x <= hi then x else hi;
    if lo >= m then lo else m
  }

  /**
   * Building a component result: a missing details map becomes empty and the
   * score is forced into [0, maxScore] whatever the component computed.
   */
  function NewComponentScore(score: real, raw: real, maxScore: real, explanation: Message, details: Option<Details>)
    : (r: ComponentScore)
    ensures r.score >= 0.0
    ensures maxScore >= 0.0 ==> r.score <= maxScore
    ensures 0.0 <= score <= maxScore ==> r.score == score
    ensures score <= 0.0 ==> r.score == 0.0
    ensures 0.0 <= maxScore <= score ==> r.score == maxScore
    ensures r.rawScore == raw && r.maxScore == maxScore && r.explanation == explanation
    ensures details.None? ==> r.details == NoDetails
    ensures details.Some? ==> r.details == details.value
  {
    ComponentScore(Clamp(score, 0.0, maxScore), raw, maxScore, explanation,
                   if details.None? then NoDetails else details.value)
  }

  /** The result every component's exception handler returns: zero score, zero raw score, "Error: ..." and empty details. */
  function ErrorScore(maxScore: real, error: string): (r: ComponentScore)
    ensures r.score == 0.0 && r.rawScore == 0.0 && r.maxScore == maxScore
    ensures r.explanation == [Lit("Error: " + error)]
    ensures r.details == NoDetails
  {
    NewComponentScore(0.0, 0.0, maxScore, [Lit("Error: " + error)], Some(NoDetails))
  }

  lemma ScaleInRange(f: real, m: real)
    requires 0.0 <= f <= 1.0 && m >= 0.0
    ensures 0.0 <= f * m <= m
  {
    assert (1.0 - f) * m >= 0.0;
  }

  lemma QuotientMonotone(a: real, b: real, d: real)
    requires a <= b && d > 0.0
    ensures a / d <= b / d
  {
    assert b / d - a / d == (b - a) / d;
  }

  lemma UnitFraction(n: real, d: real)
    requires 0.0 <= n <= d && d > 0.0
    ensures 0.0 <= n / d <= 1.0
  {
    QuotientMonotone(0.0, n, d);
    QuotientMonotone(n, d, d);
  }

  lemma ClampMonotone(a: real, b: real, lo: real, hi: real)
    requires a <= b
    ensures Clamp(a, lo, hi) <= Clamp(b, lo, hi)
  {
  }

  /**
   * `normalize_score`: clamps the raw score into [rawMin, rawMax] and maps that
   * interval linearly onto [0, maxScore]; an empty interval gives half the budget.
   */
  function NormalizeScore(maxScore: real, raw: real, rawMin: real, rawMax: real): (r: real)
    ensures maxScore >= 0.0 ==> 0.0 <= r <= maxScore
    ensures rawMax == rawMin ==> r == maxScore / 2.0
    ensures rawMin < rawMax && raw <= rawMin ==> r == 0.0
    ensures rawMin < rawMax && raw >= rawMax && maxScore >= 0.0 ==> r == maxScore
  {
    var c := Clamp(raw, rawMin, rawMax);
    if rawMax == rawMin then maxScore / 2.0
    else
      var normalized := ((c - rawMin) / (rawMax - rawMin)) * maxScore;
      if rawMin < rawMax && maxScore >= 0.0 then
        UnitFraction(c - rawMin, rawMax - rawMin);
        ScaleInRange((c - rawMin) / (rawMax - rawMin), maxScore);
        Clamp(normalized, 0.0, maxScore)
      else
        Clamp(normalized, 0.0, maxScore)
  }

  /** Inside the raw interval the normalisation is the linear map. */
  lemma NormalizeLinear(maxScore: real, raw: real, rawMin: real, rawMax: real)
    requires rawMin < rawMax && rawMin <= raw <= rawMax && maxScore >= 0.0
    ensures NormalizeScore(maxScore, raw, rawMin, rawMax) == (raw - rawMin) / (rawMax - rawMin) * maxScore
  {
    UnitFraction(raw - rawMin, rawMax - rawMin);
    ScaleInRange((raw - rawMin) / (rawMax - rawMin), maxScore);
  }

  lemma ScaleMonotone(x: real, y: real, m: real)
    requires x <= y && m >= 0.0
    ensures x * m <= y * m
  {
    assert y * m - x * m == (y - x) * m;
  }

  /** Without clamping at the ends, the normalisation is the linear map of the clamped raw score. */
  lemma NormalizeClamped(maxScore: real, raw: real, rawMin: real, rawMax: real)
    requires rawMin < rawMax && maxScore >= 0.0
    ensures NormalizeScore(maxScore, raw, rawMin, rawMax) == LinearMap(Clamp(raw, rawMin, rawMax), rawMin, rawMax, maxScore)
  {
    var c := Clamp(raw, rawMin, rawMax);
    UnitFraction(c - rawMin, rawMax - rawMin);
    ScaleInRange((c - rawMin) / (rawMax - rawMin), maxScore);
  }

  /** The linear map of [lo, hi] onto [0, m]. */
  function LinearMap(x: real, lo: real, hi: real, m: real): real
    requires lo < hi
  {
    (x - lo) / (hi - lo) * m
  }

  lemma LinearMonotone(x: real, y: real, lo: real, hi: real, m: real)
    requires x <= y && lo < hi && m >= 0.0
    ensures LinearMap(x, lo, hi, m) <= LinearMap(y, lo, hi, m)
  {
    QuotientMonotone(x - lo, y - lo, hi - lo);
    ScaleMonotone((x - lo) / (hi - lo), (y - lo) / (hi - lo), m);
  }

  /** A higher raw score never normalises lower. */
  lemma NormalizeMonotone(maxScore: real, a: real, b: real, rawMin: real, rawMax: real)
    requires a <= b && maxScore >= 0.0
    ensures NormalizeScore(maxScore, a, rawMin, rawMax) <= NormalizeScore(maxScore, b, rawMin, rawMax)
  {
    var ca, cb := Clamp(a, rawMin, rawMax), Clamp(b, rawMin, rawMax);
    ClampMonotone(a, b, rawMin, rawMax);
    if rawMin < rawMax {
      NormalizeClamped(maxScore, a, rawMin, rawMax);
      NormalizeClamped(maxScore, b, rawMin, rawMax);
      LinearMonotone(ca, cb, rawMin, rawMax, maxScore);
    } else {
      // An empty or reversed interval clamps every input to the same value.
      assert ca == cb;
    }
  }

  /** The documented remote examples with a budget of 15 on [-3, 5]. */
  lemma NormalizeRemoteExamples()
    ensures NormalizeScore(15.0, 5.0, -3.0, 5.0) == 15.0
    ensures NormalizeScore(15.0, -3.0, -3.0, 5.0) == 0.0
    ensures NormalizeScore(15.0, 0.0, -3.0, 5.0) == 5.625
  {
    NormalizeLinear(15.0, 0.0, -3.0, 5.0);
  }

  /** A `{term, score}` item of a scoring-rule group. */
  datatype Rule = Rule(term: string, score: real)

  /** The dictionary assignments `table[item['term'].lower()] = item['score']` of a rule group, in order. */
  function RuleEntries(rules: seq<Rule>): (r: seq<Entry<string, real>>)
    ensures |r| == |rules|
    ensures forall i :: 0 <= i < |rules| ==> r[i] == Entry(Lower(rules[i].term), rules[i].score)
  {
    seq(|rules|, i requires 0 <= i < |rules| => Entry(Lower(rules[i].term), rules[i].score))
  }

  /** Every key of a rule table built from rule groups is lower-case. */
  predicate LowerKeys(t: seq<Entry<string, real>>) {
    forall i :: 0 <= i < |t| ==> Lower(t[i].key) == t[i].key
  }

  lemma {:induction false} PutAllLowerKeys(t: seq<Entry<string, real>>, es: seq<Entry<string, real>>)
    requires LowerKeys(t) && LowerKeys(es)
    ensures LowerKeys(PutAll(t, es))
    decreases |es|
  {
    if |es| > 0 {
      var pre := PutAll(t, es[..|es| - 1]);
      PutAllLowerKeys(t, es[..|es| - 1]);
      KeysPut(pre, es[|es| - 1].key, es[|es| - 1].value);
      var r := Put(pre, es[|es| - 1].key, es[|es| - 1].value);
      forall i | 0 <= i < |r| ensures Lower(r[i].key) == r[i].key {
        assert r[i].key == Keys(r)[i];
        if i < |pre| {
          assert Keys(pre)[i] == pre[i].key;
        } else {
          assert r[i].key == es[|es| - 1].key;
        }
      }
    }
  }

  /** The loop `for item in group: table[item['term'].lower()] = item['score']`. */
  method AddRules(table: seq<Entry<string, real>>, rules: seq<Rule>) returns (t: seq<Entry<string, real>>)
    ensures t == PutAll(table, RuleEntries(rules))
  {
    var es := RuleEntries(rules);
    t := table;
    var i := 0;
    while i < |rules|
      invariant 0 <= i <= |rules|
      invariant t == PutAll(table, es[..i])
    {
      PutAllSnoc(table, es[..i], es[i]);
      assert es[..i + 1] == es[..i] + [es[i]];
      t := Put(t, Lower(rules[i].term), rules[i].score);
      i := i + 1;
    }
    assert es[..i] == es;
  }

  lemma RuleEntriesLower(rules: seq<Rule>)
    ensures LowerKeys(RuleEntries(rules))
  {
    forall i | 0 <= i < |rules| ensures Lower(RuleEntries(rules)[i].key) == RuleEntries(rules)[i].key {
      LowerIdempotent(rules[i].term);
    }
  }
}
