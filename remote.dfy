/**
 * The remote-work scoring component: pattern groups are tried in a fixed
 * priority order and the first group with a pattern found in the remote
 * field and description supplies a raw score on [-3, 5], which is mapped
 * linearly into the budget. Regular-expression search (case-insensitive, as
 * the patterns are compiled) is the parameter `search(pattern, text)`, and
 * whether a pattern compiles is the parameter `valid(pattern)`.
 */
module RemoteScoring {
  import opened Wrappers
  import opened Tables
  import opened Text
  import opened Explain
  import opened Jobs
  import opened ScoringBase

  /** One `remote.patterns` entry of the scoring rules; a missing `score` or `patterns` key is `None`. */
  datatype RemoteRule = RemoteRule(typeName: string, score: Option<real>, patterns: Option<seq<string>>)

  datatype PatternGroup = PatternGroup(score: real, patterns: seq<string>)

  datatype RemoteComponent = RemoteComponent(maxScore: real, patterns: seq<Entry<string, PatternGroup>>)

  const RawMin: real := -3.0
  const RawMax: real := 5.0
  /** The groups `_match_patterns` consults, most restrictive first. */
  const MatchOrder: seq<string> := ["onsite_required", "hybrid_2days", "hybrid_1day", "full_remote"]
  const UnknownType: string := "unknown (assumed hybrid)"
  const NeutralType: string := "neutral (remote not preferred in profile)"
  const NotPreferredText: string := "Remote work not specified as preference in profile."

  /** A rule with `config.get('score', 0)` and `config.get('patterns', [])` applied. */
  function GroupOf(rule: RemoteRule): PatternGroup {
    PatternGroup(rule.score.GetOr(0.0), rule.patterns.GetOr([]))
  }

  function GroupEntries(rules: seq<RemoteRule>): (r: seq<Entry<string, PatternGroup>>)
    ensures |r| == |rules|
    ensures forall i :: 0 <= i < |rules| ==> r[i] == Entry(rules[i].typeName, GroupOf(rules[i]))
  {
    seq(|rules|, i requires 0 <= i < |rules| => Entry(rules[i].typeName, GroupOf(rules[i])))
  }

  predicate AllValid(rules: seq<RemoteRule>, valid: string -> bool) {
    forall i, p :: 0 <= i < |rules| && p in GroupOf(rules[i]).patterns ==> valid(p)
  }

  function InvalidPattern(p: string): string {
    "invalid regular expression: " + p
  }

  /**
   * `_build_patterns`: every group with its score and compiled patterns. A
   * pattern that does not compile raises out of the constructor, which is the
   * `Failure` naming that pattern.
   */
  method BuildPatterns(rules: seq<RemoteRule>, valid: string -> bool)
    returns (r: Result<seq<Entry<string, PatternGroup>>>)
    ensures r.Success? <==> AllValid(rules, valid)
    ensures r.Success? ==> r.value == PutAll([], GroupEntries(rules))
    ensures r.Failure? ==> exists i, p :: 0 <= i < |rules| && p in GroupOf(rules[i]).patterns && !valid(p)
                                          && r.error == InvalidPattern(p)
  {
    var es := GroupEntries(rules);
    var table: seq<Entry<string, PatternGroup>> := [];
    for i := 0 to |rules|
      invariant table == PutAll([], es[..i])
      invariant forall k, p :: 0 <= k < i && p in GroupOf(rules[k]).patterns ==> valid(p)
    {
      var g := GroupOf(rules[i]);
      for j := 0 to |g.patterns|
        invariant forall q :: q in g.patterns[..j] ==> valid(q)
      {
        if !valid(g.patterns[j]) {
          return Failure(InvalidPattern(g.patterns[j]));
        }
        assert g.patterns[..j + 1] == g.patterns[..j] + [g.patterns[j]];
      }
      assert g.patterns[..|g.patterns|] == g.patterns;
      PutAllSnoc([], es[..i], es[i]);
      assert es[..i + 1] == es[..i] + [es[i]];
      table := Put(table, rules[i].typeName, g);
    }
    assert es[..|rules|] == es;
    return Success(table);
  }

  predicate AnyPatternFound(patterns: seq<string>, text: string, search: (string, string) -> bool) {
    exists p :: p in patterns && search(p, text)
  }

  /** The group `order[r]` is present and has a pattern found in the text. */
  predicate GroupMatches(groups: seq<Entry<string, PatternGroup>>, name: string, text: string,
                         search: (string, string) -> bool) {
    Get(groups, name).Some? && AnyPatternFound(Get(groups, name).value.patterns, text, search)
  }

  /** The position in `order` of the first present group with a pattern found, or `|order|` when there is none. */
  function ClassifyIndex(groups: seq<Entry<string, PatternGroup>>, order: seq<string>, text: string,
                         search: (string, string) -> bool): (r: nat)
    ensures r <= |order|
    ensures r < |order| ==> GroupMatches(groups, order[r], text, search)
    ensures forall j :: 0 <= j < r ==> !GroupMatches(groups, order[j], text, search)
    decreases |order|
  {
    if |order| == 0 then 0
    else if GroupMatches(groups, order[0], text, search) then 0
    else 1 + ClassifyIndex(groups, order[1..], text, search)
  }

  /** `f"{remote_type} {description}"`. */
  function RemoteText(remoteType: string, description: string): string {
    remoteType + " " + description
  }

  /** `_match_patterns`: the score and name of the first matching group in `MatchOrder`, else 0 and unknown. */
  method MatchPatterns(groups: seq<Entry<string, PatternGroup>>, description: string, remoteType: string,
                       search: (string, string) -> bool)
    returns (score: real, name: string)
    ensures var i := ClassifyIndex(groups, MatchOrder, RemoteText(remoteType, description), search);
            if i < |MatchOrder| then name == MatchOrder[i] && score == Get(groups, MatchOrder[i]).value.score
            else score == 0.0 && name == UnknownType
  {
    var text := RemoteText(remoteType, description);
    for i := 0 to |MatchOrder|
      invariant forall j :: 0 <= j < i ==> !GroupMatches(groups, MatchOrder[j], text, search)
    {
      var typeName := MatchOrder[i];
      var config := Get(groups, typeName);
      if config.None? {
        continue;
      }
      var patterns := config.value.patterns;
      for k := 0 to |patterns|
        invariant forall q :: q in patterns[..k] ==> !search(q, text)
      {
        if search(patterns[k], text) {
          return config.value.score, typeName;
        }
        assert patterns[..k + 1] == patterns[..k] + [patterns[k]];
      }
      assert patterns[..|patterns|] == patterns;
    }
    return 0.0, UnknownType;
  }

  /** Groups outside the match order (such as `hybrid_flexible`) never influence the classification. */
  lemma {:induction false} OnlyOrderedGroupsMatter(g1: seq<Entry<string, PatternGroup>>, g2: seq<Entry<string, PatternGroup>>,
                                                   order: seq<string>, text: string, search: (string, string) -> bool)
    requires forall n :: n in order ==> Get(g1, n) == Get(g2, n)
    ensures ClassifyIndex(g1, order, text, search) == ClassifyIndex(g2, order, text, search)
    decreases |order|
  {
    if |order| > 0 {
      OnlyOrderedGroupsMatter(g1, g2, order[1..], text, search);
    }
  }

  function Tone(raw: real): (r: string)
    ensures r == "positive" <==> raw > 0.0
    ensures r == "negative" <==> raw < 0.0
    ensures r == "neutral" <==> raw == 0.0
  {
    if raw > 0.0 then "positive" else if raw < 0.0 then "negative" else "neutral"
  }

  /** `_generate_explanation`; the group name is shown with `_` replaced by spaces. */
  function RemoteExplanation(matchedType: string, raw: real, preferred: bool): Message {
    if !preferred then Plain(NotPreferredText)
    else [Lit("Remote type: " + ReplaceAll(matchedType, "_", " ") + " (" + Tone(raw) + ", "),
          Num(raw, Signed0), Lit(" raw score).")]
  }

  /**
   * What `calculate` returns: the first matching group's raw score when the
   * profile prefers remote work, raw 0 otherwise, normalised from [-3, 5].
   */
  predicate Calculated(c: RemoteComponent, job: Job, preferred: bool, search: (string, string) -> bool, r: ComponentScore) {
    && r.maxScore == c.maxScore && (c.maxScore >= 0.0 ==> 0.0 <= r.score <= c.maxScore)
    && (var i := ClassifyIndex(c.patterns, MatchOrder, RemoteText(OrEmpty(job.remoteType), job.description), search);
        var matchedRaw := if i < |MatchOrder| then Get(c.patterns, MatchOrder[i]).value.score else 0.0;
        var matchedName := if i < |MatchOrder| then MatchOrder[i] else UnknownType;
        && r.rawScore == (if preferred then matchedRaw else 0.0)
        && r.details == RemoteDetails(if preferred then matchedName else NeutralType, OrEmpty(job.remoteType), preferred))
    && r.explanation == RemoteExplanation(r.details.matchedType, r.rawScore, preferred)
    && r.score == Clamp(NormalizeScore(c.maxScore, r.rawScore, RawMin, RawMax), 0.0, c.maxScore)
    && (c.maxScore >= 0.0 ==> r.score == NormalizeScore(c.maxScore, r.rawScore, RawMin, RawMax))
  }

  /**
   * `calculate`: the classification's raw score when the profile prefers
   * remote work, otherwise raw 0 whatever the text says; normalised from [-3, 5].
   */
  method Calculate(c: RemoteComponent, job: Job, preferred: bool, search: (string, string) -> bool)
    returns (r: ComponentScore)
    ensures Calculated(c, job, preferred, search, r)
  {
    var remoteType := OrEmpty(job.remoteType);
    var raw, matchedType := MatchPatterns(c.patterns, job.description, remoteType, search);
    if !preferred {
      raw := 0.0;
      matchedType := NeutralType;
    }
    var normalized := NormalizeScore(c.maxScore, raw, RawMin, RawMax);
    r := NewComponentScore(normalized, raw, c.maxScore, RemoteExplanation(matchedType, raw, preferred),
                           Some(RemoteDetails(matchedType, remoteType, preferred)));
  }

  /** A profile that does not prefer remote work gets three eighths of the budget, not zero. */
  lemma NotPreferredIsThreeEighths(maxScore: real)
    requires maxScore >= 0.0
    ensures NormalizeScore(maxScore, 0.0, RawMin, RawMax) == 3.0 / 8.0 * maxScore
  {
    NormalizeLinear(maxScore, 0.0, RawMin, RawMax);
  }
}
