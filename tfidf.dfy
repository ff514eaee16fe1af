/**
 * The text-similarity scoring component. The TF-IDF matcher is outside the
 * model: its similarity of the description to the profile text and its term
 * weights of the description are parameters, each either the value the
 * matcher returned or the error it raised.
 */
module TfidfScoring {
  import opened Wrappers
  import opened Explain
  import opened ScoringBase
  import Lists

  datatype TfidfComponent = TfidfComponent(maxScore: real)

  /** The similarity tier named in the explanation. */
  function Level(similarity: real): (r: string)
    ensures similarity >= 0.7 ==> r == "Very high"
    ensures 0.5 <= similarity < 0.7 ==> r == "High"
    ensures 0.3 <= similarity < 0.5 ==> r == "Medium"
    ensures 0.15 <= similarity < 0.3 ==> r == "Low"
    ensures similarity < 0.15 ==> r == "Very low"
  {
    if similarity >= 0.7 then "Very high"
    else if similarity >= 0.5 then "High"
    else if similarity >= 0.3 then "Medium"
    else if similarity >= 0.15 then "Low"
    else "Very low"
  }

  const StrongMatchText: string := "Job description significantly matches your profile."
  const WeakMatchText: string := "Some overlap with your profile."

  /** `_generate_explanation`: the tier, the percentage, and a closing sentence that switches at 0.5. */
  function TfidfExplanation(similarity: real): (m: Message)
    ensures |m| == 3 && m[1] == Num(similarity, Percent2)
    ensures m[2] == Lit("). " + (if similarity >= 0.5 then StrongMatchText else WeakMatchText))
  {
    [Lit(Level(similarity) + " text similarity ("), Num(similarity, Percent2),
     Lit("). " + (if similarity >= 0.5 then StrongMatchText else WeakMatchText))]
  }

  /**
   * `calculate`: raw is the similarity and the score is similarity times the
   * budget (then clamped); an error from either matcher call gives the zero
   * error result.
   */
  function Calculate(c: TfidfComponent, similarity: Result<real>, jobTerms: Result<seq<string>>): (r: ComponentScore)
    ensures r.maxScore == c.maxScore && (c.maxScore >= 0.0 ==> 0.0 <= r.score <= c.maxScore)
    ensures similarity.Failure? ==> r == ErrorScore(c.maxScore, similarity.error)
    ensures similarity.Success? && jobTerms.Failure? ==> r == ErrorScore(c.maxScore, jobTerms.error)
    ensures similarity.Success? && jobTerms.Success? ==>
              && r.rawScore == similarity.value
              && r.score == Clamp(similarity.value * c.maxScore, 0.0, c.maxScore)
              && r.details == TfidfDetails(similarity.value, Lists.Take(jobTerms.value, 10))
              && r.explanation == TfidfExplanation(similarity.value)
  {
    if similarity.Failure? then ErrorScore(c.maxScore, similarity.error)
    else if jobTerms.Failure? then ErrorScore(c.maxScore, jobTerms.error)
    else
      var s := similarity.value;
      NewComponentScore(s * c.maxScore, s, c.maxScore, TfidfExplanation(s),
                        Some(TfidfDetails(s, Lists.Take(jobTerms.value, 10))))
  }

  /** A similarity in [0, 1] is scaled without clamping: the score is exactly similarity times the budget. */
  lemma SimilarityScalesExactly(c: TfidfComponent, similarity: real, jobTerms: seq<string>)
    requires 0.0 <= similarity <= 1.0 && c.maxScore >= 0.0
    ensures Calculate(c, Success(similarity), Success(jobTerms)).score == similarity * c.maxScore
  {
    var x := similarity * c.maxScore;
    ScaleInRange(similarity, c.maxScore);
    assert 0.0 <= x <= c.maxScore;
    assert Calculate(c, Success(similarity), Success(jobTerms)).score == Clamp(x, 0.0, c.maxScore);
  }
}
