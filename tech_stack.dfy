/**
 * The tech-stack scoring component: a table of technology terms with points,
 * built from three rule groups, and a score that sums the points of the
 * distinct (lower-cased) technologies of a posting, clamped into the budget.
 */
module TechStackScoring {
  import opened Wrappers
  import opened Tables
  import opened Text
  import opened Explain
  import opened Jobs
  import opened ScoringBase
  import Sorting

  /** The `tech_stack` section of the scoring rules. */
  datatype TechRules = TechRules(highPriority: seq<Rule>, mediumPriority: seq<Rule>, negative: seq<Rule>)

  datatype TechStackComponent = TechStackComponent(maxScore: real, techScores: seq<Entry<string, real>>)

  /** Every assignment `_build_tech_scores` makes, in reading order: high, then medium, then negative. */
  function TechAssignments(rules: TechRules): seq<Entry<string, real>> {
    RuleEntries(rules.highPriority) + RuleEntries(rules.mediumPriority) + RuleEntries(rules.negative)
  }

  method BuildTechScores(rules: TechRules) returns (table: seq<Entry<string, real>>)
    ensures table == PutAll([], TechAssignments(rules))
    ensures DistinctKeys(table) && LowerKeys(table)
    ensures forall k :: Get(table, k) == LastValue(TechAssignments(rules), k)
  {
    var high, medium, negative := RuleEntries(rules.highPriority), RuleEntries(rules.mediumPriority), RuleEntries(rules.negative);
    table := AddRules([], rules.highPriority);
    table := AddRules(table, rules.mediumPriority);
    table := AddRules(table, rules.negative);
    PutAllAppend([], high, medium);
    PutAllAppend([], high + medium, negative);
    PutAllDistinct([], TechAssignments(rules));
    RuleEntriesLower(rules.highPriority);
    RuleEntriesLower(rules.mediumPriority);
    RuleEntriesLower(rules.negative);
    assert LowerKeys(TechAssignments(rules));
    PutAllLowerKeys([], TechAssignments(rules));
    forall k ensures Get(table, k) == LastValue(TechAssignments(rules), k) {
      GetPutAll([], TechAssignments(rules), k);
    }
  }

  /** A term listed in the negative group scores its negative value, whatever the other groups say. */
  lemma NegativeGroupWins(rules: TechRules, k: string)
    requires LastValue(RuleEntries(rules.negative), k).Some?
    ensures LastValue(TechAssignments(rules), k) == LastValue(RuleEntries(rules.negative), k)
  {
    LastValueAppend(RuleEntries(rules.highPriority) + RuleEntries(rules.mediumPriority), RuleEntries(rules.negative), k);
  }

  /** A term of the medium group that the negative group does not list scores its medium value. */
  lemma MediumBeatsHigh(rules: TechRules, k: string)
    requires LastValue(RuleEntries(rules.negative), k).None?
    requires LastValue(RuleEntries(rules.mediumPriority), k).Some?
    ensures LastValue(TechAssignments(rules), k) == LastValue(RuleEntries(rules.mediumPriority), k)
  {
    LastValueAppend(RuleEntries(rules.highPriority) + RuleEntries(rules.mediumPriority), RuleEntries(rules.negative), k);
    LastValueAppend(RuleEntries(rules.highPriority), RuleEntries(rules.mediumPriority), k);
  }

  /** Points of one distinct posting technology: its table value, nothing when it is not in the table. */
  function TechPoints(table: seq<Entry<string, real>>, t: string): real {
    if Get(table, t).Some? then Get(table, t).value else 0.0
  }

  /** The sum of the points of a set of technologies. */
  ghost function SetPoints(table: seq<Entry<string, real>>, s: set<string>): real
    decreases s
  {
    if s == {} then 0.0
    else
      var t :| t in s;
      TechPoints(table, t) + SetPoints(table, s - {t})
  }

  /** The sum does not depend on the order in which the set is visited. */
  lemma SetPointsRemove(table: seq<Entry<string, real>>, s: set<string>, x: string)
    requires x in s
    ensures SetPoints(table, s) == TechPoints(table, x) + SetPoints(table, s - {x})
    decreases s
  {
    var y :| y in s && SetPoints(table, s) == TechPoints(table, y) + SetPoints(table, s - {y});
    if y != x {
      SetPointsRemove(table, s - {y}, x);
      SetPointsRemove(table, s - {x}, y);
      assert s - {y} - {x} == s - {x} - {y};
    }
  }

  /** A technology the table does not list adds nothing to the sum. */
  lemma UnknownTechAddsNothing(table: seq<Entry<string, real>>, s: set<string>, u: string)
    requires u !in Keys(table)
    ensures SetPoints(table, s + {u}) == SetPoints(table, s)
  {
    if u !in s {
      SetPointsRemove(table, s + {u}, u);
      assert s + {u} - {u} == s;
    } else {
      assert s + {u} == s;
    }
  }

  /** When no listed technology has positive points the sum is not positive, so the score floors at 0. */
  lemma {:induction false} SetPointsNonPositive(table: seq<Entry<string, real>>, s: set<string>)
    requires forall t :: t in s ==> TechPoints(table, t) <= 0.0
    ensures SetPoints(table, s) <= 0.0
    decreases s
  {
    if s != {} {
      var t :| t in s;
      SetPointsRemove(table, s, t);
      SetPointsNonPositive(table, s - {t});
    }
  }

  /** `matched_tech`: each distinct posting technology found in the table, with its points. */
  function Matched(table: seq<Entry<string, real>>, techs: set<string>): map<string, real> {
    map t | t in techs && Get(table, t).Some? :: Get(table, t).value
  }

  /** Adding one technology to the visited part extends the matched map by its entry, if it has one. */
  lemma MatchedAdd(table: seq<Entry<string, real>>, done: set<string>, t: string)
    requires t !in done
    ensures Matched(table, done + {t})
         == if Get(table, t).Some? then Matched(table, done)[t := Get(table, t).value] else Matched(table, done)
  {
  }

  /** Visiting one more technology moves it from the rest to the visited part. */
  lemma SumPointsStep(table: seq<Entry<string, real>>, techs: set<string>, rest: set<string>, done: set<string>,
                      tech: string)
    requires rest <= techs && done == techs - rest && tech in rest
    ensures rest - {tech} <= techs && done + {tech} == techs - (rest - {tech})
    ensures SetPoints(table, rest) == TechPoints(table, tech) + SetPoints(table, rest - {tech})
    ensures tech !in Matched(table, done)
    ensures Matched(table, done + {tech})
         == if Get(table, tech).Some? then Matched(table, done)[tech := Get(table, tech).value] else Matched(table, done)
  {
    SetPointsRemove(table, rest, tech);
    MatchedAdd(table, done, tech);
  }

  /** The accumulating loop of `calculate`: raw points, the matched map, and the matches in visiting order. */
  method SumPoints(table: seq<Entry<string, real>>, techs: set<string>)
    returns (raw: real, matched: map<string, real>, found: seq<Entry<string, real>>)
    ensures raw == SetPoints(table, techs)
    ensures matched == Matched(table, techs)
    ensures |found| == |matched|
  {
    raw := 0.0;
    matched := map[];
    found := [];
    var rest := techs;
    ghost var done: set<string> := {};
    while rest != {}
      invariant rest <= techs && done == techs - rest
      invariant raw + SetPoints(table, rest) == SetPoints(table, techs)
      invariant matched == Matched(table, done)
      invariant |found| == |matched|
      decreases |rest|
    {
      var tech :| tech in rest;
      SumPointsStep(table, techs, rest, done, tech);
      var entry := Get(table, tech);
      if entry.Some? {
        raw := raw + entry.value;
        matched := matched[tech := entry.value];
        found := found + [Entry(tech, entry.value)];
      }
      rest := rest - {tech};
      done := done + {tech};
    }
  }

  const NoneNotIterable: string := "'NoneType' object is not iterable"

  /** The explanation when nothing matched. */
  function NoMatchExplanation(jobTechCount: nat): Message {
    [Lit("No scored technologies matched. Job requires "), Int(jobTechCount), Lit(" technologies.")]
  }

  function Abs(x: real): real {
    if x < 0.0 then -x else x
  }

  function CountWhere(es: seq<Entry<string, real>>, positive: bool): nat
    decreases |es|
  {
    if |es| == 0 then 0
    else (if (positive && es[0].value > 0.0) || (!positive && es[0].value < 0.0) then 1 else 0)
         + CountWhere(es[1..], positive)
  }

  function TopMatchText(es: seq<Entry<string, real>>): seq<Message> {
    seq(|es|, i requires 0 <= i < |es| => [Lit(es[i].key + " ("), Num(es[i].value, Signed0), Lit(")")])
  }

  /**
   * `_generate_explanation`, given the matches in the order they were found:
   * the counts, then the three matches with the largest absolute points.
   */
  function TechExplanation(found: seq<Entry<string, real>>, jobTechCount: nat): Message {
    if |found| == 0 then NoMatchExplanation(jobTechCount)
    else
      var sorted := Sorting.SortDesc(found, (e: Entry<string, real>) => Sorting.Key(0, Abs(e.value)));
      var top3 := if |sorted| <= 3 then sorted else sorted[..3];
      [Lit("Matched "), Int(|found|), Lit("/"), Int(jobTechCount), Lit(" technologies ("),
       Int(CountWhere(found, true)), Lit(" positive, "), Int(CountWhere(found, false)), Lit(" negative). ")]
      + [Lit("Top matches: ")] + JoinMessages(TopMatchText(top3), ", ") + [Lit(".")]
  }

  /**
   * What `calculate` returns: the budget, a score within it, the error result
   * for a missing tech stack or a failing profile lookup, and otherwise the
   * clamped point sum, the matched technologies and, when nothing matched,
   * the fixed explanation. With matches the explanation depends on the order
   * in which the set of technologies is visited, which is left open.
   */
  ghost predicate Calculated(c: TechStackComponent, job: Job, skills: Result<seq<string>>, r: ComponentScore) {
    && r.maxScore == c.maxScore && (c.maxScore >= 0.0 ==> 0.0 <= r.score <= c.maxScore)
    && (job.techStack.None? ==> r == ErrorScore(c.maxScore, NoneNotIterable))
    && (job.techStack.Some? && skills.Failure? ==> r == ErrorScore(c.maxScore, skills.error))
    && (job.techStack.Some? && skills.Success? ==>
          && r.rawScore == SetPoints(c.techScores, LowerSet(job.techStack.value))
          && r.score == Clamp(r.rawScore, 0.0, c.maxScore)
          && r.details == TechDetails(Matched(c.techScores, LowerSet(job.techStack.value)),
                                      |LowerSet(job.techStack.value)|, |LowerSet(skills.value)|)
          && (Matched(c.techScores, LowerSet(job.techStack.value)) == map[] ==>
                r.explanation == NoMatchExplanation(|LowerSet(job.techStack.value)|)))
  }

  /**
   * `calculate`: the sum of the points of the distinct lower-cased posting
   * technologies, clamped into [0, maxScore]. A missing tech stack or a
   * failing profile lookup ends in the zero error result.
   */
  method Calculate(c: TechStackComponent, job: Job, skills: Result<seq<string>>) returns (r: ComponentScore)
    ensures Calculated(c, job, skills, r)
  {
    if job.techStack.None? {
      return ErrorScore(c.maxScore, NoneNotIterable);
    }
    var jobTech := LowerSet(job.techStack.value);
    if skills.Failure? {
      return ErrorScore(c.maxScore, skills.error);
    }
    var profileSkills := LowerSet(skills.value);
    var raw, matched, found := SumPoints(c.techScores, jobTech);
    var normalized := Clamp(raw, 0.0, c.maxScore);
    r := NewComponentScore(normalized, raw, c.maxScore, TechExplanation(found, |jobTech|),
                           Some(TechDetails(matched, |jobTech|, |profileSkills|)));
  }
}
