/**
 * The keyword scoring component: a table of lower-cased phrases with point
 * deltas, and a score that adds the delta of every phrase occurring in the
 * lower-cased title and description, clamped into the budget.
 */
module KeywordScoring {
  import opened Wrappers
  import opened Tables
  import opened Text
  import opened Explain
  import opened Jobs
  import opened ScoringBase
  import Lists

  /** The `keywords` section of the scoring rules. */
  datatype KeywordRules = KeywordRules(urgency: seq<Rule>, positive: seq<Rule>, negative: seq<Rule>)

  datatype KeywordComponent = KeywordComponent(maxScore: real, keywords: seq<Entry<string, real>>)

  /** Every assignment `_build_keywords` makes, in reading order: urgency, positive, negative. */
  function KeywordAssignments(rules: KeywordRules): seq<Entry<string, real>> {
    RuleEntries(rules.urgency) + RuleEntries(rules.positive) + RuleEntries(rules.negative)
  }

  method BuildKeywords(rules: KeywordRules) returns (table: seq<Entry<string, real>>)
    ensures table == PutAll([], KeywordAssignments(rules))
    ensures DistinctKeys(table) && LowerKeys(table)
    ensures forall k :: Get(table, k) == LastValue(KeywordAssignments(rules), k)
  {
    var urgency, positive, negative := RuleEntries(rules.urgency), RuleEntries(rules.positive), RuleEntries(rules.negative);
    table := AddRules([], rules.urgency);
    table := AddRules(table, rules.positive);
    table := AddRules(table, rules.negative);
    PutAllAppend([], urgency, positive);
    PutAllAppend([], urgency + positive, negative);
    PutAllDistinct([], KeywordAssignments(rules));
    RuleEntriesLower(rules.urgency);
    RuleEntriesLower(rules.positive);
    RuleEntriesLower(rules.negative);
    assert LowerKeys(KeywordAssignments(rules));
    PutAllLowerKeys([], KeywordAssignments(rules));
    forall k ensures Get(table, k) == LastValue(KeywordAssignments(rules), k) {
      GetPutAll([], KeywordAssignments(rules), k);
    }
  }

  /** `f"{job.title} {job.description}".lower()`. */
  function CombinedText(job: Job): string {
    Lower(job.title + " " + job.description)
  }

  /** The table entries whose phrase occurs in `text`, in table order. */
  function MatchedIn(table: seq<Entry<string, real>>, text: string): seq<Entry<string, real>>
    decreases |table|
  {
    if |table| == 0 then []
    else
      var last := table[|table| - 1];
      MatchedIn(table[..|table| - 1], text) + (if Contains(text, last.key) then [last] else [])
  }

  function SumValues(es: seq<Entry<string, real>>): real
    decreases |es|
  {
    if |es| == 0 then 0.0 else SumValues(es[..|es| - 1]) + es[|es| - 1].value
  }

  /** An entry is matched exactly when it is in the table and its phrase occurs in the text. */
  lemma {:induction false} MatchedInIff(table: seq<Entry<string, real>>, text: string, e: Entry<string, real>)
    ensures e in MatchedIn(table, text) <==> e in table && Contains(text, e.key)
    decreases |table|
  {
    if |table| > 0 {
      MatchedInIff(table[..|table| - 1], text, e);
      assert table == table[..|table| - 1] + [table[|table| - 1]];
    }
  }

  /** The matched entries keep the table's order: they form a subsequence, so a dict stays a dict. */
  lemma {:induction false} MatchedInDistinct(table: seq<Entry<string, real>>, text: string)
    requires DistinctKeys(table)
    ensures DistinctKeys(MatchedIn(table, text))
    decreases |table|
  {
    if |table| > 0 {
      var init, last := table[..|table| - 1], table[|table| - 1];
      assert DistinctKeys(init);
      MatchedInDistinct(init, text);
      var m := MatchedIn(init, text);
      forall e | e in m ensures e.key != last.key {
        MatchedInIff(init, text, e);
        var i :| 0 <= i < |init| && init[i] == e;
        assert table[i] == e;
      }
    }
  }

  /**
   * Nested phrases both count: when a listed phrase occurs and another listed
   * phrase is part of it, both are matched.
   */
  lemma NestedPhrasesBothCount(table: seq<Entry<string, real>>, text: string,
                               outer: Entry<string, real>, inner: Entry<string, real>)
    requires outer in table && inner in table
    requires Contains(text, outer.key) && Contains(outer.key, inner.key)
    ensures outer in MatchedIn(table, text) && inner in MatchedIn(table, text)
  {
    ContainsTrans(text, outer.key, inner.key);
    MatchedInIff(table, text, outer);
    MatchedInIff(table, text, inner);
  }

  /** Entries with a positive (`positive`) or a negative (`!positive`) delta, in order. */
  function WithSign(es: seq<Entry<string, real>>, positive: bool): (r: seq<Entry<string, real>>)
    ensures |r| <= |es|
    ensures forall e :: e in r ==> e in es
    ensures forall e :: e in r ==> (if positive then e.value > 0.0 else e.value < 0.0)
    decreases |es|
  {
    if |es| == 0 then []
    else
      (if (positive && es[0].value > 0.0) || (!positive && es[0].value < 0.0) then [es[0]] else [])
      + WithSign(es[1..], positive)
  }

  /** `f"'{k}' ({v:+.0f})"` or `f"'{k}' ({v:.0f})"` for each entry. */
  function ItemTexts(es: seq<Entry<string, real>>, format: NumFormat): (r: seq<Message>)
    ensures |r| == |es|
  {
    seq(|es|, i requires 0 <= i < |es| => [Lit("'" + es[i].key + "' ("), Num(es[i].value, format), Lit(")")])
  }

  /** `_generate_explanation`: up to three positive and up to two negative matches, in table order. */
  function KeywordExplanation(matched: seq<Entry<string, real>>): Message {
    if |matched| == 0 then Plain("No significant keywords matched.")
    else
      var pos, neg := WithSign(matched, true), WithSign(matched, false);
      var parts :=
        (if |pos| > 0 then [[Lit("Positive: ")] + JoinMessages(ItemTexts(Lists.Take(pos, 3), Signed0), ", ")] else [])
        + (if |neg| > 0 then [[Lit("Negative: ")] + JoinMessages(ItemTexts(Lists.Take(neg, 2), Fixed0), ", ")] else []);
      JoinMessages(parts, "; ") + [Lit(".")]
  }

  lemma {:induction false} ItemTextsCount(es: seq<Entry<string, real>>, format: NumFormat)
    ensures SumNumCounts(ItemTexts(es, format)) == |es|
    decreases |es|
  {
    if |es| > 0 {
      var t := ItemTexts(es, format);
      assert t[1..] == ItemTexts(es[1..], format);
      ItemTextsCount(es[1..], format);
      var m := t[0];
      assert m == [Lit("'" + es[0].key + "' ("), Num(es[0].value, format), Lit(")")];
      assert NumCount(m) == 1 by {
        assert m[1..] == [Num(es[0].value, format), Lit(")")];
        assert m[1..][1..] == [Lit(")")];
        assert m[1..][1..][1..] == [];
        assert NumCount(m[1..][1..]) == 0;
        assert NumCount(m[1..]) == 1;
      }
      assert SumNumCounts(t) == NumCount(t[0]) + SumNumCounts(t[1..]);
    }
  }

  lemma GroupCount(head: string, es: seq<Entry<string, real>>, format: NumFormat)
    ensures NumCount([Lit(head)] + JoinMessages(ItemTexts(es, format), ", ")) == |es|
  {
    NumCountConcat([Lit(head)], JoinMessages(ItemTexts(es, format), ", "));
    NumCountJoin(ItemTexts(es, format), ", ");
    ItemTextsCount(es, format);
  }

  /** The explanation names at most three positive and at most two negative matches. */
  lemma KeywordExplanationBound(matched: seq<Entry<string, real>>)
    requires |matched| > 0
    ensures NumCount(KeywordExplanation(matched))
         == |Lists.Take(WithSign(matched, true), 3)| + |Lists.Take(WithSign(matched, false), 2)|
  {
    var pos, neg := WithSign(matched, true), WithSign(matched, false);
    var pp := if |pos| > 0 then [[Lit("Positive: ")] + JoinMessages(ItemTexts(Lists.Take(pos, 3), Signed0), ", ")] else [];
    var nn := if |neg| > 0 then [[Lit("Negative: ")] + JoinMessages(ItemTexts(Lists.Take(neg, 2), Fixed0), ", ")] else [];
    GroupCount("Positive: ", Lists.Take(pos, 3), Signed0);
    GroupCount("Negative: ", Lists.Take(neg, 2), Fixed0);
    assert KeywordExplanation(matched) == JoinMessages(pp + nn, "; ") + [Lit(".")];
    NumCountJoin(pp + nn, "; ");
    NumCountConcat(JoinMessages(pp + nn, "; "), [Lit(".")]);
    if |pp| > 0 && |nn| > 0 {
      assert (pp + nn)[1..] == nn;
      assert nn[1..] == [];
      assert SumNumCounts(pp + nn) == NumCount(pp[0]) + SumNumCounts(nn);
    } else if |pp| > 0 {
      assert pp + nn == pp;
      assert pp[1..] == [];
    } else if |nn| > 0 {
      assert pp + nn == nn;
      assert nn[1..] == [];
    } else {
      assert pp + nn == [];
    }
  }

  /** Matches whose every delta is zero leave only the closing full stop. */
  lemma ZeroMatchesExplanation(matched: seq<Entry<string, real>>)
    requires |matched| > 0
    requires forall e :: e in matched ==> e.value == 0.0
    ensures KeywordExplanation(matched) == [Lit(".")]
  {
  }

  /** What `calculate` returns: the matched deltas summed and clamped into the budget, with their details. */
  predicate Calculated(c: KeywordComponent, job: Job, r: ComponentScore) {
    && r.maxScore == c.maxScore && (c.maxScore >= 0.0 ==> 0.0 <= r.score <= c.maxScore)
    && r.rawScore == SumValues(MatchedIn(c.keywords, CombinedText(job)))
    && r.score == Clamp(r.rawScore, 0.0, c.maxScore)
    && r.details == KeywordDetails(MatchedIn(c.keywords, CombinedText(job)), |c.keywords|)
    && r.explanation == KeywordExplanation(MatchedIn(c.keywords, CombinedText(job)))
  }

  /**
   * `calculate`: the sum of the deltas of every table phrase occurring in the
   * combined text, clamped into [0, maxScore]; the matches in table order.
   */
  method Calculate(c: KeywordComponent, job: Job) returns (r: ComponentScore)
    ensures Calculated(c, job, r)
  {
    var text := CombinedText(job);
    var table := c.keywords;
    var raw := 0.0;
    var matched: seq<Entry<string, real>> := [];
    for i := 0 to |table|
      invariant matched == MatchedIn(table[..i], text)
      invariant raw == SumValues(matched)
    {
      var e := table[i];
      MatchedInSnoc(table, i, text);
      if Contains(text, e.key) {
        SumValuesSnoc(matched, e);
        raw := raw + e.value;
        matched := matched + [e];
      }
    }
    assert table[..|table|] == table;
    var normalized := Clamp(raw, 0.0, c.maxScore);
    r := NewComponentScore(normalized, raw, c.maxScore, KeywordExplanation(matched),
                           Some(KeywordDetails(matched, |table|)));
  }

  lemma MatchedInSnoc(table: seq<Entry<string, real>>, i: int, text: string)
    requires 0 <= i < |table|
    ensures MatchedIn(table[..i + 1], text)
         == MatchedIn(table[..i], text) + (if Contains(text, table[i].key) then [table[i]] else [])
  {
    assert table[..i + 1][..i] == table[..i];
  }

  lemma SumValuesSnoc(es: seq<Entry<string, real>>, e: Entry<string, real>)
    ensures SumValues(es + [e]) == SumValues(es) + e.value
  {
    assert (es + [e])[..|es|] == es;
  }

  /** No matched phrase gives raw 0, score 0 and the fixed message. */
  lemma NoMatchGivesZero(table: seq<Entry<string, real>>, text: string, maxScore: real)
    requires forall e :: e in table ==> !Contains(text, e.key)
    ensures MatchedIn(table, text) == []
    ensures SumValues(MatchedIn(table, text)) == 0.0
    ensures Clamp(SumValues(MatchedIn(table, text)), 0.0, maxScore) == 0.0
    ensures KeywordExplanation(MatchedIn(table, text)) == Plain("No significant keywords matched.")
  {
    if MatchedIn(table, text) != [] {
      var e := MatchedIn(table, text)[0];
      MatchedInIff(table, text, e);
    }
  }
}
