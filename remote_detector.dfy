/**
 * The remote-work-type detector used by the German scrapers. It answers
 * "Remote", "Hybrid" or "Onsite", trying in turn the source's HTML markers,
 * the scoring rules' regular expressions (most permissive group first) and
 * a keyword fallback. Regular-expression search is the parameter
 * `search(pattern, text)` and whether a pattern compiles is `valid(pattern)`.
 * Of an HTML job card only the texts the detector reads are kept.
 */
module RemoteDetector {
  import opened Wrappers
  import opened Tables
  import opened Text
  import opened Lists
  import RemoteScoring

  type Groups = seq<Entry<string, RemoteScoring.PatternGroup>>

  // ---------------------------------------------------------------------------
  // _load_patterns
  // ---------------------------------------------------------------------------

  /** A rule's group with only the patterns that compile, in order. */
  function CompiledGroup(rule: RemoteScoring.RemoteRule, valid: string -> bool): RemoteScoring.PatternGroup {
    var g := RemoteScoring.GroupOf(rule);
    RemoteScoring.PatternGroup(g.score, Filter(g.patterns, valid))
  }

  function CompiledEntries(rules: seq<RemoteScoring.RemoteRule>, valid: string -> bool): (r: Groups)
    ensures |r| == |rules|
    ensures forall i :: 0 <= i < |rules| ==> r[i] == Entry(rules[i].typeName, CompiledGroup(rules[i], valid))
  {
    seq(|rules|, i requires 0 <= i < |rules| => Entry(rules[i].typeName, CompiledGroup(rules[i], valid)))
  }

  /** The inner loop of `_load_patterns`: the patterns that compile, in order; the others are logged and skipped. */
  method CompilePatterns(patterns: seq<string>, valid: string -> bool) returns (compiled: seq<string>)
    ensures compiled == Filter(patterns, valid)
    ensures forall p :: p in compiled <==> p in patterns && valid(p)
  {
    compiled := [];
    for i := 0 to |patterns|
      invariant compiled == Filter(patterns[..i], valid)
    {
      FilterStep(patterns, i, valid);
      if valid(patterns[i]) {
        compiled := compiled + [patterns[i]];
      }
    }
    assert patterns[..|patterns|] == patterns;
  }

  /**
   * `_load_patterns`: one group per rule, keyed by its type name (a later
   * rule with the same name replaces an earlier one). Rules that could not
   * be loaded (`Failure`) leave no groups at all.
   */
  method LoadPatterns(rules: Result<seq<RemoteScoring.RemoteRule>>, valid: string -> bool) returns (groups: Groups)
    ensures rules.Failure? ==> groups == []
    ensures rules.Success? ==> groups == PutAll([], CompiledEntries(rules.value, valid))
  {
    if rules.Failure? {
      return [];
    }
    var rs := rules.value;
    var es := CompiledEntries(rs, valid);
    groups := [];
    for i := 0 to |rs|
      invariant groups == PutAll([], es[..i])
    {
      var g := RemoteScoring.GroupOf(rs[i]);
      var compiled := CompilePatterns(g.patterns, valid);
      PutAllSnoc([], es[..i], es[i]);
      assert es[..i + 1] == es[..i] + [es[i]];
      groups := Put(groups, rs[i].typeName, RemoteScoring.PatternGroup(g.score, compiled));
    }
    assert es[..|rs|] == es;
  }

  /** Every pattern a loaded group holds compiles. */
  lemma LoadedPatternsValid(rules: seq<RemoteScoring.RemoteRule>, valid: string -> bool, name: string)
    ensures var g := Get(PutAll([], CompiledEntries(rules, valid)), name);
      g.Some? ==> forall p :: p in g.value.patterns ==> valid(p)
  {
    GetPutAll([], CompiledEntries(rules, valid), name);
    LastValueCompiled(CompiledEntries(rules, valid), name, valid);
  }

  lemma {:induction false} LastValueCompiled(es: Groups, name: string, valid: string -> bool)
    requires forall i :: 0 <= i < |es| ==> forall p :: p in es[i].value.patterns ==> valid(p)
    ensures LastValue(es, name).Some? ==> forall p :: p in LastValue(es, name).value.patterns ==> valid(p)
    decreases |es|
  {
    if |es| > 0 {
      LastValueCompiled(es[..|es| - 1], name, valid);
    }
  }

  // ---------------------------------------------------------------------------
  // detect
  // ---------------------------------------------------------------------------

  const RemoteLabel := "Remote"
  const HybridLabel := "Hybrid"
  const OnsiteLabel := "Onsite"

  predicate IsLabel(s: string) {
    s == RemoteLabel || s == HybridLabel || s == OnsiteLabel
  }

  /** The groups `_match_patterns` consults with the label each yields, most permissive first. */
  const PriorityOrder: seq<string> := ["full_remote", "hybrid_flexible", "hybrid_1day", "hybrid_2days", "onsite_required"]
  const PriorityLabels: seq<string> := [RemoteLabel, HybridLabel, HybridLabel, HybridLabel, OnsiteLabel]

  /** The detector tries the groups in the opposite order to the remote scorer, which also skips `hybrid_flexible`. */
  lemma OppositeOfScorerOrder()
    ensures RemoteScoring.MatchOrder == [PriorityOrder[4], PriorityOrder[3], PriorityOrder[2], PriorityOrder[0]]
  {
  }

  /** `_match_patterns`: the label of the first present group, in priority order, with a pattern found in the text. */
  function MatchPatterns(groups: Groups, text: string, search: (string, string) -> bool): (r: Option<string>)
    ensures r.Some? ==> IsLabel(r.value)
    ensures r.None? <==> forall j :: 0 <= j < |PriorityOrder| ==> !RemoteScoring.GroupMatches(groups, PriorityOrder[j], text, search)
    ensures r == Some(RemoteLabel) <==> RemoteScoring.GroupMatches(groups, "full_remote", text, search)
    ensures r == Some(OnsiteLabel) <==>
      RemoteScoring.GroupMatches(groups, "onsite_required", text, search)
      && forall j :: 0 <= j < 4 ==> !RemoteScoring.GroupMatches(groups, PriorityOrder[j], text, search)
  {
    var i := RemoteScoring.ClassifyIndex(groups, PriorityOrder, text, search);
    if i < |PriorityOrder| then Some(PriorityLabels[i]) else None
  }

  const FallbackRemoteKeywords: seq<string> := [
    "remote", "100%", "homeoffice", "home office", "work from home", "wfh",
    "fully remote", "full remote", "ortsunabhängig", "deutschlandweit remote"]
  const FallbackHybridKeywords: seq<string> := ["hybrid", "teilweise", "flexible", "remote möglich"]

  /** `_fallback_detection`: remote and hybrid keywords give Hybrid, remote alone Remote, hybrid alone Hybrid, neither Onsite. */
  function FallbackDetection(text: string): (r: string)
    ensures var t := Lower(text);
      (r == RemoteLabel <==> ContainsAny(t, FallbackRemoteKeywords) && !ContainsAny(t, FallbackHybridKeywords))
      && (r == HybridLabel <==> ContainsAny(t, FallbackHybridKeywords))
      && (r == OnsiteLabel <==> !ContainsAny(t, FallbackRemoteKeywords) && !ContainsAny(t, FallbackHybridKeywords))
  {
    var textLower := Lower(text);
    if exists kw :: kw in FallbackRemoteKeywords && Contains(textLower, kw) then
      if exists kw :: kw in FallbackHybridKeywords && Contains(textLower, kw) then HybridLabel
      else RemoteLabel
    else if exists kw :: kw in FallbackHybridKeywords && Contains(textLower, kw) then HybridLabel
    else OnsiteLabel
  }

  /** A text offering "remote möglich" is classified Hybrid, although it also holds the remote keyword "remote". */
  lemma RemoteMoeglichIsHybrid(text: string)
    requires Contains(Lower(text), "remote möglich")
    ensures FallbackDetection(text) == HybridLabel
  {
    assert FallbackHybridKeywords[3] == "remote möglich";
  }

  /** The texts of a job card the HTML matchers read (`None` where the element is absent). */
  datatype Card = Card(workFromHome: Option<string>, workType: Option<string>, allText: string)

  /** One StepStone marker text: "teilweise" means hybrid, "homeoffice" or "remote" means remote. */
  function StepStoneMarker(text: string): (r: Option<string>)
    ensures r == Some(HybridLabel) <==> Contains(Lower(Strip(text)), "teilweise")
    ensures r == Some(RemoteLabel) <==>
      !Contains(Lower(Strip(text)), "teilweise")
      && (Contains(Lower(Strip(text)), "homeoffice") || Contains(Lower(Strip(text)), "remote"))
    ensures r.None? || r == Some(HybridLabel) || r == Some(RemoteLabel)
  {
    var t := Lower(Strip(text));
    if Contains(t, "teilweise") then Some(HybridLabel)
    else if Contains(t, "homeoffice") || Contains(t, "remote") then Some(RemoteLabel)
    else None
  }

  /** `_detect_stepstone_html`: the work-from-home element decides first, then the work-type metadata. */
  function DetectStepStoneHtml(card: Card): (r: Option<string>)
    ensures r.Some? ==> r.value == HybridLabel || r.value == RemoteLabel
    ensures card.workFromHome.Some? && StepStoneMarker(card.workFromHome.value).Some? ==>
      r == StepStoneMarker(card.workFromHome.value)
    ensures r.Some? && (card.workFromHome.None? || StepStoneMarker(card.workFromHome.value).None?) ==>
      card.workType.Some? && r == StepStoneMarker(card.workType.value)
  {
    var fromWfh := if card.workFromHome.Some? then StepStoneMarker(card.workFromHome.value) else None;
    if fromWfh.Some? then fromWfh
    else if card.workType.Some? then StepStoneMarker(card.workType.value)
    else None
  }

  /** `_detect_xing_html`, on the card's text. */
  function DetectXingHtml(card: Card): (r: Option<string>)
    ensures var t := Lower(card.allText);
      (r == Some(HybridLabel) <==> Contains(t, "hybrid"))
      && (r == Some(RemoteLabel) <==>
            !Contains(t, "hybrid")
            && ((Contains(t, "keine kernarbeitszeit") && Contains(t, "homeoffice")) || Contains(t, "ortsunabhängig")))
      && (r.None? || r == Some(HybridLabel) || r == Some(RemoteLabel))
  {
    var text := Lower(card.allText);
    if Contains(text, "hybrid") then Some(HybridLabel)
    else if Contains(text, "keine kernarbeitszeit") && Contains(text, "homeoffice") then Some(RemoteLabel)
    else if Contains(text, "ortsunabhängig") then Some(RemoteLabel)
    else None
  }

  /** The HTML answer, when a card and a known source are given and the matcher finds a marker. */
  function HtmlResult(card: Option<Card>, source: Option<string>): (r: Option<string>)
    ensures r.Some? ==> (card.Some? && source.Some? && source.value != ""
                         && (Lower(source.value) == "stepstone" || Lower(source.value) == "xing"))
    ensures r.Some? ==> r.value == HybridLabel || r.value == RemoteLabel
  {
    if card.Some? && source.Some? && source.value != "" then
      var sourceLower := Lower(source.value);
      if sourceLower == "stepstone" then DetectStepStoneHtml(card.value)
      else if sourceLower == "xing" then DetectXingHtml(card.value)
      else None
    else None
  }

  /** `f"{title} {description} {location}"`. */
  function CombinedText(title: string, description: string, location: string): string {
    title + " " + description + " " + location
  }

  /** `detect`. */
  function Detect(groups: Groups, search: (string, string) -> bool, title: string, description: string,
                  location: string, card: Option<Card>, source: Option<string>): (r: string)
    ensures IsLabel(r)
  {
    var html := HtmlResult(card, source);
    if html.Some? then html.value
    else
      var text := CombinedText(title, description, location);
      var pattern := MatchPatterns(groups, text, search);
      if pattern.Some? then pattern.value
      else FallbackDetection(text)
  }

  /**
   * The three sources are tried in priority order: an HTML answer wins; then
   * a pattern answer; the keyword fallback only speaks when neither does.
   */
  lemma DetectPriority(groups: Groups, search: (string, string) -> bool, title: string, description: string,
                       location: string, card: Option<Card>, source: Option<string>)
    ensures var r := Detect(groups, search, title, description, location, card, source);
      var text := CombinedText(title, description, location);
      (HtmlResult(card, source).Some? ==> r == HtmlResult(card, source).value)
      && (HtmlResult(card, source).None? && MatchPatterns(groups, text, search).Some? ==>
            r == MatchPatterns(groups, text, search).value)
      && (HtmlResult(card, source).None? && MatchPatterns(groups, text, search).None? ==>
            r == FallbackDetection(text))
  {
  }

  /** When the rules could not be loaded there are no groups, so without an HTML answer the fallback decides. */
  lemma NoGroupsFallsBack(search: (string, string) -> bool, title: string, description: string,
                          location: string, card: Option<Card>, source: Option<string>)
    requires HtmlResult(card, source).None?
    ensures Detect([], search, title, description, location, card, source)
         == FallbackDetection(CombinedText(title, description, location))
  {
    var text := CombinedText(title, description, location);
    assert MatchPatterns([], text, search).None? by {
      forall j | 0 <= j < |PriorityOrder| ensures !RemoteScoring.GroupMatches([], PriorityOrder[j], text, search) {
        var none: Groups := [];
        assert Get(none, PriorityOrder[j]).None?;
      }
    }
  }
}
