/**
 * The location scoring component: lower-cased synonym sets for Germany, its
 * neighbours, Europe and remote work are matched as substrings of the
 * lower-cased location and remote field; a tier gives the base points and a
 * remote term adds a bonus up to the budget.
 */
module LocationScoring {
  import opened Wrappers
  import opened Text
  import opened Explain
  import opened Jobs
  import opened ScoringBase

  /** The synonym lists of one country; a key missing from the synonym file is an empty list. */
  datatype CountryTerms = CountryTerms(countryNames: seq<string>, cities: seq<string>, regions: seq<string>)

  /** The synonym file's top-level keys; a missing key is an empty entry. */
  datatype Synonyms = Synonyms(
    germany: CountryTerms,
    remote: seq<string>,
    europe: seq<string>,
    austria: CountryTerms,
    switzerland: CountryTerms,
    netherlands: CountryTerms)

  const NoCountry: CountryTerms := CountryTerms([], [], [])

  /** `_get_default_synonyms`: no Austria, Switzerland or Netherlands entries. */
  function DefaultSynonyms(): Synonyms {
    Synonyms(
      CountryTerms(["Germany", "Deutschland", "DE"],
                   ["Berlin", "München", "Munich", "Hamburg", "Frankfurt"],
                   ["Bayern", "NRW", "Baden-Württemberg"]),
      ["Remote", "Fernarbeit", "Homeoffice", "Work from Home", "WFH"],
      ["Europe", "Europa", "EU"],
      NoCountry, NoCountry, NoCountry)
  }

  /** The term sets the constructor builds. */
  datatype LocationComponent = LocationComponent(
    maxScore: real,
    germanyTerms: set<string>,
    remoteTerms: set<string>,
    europeTerms: set<string>,
    neighborTerms: set<string>)

  /** `for t in items: terms.add(t.lower())`. */
  method AddLowered(terms: set<string>, items: seq<string>) returns (r: set<string>)
    ensures r == terms + LowerSet(items)
  {
    r := terms;
    for i := 0 to |items|
      invariant r == terms + LowerSet(items[..i])
    {
      LowerSetSnoc(items[..i], items[i]);
      assert items[..i + 1] == items[..i] + [items[i]];
      r := r + {Lower(items[i])};
    }
    assert items[..|items|] == items;
  }

  /** Germany terms: country names, cities and regions. */
  function GermanyTermsOf(syn: Synonyms): set<string> {
    LowerSet(syn.germany.countryNames) + LowerSet(syn.germany.cities) + LowerSet(syn.germany.regions)
  }

  /** Neighbour terms: country names and cities (not regions) of Austria, Switzerland and the Netherlands. */
  function NeighborTermsOf(syn: Synonyms): set<string> {
    LowerSet(syn.austria.countryNames) + LowerSet(syn.austria.cities)
    + LowerSet(syn.switzerland.countryNames) + LowerSet(syn.switzerland.cities)
    + LowerSet(syn.netherlands.countryNames) + LowerSet(syn.netherlands.cities)
  }

  method BuildGermanyTerms(syn: Synonyms) returns (terms: set<string>)
    ensures terms == GermanyTermsOf(syn)
    ensures forall t :: t in syn.germany.countryNames + syn.germany.cities + syn.germany.regions ==> Lower(t) in terms
  {
    terms := AddLowered({}, syn.germany.countryNames);
    terms := AddLowered(terms, syn.germany.cities);
    terms := AddLowered(terms, syn.germany.regions);
  }

  method BuildNeighborTerms(syn: Synonyms) returns (terms: set<string>)
    ensures terms == NeighborTermsOf(syn)
  {
    terms := AddLowered({}, syn.austria.countryNames);
    terms := AddLowered(terms, syn.austria.cities);
    terms := AddLowered(terms, syn.switzerland.countryNames);
    terms := AddLowered(terms, syn.switzerland.cities);
    terms := AddLowered(terms, syn.netherlands.countryNames);
    terms := AddLowered(terms, syn.netherlands.cities);
  }

  /** The constructor, given the synonyms it loaded (or the defaults). */
  method NewLocationComponent(maxScore: real, syn: Synonyms) returns (c: LocationComponent)
    ensures c == LocationComponent(maxScore, GermanyTermsOf(syn), LowerSet(syn.remote), LowerSet(syn.europe),
                                   NeighborTermsOf(syn))
  {
    var germany := BuildGermanyTerms(syn);
    var neighbors := BuildNeighborTerms(syn);
    c := LocationComponent(maxScore, germany, LowerSet(syn.remote), LowerSet(syn.europe), neighbors);
  }

  /** With the built-in synonyms the neighbour tier can never apply. */
  lemma DefaultNeighborsEmpty()
    ensures NeighborTermsOf(DefaultSynonyms()) == {}
  {
  }

  predicate AnyTermIn(text: string, terms: set<string>) {
    exists t :: t in terms && Contains(text, t)
  }

  /** `_matches_any`: whether some term of the set occurs in the text. */
  method MatchesAny(text: string, terms: set<string>) returns (found: bool)
    ensures found <==> AnyTermIn(text, terms)
  {
    var rest := terms;
    while rest != {}
      invariant rest <= terms
      invariant forall t :: t in terms - rest ==> !Contains(text, t)
      decreases |rest|
    {
      var term :| term in rest;
      if Contains(text, term) {
        return true;
      }
      rest := rest - {term};
    }
    return false;
  }

  /** `f"{job.location} {job.remote_type or ''}".lower()`: the description is not examined. */
  function LocationText(job: Job): string {
    Lower(job.location + " " + OrEmpty(job.remoteType))
  }

  /** The tier before the remote bonus, in its order: Germany, neighbour, Europe, other. */
  function Tier(isGermany: bool, isNeighbor: bool, isEurope: bool): (r: (real, string))
    ensures isGermany ==> r == (15.0, "Germany")
    ensures !isGermany && isNeighbor ==> r == (8.0, "Neighboring Country")
    ensures !isGermany && !isNeighbor && isEurope ==> r == (8.0, "Europe")
    ensures !isGermany && !isNeighbor && !isEurope ==> r == (3.0, "Other")
  {
    if isGermany then (15.0, "Germany")
    else if isNeighbor then (8.0, "Neighboring Country")
    else if isEurope then (8.0, "Europe")
    else (3.0, "Other")
  }

  /** The remote bonus: at most 5, at most the room left in the budget, and only below the budget. */
  function RemoteBonus(base: real, isRemote: bool, maxScore: real): (b: real)
    ensures b >= 0.0
    ensures b <= 5.0
    ensures base < maxScore ==> base + b <= maxScore
    ensures !isRemote || base >= maxScore ==> b == 0.0
    ensures isRemote && base < maxScore ==> b == 5.0 || base + b == maxScore
  {
    if isRemote && base < maxScore then (if 5.0 <= maxScore - base then 5.0 else maxScore - base) else 0.0
  }

  function LocationExplanation(locationType: string, base: real, bonus: real): Message {
    [Lit(locationType + ": "), Num(base, Fixed1), Lit("pts")]
    + (if bonus > 0.0 then [Lit(", Remote bonus: +"), Num(bonus, Fixed1), Lit("pts")] else [])
  }

  function Min(a: real, b: real): real {
    if a <= b then a else b
  }

  /** What `calculate` returns: tier points plus the remote bonus, capped at the budget; raw equals the final score. */
  predicate Calculated(c: LocationComponent, job: Job, r: ComponentScore) {
    && r.maxScore == c.maxScore && (c.maxScore >= 0.0 ==> 0.0 <= r.score <= c.maxScore)
    && var text := LocationText(job);
       var g, rem, eu, nb := AnyTermIn(text, c.germanyTerms), AnyTermIn(text, c.remoteTerms),
                             AnyTermIn(text, c.europeTerms), AnyTermIn(text, c.neighborTerms);
       var tier := Tier(g, nb, eu);
       var bonus := RemoteBonus(tier.0, rem, c.maxScore);
       var final := Min(tier.0 + bonus, c.maxScore);
       && r.rawScore == final
       && r.score == Clamp(final, 0.0, c.maxScore)
       && r.details == LocationDetails(tier.1, g, rem, eu, tier.0 + bonus, bonus, final)
       && r.explanation == LocationExplanation(tier.1, tier.0 + bonus, bonus)
  }

  /** `calculate`: the location's tier decides the score. */
  method Calculate(c: LocationComponent, job: Job) returns (r: ComponentScore)
    ensures Calculated(c, job, r)
  {
    var text := LocationText(job);
    var isGermany := MatchesAny(text, c.germanyTerms);
    var isRemote := MatchesAny(text, c.remoteTerms);
    var isEurope := MatchesAny(text, c.europeTerms);
    var isNeighbor := MatchesAny(text, c.neighborTerms);
    var baseScore, locationType := 0.0, "Unknown";
    if isGermany {
      baseScore, locationType := 15.0, "Germany";
    } else if isNeighbor {
      baseScore, locationType := 8.0, "Neighboring Country";
    } else if isEurope {
      baseScore, locationType := 8.0, "Europe";
    } else {
      baseScore, locationType := 3.0, "Other";
    }
    var remoteBonus := 0.0;
    if isRemote && baseScore < c.maxScore {
      remoteBonus := Min(5.0, c.maxScore - baseScore);
      baseScore := baseScore + remoteBonus;
    }
    var finalScore := Min(baseScore, c.maxScore);
    r := NewComponentScore(finalScore, finalScore, c.maxScore, LocationExplanation(locationType, baseScore, remoteBonus),
                           Some(LocationDetails(locationType, isGermany, isRemote, isEurope, baseScore, remoteBonus, finalScore)));
  }

  /** The final location score is never below min(3, budget) and never above the budget. */
  lemma LocationBounds(g: bool, nb: bool, eu: bool, rem: bool, maxScore: real)
    ensures var tier := Tier(g, nb, eu);
            var final := Min(tier.0 + RemoteBonus(tier.0, rem, maxScore), maxScore);
            Min(3.0, maxScore) <= final <= maxScore
  {
  }

  /** Germany with a remote term is capped at a budget of 15: no bonus is added on top. */
  lemma GermanyRemoteCapped(maxScore: real)
    requires maxScore <= 15.0
    ensures var tier := Tier(true, false, false);
            RemoteBonus(tier.0, true, maxScore) == 0.0 && Min(tier.0, maxScore) == maxScore
  {
  }

  /** An unrecognised place gets 3; a remote term alone lifts it to 8 when the budget allows. */
  lemma OtherAndRemoteAlone(maxScore: real)
    requires maxScore >= 8.0
    ensures Min(Tier(false, false, false).0 + RemoteBonus(3.0, false, maxScore), maxScore) == 3.0
    ensures Min(Tier(false, false, false).0 + RemoteBonus(3.0, true, maxScore), maxScore) == 8.0
  {
  }

  /** The default Germany term "de" occurs inside "sweden", so a Swedish location counts as Germany. */
  lemma DefaultGermanyMatchesSweden()
    ensures AnyTermIn("sweden ", GermanyTermsOf(DefaultSynonyms()))
  {
    var de := Lower("DE");
    assert de == "de";
    assert de in LowerSet(DefaultSynonyms().germany.countryNames);
    assert OccursAt("sweden ", de, 3);
    ContainsAt("sweden ", de, 3);
  }
}
