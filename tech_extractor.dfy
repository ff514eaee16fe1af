/**
 * `TechStackExtractor`: the tech dictionary (category to terms) feeds a
 * case-insensitive keyword processor; six regular expressions catch terms
 * with special characters; `extract` is the union of both over the
 * whitespace-normalised text and `extract_by_category` sorts the result
 * into the dictionary's categories.
 *
 * The keyword processor's scan is a parameter: it receives the processor's
 * table (lower-cased keyword to clean name) and the text, and returns the
 * clean names it found. The six special regular expressions are written
 * out with the `re` semantics of their constructs (`\b`, `\s*`, literals
 * under IGNORECASE, optional groups).
 */
module TechExtraction {
  import opened Wrappers
  import opened Tables
  import opened Text
  import opened Lists
  import Extractors

  /** The tech dictionary, category name to terms, in file order. */
  type TechDictionary = seq<Entry<string, seq<string>>>

  /** One `add_keyword(keyword, clean_name)` call. */
  datatype Keyword = Keyword(keyword: string, cleanName: string)

  // ---------------------------------------------------------------------
  // _build_keyword_processor

  /** The keywords registered for one term: the term itself and its differing lower- and upper-case forms. */
  function Variants(term: string): (r: seq<Keyword>)
    ensures Keyword(term, term) in r && Keyword(Lower(term), term) in r && Keyword(Upper(term), term) in r
    ensures forall k :: k in r ==> k.cleanName == term && k.keyword in {term, Lower(term), Upper(term)}
    ensures |r| <= 3
  {
    [Keyword(term, term)]
    + (if Lower(term) != term then [Keyword(Lower(term), term)] else [])
    + (if Upper(term) != term then [Keyword(Upper(term), term)] else [])
  }

  function TermKeywords(terms: seq<string>): seq<Keyword>
    decreases |terms|
  {
    if |terms| == 0 then []
    else TermKeywords(terms[..|terms| - 1]) + Variants(terms[|terms| - 1])
  }

  /** Every registration, in the order `_build_keyword_processor` makes them. */
  function DictKeywords(dict: TechDictionary): seq<Keyword>
    decreases |dict|
  {
    if |dict| == 0 then []
    else DictKeywords(dict[..|dict| - 1]) + TermKeywords(dict[|dict| - 1].value)
  }

  /** `term` is listed under some category of the dictionary. */
  predicate IsTerm(dict: TechDictionary, term: string) {
    exists e :: e in dict && term in e.value
  }

  lemma {:induction false} TermKeywordsMembers(terms: seq<string>)
    ensures forall k :: k in TermKeywords(terms) <==> exists t :: t in terms && k in Variants(t)
    decreases |terms|
  {
    if |terms| > 0 {
      var init, last := terms[..|terms| - 1], terms[|terms| - 1];
      TermKeywordsMembers(init);
      SplitLast(terms);
    }
  }

  /**
   * `_build_keyword_processor` registers exactly the variants of the
   * dictionary's terms: each term under itself, its lower case and its upper
   * case, all with the term as clean name.
   */
  lemma {:induction false} DictKeywordsMembers(dict: TechDictionary)
    ensures forall k :: k in DictKeywords(dict) <==> exists t :: IsTerm(dict, t) && k in Variants(t)
    decreases |dict|
  {
    if |dict| > 0 {
      var init, last := dict[..|dict| - 1], dict[|dict| - 1];
      DictKeywordsMembers(init);
      TermKeywordsMembers(last.value);
      SplitLast(dict);
      forall t | IsTerm(dict, t)
        ensures IsTerm(init, t) || t in last.value
      {
        var e :| e in dict && t in e.value;
        if e != last {
          assert e in init;
        }
      }
    }
  }

  /** The three `add_keyword` calls for one term. */
  method RegisterTerm(keywords: seq<Keyword>, term: string) returns (r: seq<Keyword>)
    ensures r == keywords + Variants(term)
  {
    r := keywords + [Keyword(term, term)];
    if Lower(term) != term {
      r := r + [Keyword(Lower(term), term)];
    }
    if Upper(term) != term {
      r := r + [Keyword(Upper(term), term)];
    }
  }

  lemma TermKeywordsStep(keywords: seq<Keyword>, terms: seq<string>, t: nat)
    requires t < |terms|
    ensures keywords + TermKeywords(terms[..t + 1]) == keywords + TermKeywords(terms[..t]) + Variants(terms[t])
  {
    assert terms[..t + 1][..t] == terms[..t];
  }

  /** The inner loop of `_build_keyword_processor`, over one category's terms. */
  method RegisterCategory(keywords: seq<Keyword>, terms: seq<string>) returns (r: seq<Keyword>)
    ensures r == keywords + TermKeywords(terms)
  {
    r := keywords;
    for t := 0 to |terms|
      invariant r == keywords + TermKeywords(terms[..t])
    {
      r := RegisterTerm(r, terms[t]);
      TermKeywordsStep(keywords, terms, t);
    }
    assert terms[..|terms|] == terms;
  }

  /** `_build_keyword_processor`. */
  method BuildKeywordProcessor(dict: TechDictionary) returns (keywords: seq<Keyword>)
    ensures keywords == DictKeywords(dict)
  {
    keywords := [];
    for c := 0 to |dict|
      invariant keywords == DictKeywords(dict[..c])
    {
      keywords := RegisterCategory(keywords, dict[c].value);
      assert dict[..c + 1][..c] == dict[..c];
    }
    assert dict[..|dict|] == dict;
  }

  /**
   * The case-insensitive processor's table: keywords are stored lower-cased
   * and a later registration of the same lower-cased keyword replaces the
   * clean name.
   */
  function ProcessorTable(keywords: seq<Keyword>): seq<Entry<string, string>> {
    PutAll([], ProcessorEntries(keywords))
  }

  /** The processor's entries, one per registration, keyed by the lower-cased keyword. */
  function ProcessorEntries(keywords: seq<Keyword>): (r: seq<Entry<string, string>>)
    ensures |r| == |keywords|
    ensures forall i :: 0 <= i < |r| ==> r[i] == Entry(Lower(keywords[i].keyword), keywords[i].cleanName)
  {
    seq(|keywords|, i requires 0 <= i < |keywords| => Entry(Lower(keywords[i].keyword), keywords[i].cleanName))
  }

  /** A dictionary term is stored under its lower case. */
  lemma TermRegistered(dict: TechDictionary, term: string)
    requires IsTerm(dict, term)
    ensures Entry(Lower(term), term) in ProcessorEntries(DictKeywords(dict))
  {
    var kws := DictKeywords(dict);
    DictKeywordsMembers(dict);
    assert Keyword(term, term) in Variants(term);
    assert Keyword(term, term) in kws;
    var i :| 0 <= i < |kws| && kws[i] == Keyword(term, term);
    assert ProcessorEntries(kws)[i] == Entry(Lower(term), term);
  }

  /** Every stored clean name is a dictionary term, stored under its own lower case. */
  lemma EntriesAreTerms(dict: TechDictionary, k: string, v: string)
    requires Entry(k, v) in ProcessorEntries(DictKeywords(dict))
    ensures IsTerm(dict, v) && Lower(v) == k
  {
    var kws := DictKeywords(dict);
    var j :| 0 <= j < |kws| && ProcessorEntries(kws)[j] == Entry(k, v);
    DictKeywordsMembers(dict);
    assert kws[j] in kws;
    var t :| IsTerm(dict, t) && kws[j] in Variants(t);
    LowerIdempotent(t);
    LowerUpper(t);
  }

  lemma LowerUpper(s: string)
    ensures Lower(Upper(s)) == Lower(s)
  {
  }

  /**
   * Every dictionary term can be found through its lower case, and the table
   * then yields a dictionary term equal to it up to case.
   */
  lemma ProcessorFindsTerms(dict: TechDictionary, term: string)
    requires IsTerm(dict, term)
    ensures var v := Get(ProcessorTable(DictKeywords(dict)), Lower(term));
      v.Some? && IsTerm(dict, v.value) && Lower(v.value) == Lower(term)
  {
    var es := ProcessorEntries(DictKeywords(dict));
    var k := Lower(term);
    TermRegistered(dict, term);
    LastValueAssigned(es, k);
    GetPutAll([], es, k);
    EntriesAreTerms(dict, k, LastValue(es, k).value);
  }

  // ---------------------------------------------------------------------
  // _build_special_patterns and _extract_special_cases

  /** `\w` for the characters of ASCII and Latin-1: letters, digits, `_` and the alphanumeric symbols ª ² ³ µ ¹ º ¼ ½ ¾. */
  predicate IsWordChar(c: char) {
    ('a' <= c <= 'z') || ('A' <= c <= 'Z') || ('0' <= c <= '9') || c == '_'
    || c == '\U{AA}' || c == '\U{B2}' || c == '\U{B3}' || c == '\U{B5}' || c == '\U{B9}' || c == '\U{BA}'
    || ('\U{BC}' <= c <= '\U{BE}') || ('\U{C0}' <= c <= '\U{FF}' && c != '\U{D7}' && c != '\U{F7}')
  }

  predicate WordAt(s: string, i: int) {
    0 <= i < |s| && IsWordChar(s[i])
  }

  /** `\b` at position `i`: a word character on exactly one side. */
  predicate Boundary(s: string, i: int) {
    WordAt(s, i - 1) != WordAt(s, i)
  }

  /** The lower-case literal `p` at position `i` under IGNORECASE. */
  predicate LiteralAt(s: string, p: string, i: int) {
    0 <= i && i + |p| <= |s| && Lower(s[i..i + |p|]) == p
  }

  /** The length of the run of whitespace starting at `i`, which `\s*` consumes. */
  function SpaceRun(s: string, i: nat): (n: nat)
    requires i <= |s|
    ensures i + n <= |s|
    ensures forall k :: i <= k < i + n ==> IsSpace(s[k])
    ensures i + n < |s| ==> !IsSpace(s[i + n])
    decreases |s| - i
  {
    if i < |s| && IsSpace(s[i]) then 1 + SpaceRun(s, i + 1) else 0
  }

  /**
   * `\bL\s*S` at `i`, for a letter `L` and a symbol run `S`: the symbols
   * start with a non-space character, so backtracking `\s*` to a shorter
   * run never helps and the symbols must follow the whole run.
   */
  predicate SymbolTermAt(s: string, letter: string, symbols: string, i: nat) {
    i < |s| && Boundary(s, i) && LiteralAt(s, letter, i)
    && LiteralAt(s, symbols, i + 1 + SpaceRun(s, i + 1))
  }

  /** The end of the match of `SymbolTermAt`. */
  function SymbolTermEnd(s: string, symbols: string, i: nat): nat
    requires i < |s|
  {
    i + 1 + SpaceRun(s, i + 1) + |symbols|
  }

  /** `\bL\s*S\b` at `i`, as the source writes the C#, C++ and F# patterns. */
  predicate SymbolTermAtAsWritten(s: string, letter: string, symbols: string, i: nat) {
    SymbolTermAt(s, letter, symbols, i) && Boundary(s, SymbolTermEnd(s, symbols, i))
  }

  datatype SpecialPattern = CSharp | CPlusPlus | DotNet | FSharp | NodeJs | VueJs

  /** The patterns in the order of `_build_special_patterns`. */
  const SpecialPatterns: seq<SpecialPattern> := [CSharp, CPlusPlus, DotNet, FSharp, NodeJs, VueJs]

  /** `special_mappings`. */
  function Canonical(p: SpecialPattern): string {
    match p
    case CSharp => "C#"
    case CPlusPlus => "C++"
    case DotNet => ".NET"
    case FSharp => "F#"
    case NodeJs => "Node.js"
    case VueJs => "Vue.js"
  }

  const SpecialNames: set<string> := {"C#", "C++", ".NET", "F#", "Node.js", "Vue.js"}

  /** Each pattern has its own canonical name, and these are the six special names. */
  lemma CanonicalNames()
    ensures forall p, q :: Canonical(p) == Canonical(q) ==> p == q
    ensures forall p :: Canonical(p) in SpecialNames
    ensures forall n :: n in SpecialNames ==> exists p :: p in SpecialPatterns && Canonical(p) == n
  {
    assert Canonical(SpecialPatterns[0]) == "C#" && Canonical(SpecialPatterns[1]) == "C++";
    assert Canonical(SpecialPatterns[2]) == ".NET" && Canonical(SpecialPatterns[3]) == "F#";
    assert Canonical(SpecialPatterns[4]) == "Node.js" && Canonical(SpecialPatterns[5]) == "Vue.js";
  }

  /**
   * A match of pattern `p` starting at `i`, the patterns as compiled: C#, C++
   * and F# keep their trailing `\b` (see `CSharpMissedAsWritten`).
   * `\.NET(?:\s+Core|\s+Framework|\s+\d+)?` matches wherever `.net` occurs,
   * its optional tail only lengthening the match.
   */
  predicate MatchAt(s: string, p: SpecialPattern, i: nat) {
    match p
    case CSharp => SymbolTermAtAsWritten(s, "c", "#", i)
    case CPlusPlus => SymbolTermAtAsWritten(s, "c", "++", i)
    case FSharp => SymbolTermAtAsWritten(s, "f", "#", i)
    case DotNet => LiteralAt(s, ".net", i)
    case NodeJs =>
      Boundary(s, i)
      && ((LiteralAt(s, "node", i) && (Boundary(s, i + 4) || (LiteralAt(s, ".js", i + 4) && Boundary(s, i + 7))))
          || (LiteralAt(s, "nodejs", i) && Boundary(s, i + 6)))
    case VueJs =>
      Boundary(s, i) && LiteralAt(s, "vue", i) && (Boundary(s, i + 3) || (LiteralAt(s, ".js", i + 3) && Boundary(s, i + 6)))
  }

  /** `pattern.search(text)` is truthy. */
  predicate Found(s: string, p: SpecialPattern) {
    exists i :: 0 <= i <= |s| && MatchAt(s, p, i)
  }

  /** The evidently intended patterns: C#, C++ and F# without the trailing `\b`, the others as compiled. */
  predicate IntendedMatchAt(s: string, p: SpecialPattern, i: nat) {
    match p
    case CSharp => SymbolTermAt(s, "c", "#", i)
    case CPlusPlus => SymbolTermAt(s, "c", "++", i)
    case FSharp => SymbolTermAt(s, "f", "#", i)
    case _ => MatchAt(s, p, i)
  }

  predicate IntendedFound(s: string, p: SpecialPattern) {
    exists i :: 0 <= i <= |s| && IntendedMatchAt(s, p, i)
  }

  /** The names `_extract_special_cases` returns. */
  function SpecialCases(s: string): (r: set<string>)
    ensures r <= SpecialNames
    ensures forall p :: Canonical(p) in r <==> Found(s, p)
  {
    CanonicalNames();
    AllPatternsListed();
    set p | p in SpecialPatterns && Found(s, p) :: Canonical(p)
  }

  lemma AllPatternsListed()
    ensures forall p :: p in SpecialPatterns
  {
    forall p ensures p in SpecialPatterns {
      match p
      case CSharp => assert SpecialPatterns[0] == p;
      case CPlusPlus => assert SpecialPatterns[1] == p;
      case DotNet => assert SpecialPatterns[2] == p;
      case FSharp => assert SpecialPatterns[3] == p;
      case NodeJs => assert SpecialPatterns[4] == p;
      case VueJs => assert SpecialPatterns[5] == p;
    }
  }

  /** `_extract_special_cases`. */
  method ExtractSpecialCases(text: string) returns (found: set<string>)
    ensures found == SpecialCases(text)
  {
    found := {};
    for k := 0 to |SpecialPatterns|
      invariant found == set p | p in SpecialPatterns[..k] && Found(text, p) :: Canonical(p)
    {
      var pattern := SpecialPatterns[k];
      if Found(text, pattern) {
        found := found + {Canonical(pattern)};
      }
      assert SpecialPatterns[..k + 1] == SpecialPatterns[..k] + [pattern];
    }
    assert SpecialPatterns[..|SpecialPatterns|] == SpecialPatterns;
  }

  /**
   * Every match of the source's C# pattern has a word character right after
   * the `#`: `#` is not a word character, so the trailing `\b` needs one
   * next. "C#" followed by a space, punctuation or the end of the text is
   * never matched.
   */
  lemma CSharpAsWrittenNeedsWordAfter(s: string, i: nat)
    requires SymbolTermAtAsWritten(s, "c", "#", i)
    ensures var end := SymbolTermEnd(s, "#", i);
      end < |s| && s[end - 1] == '#' && IsWordChar(s[end])
  {
    var k := i + 1 + SpaceRun(s, i + 1);
    assert Lower(s[k..k + 1])[0] == LowerChar(s[k]) == '#';
  }

  /** The source's C# pattern does not find "C#" in the text "C#", so the special cases leave it out. */
  lemma CSharpMissedAsWritten()
    ensures !Found("C#", CSharp)
    ensures "C#" !in SpecialCases("C#")
  {
    forall i | 0 <= i <= 2 && SymbolTermAtAsWritten("C#", "c", "#", i)
      ensures false
    {
      CSharpAsWrittenNeedsWordAfter("C#", i);
    }
  }

  /** A letter-and-symbols term that starts a word is found by the corrected pattern, whatever follows it. */
  lemma SymbolTermFound(a: string, p: SpecialPattern, b: string)
    requires p == CSharp || p == CPlusPlus || p == FSharp
    requires |a| == 0 || !IsWordChar(a[|a| - 1])
    ensures IntendedFound(a + Canonical(p) + b, p)
  {
    var n := Canonical(p);
    SymbolPatternParts(p);
    SymbolTermAtConcat(a, n, b);
    assert IntendedMatchAt(a + n + b, p, |a|);
  }

  /** The C#, C++ and F# patterns are their canonical name, lowered, split after the letter. */
  lemma SymbolPatternParts(p: SpecialPattern)
    requires p == CSharp || p == CPlusPlus || p == FSharp
    ensures var n := Canonical(p);
      |n| >= 2 && 'A' <= n[0] <= 'Z' && !IsSpace(n[1]) && Lower(n[1..]) == n[1..]
      && forall s, i :: IntendedMatchAt(s, p, i) <==> SymbolTermAt(s, [LowerChar(n[0])], n[1..], i)
  {
    var n := Canonical(p);
    assert [LowerChar(n[0])] == (if p == FSharp then "f" else "c");
    assert n[1..] == (if p == CPlusPlus then "++" else "#");
  }

  lemma SymbolTermAtConcat(a: string, n: string, b: string)
    requires |a| == 0 || !IsWordChar(a[|a| - 1])
    requires |n| >= 2 && 'A' <= n[0] <= 'Z'
    requires !IsSpace(n[1]) && Lower(n[1..]) == n[1..]
    ensures SymbolTermAt(a + n + b, [LowerChar(n[0])], n[1..], |a|)
  {
    var s := a + n + b;
    var i := |a|;
    assert s[i] == n[0];
    assert s[i..i + 1] == [n[0]];
    assert s[i + 1] == n[1];
    assert SpaceRun(s, i + 1) == 0;
    assert s[i + 1..i + |n|] == n[1..];
    assert Boundary(s, i) by {
      if i > 0 {
        assert s[i - 1] == a[|a| - 1];
      }
    }
  }


  /** Any occurrence of `.net`, in any case, is found. */
  lemma DotNetFound(a: string, b: string)
    ensures Found(a + ".NET" + b, DotNet)
  {
    var s := a + ".NET" + b;
    assert s[|a|..|a| + 4] == ".NET";
    assert MatchAt(s, DotNet, |a|);
  }

  // ---------------------------------------------------------------------
  // extract

  /** The keyword processor's scan: its table and the text in, the clean names found out. */
  type KeywordScan = (seq<Entry<string, string>>, string) -> seq<string>

  /**
   * `extract`: nothing for an empty text; otherwise the processor's hits
   * and the special terms, both over the whitespace-normalised text.
   */
  function Extract(dict: TechDictionary, scan: KeywordScan, text: string): (r: set<string>)
    ensures |text| == 0 ==> r == {}
    ensures |text| > 0 ==> forall t :: t in r <==>
      t in scan(ProcessorTable(DictKeywords(dict)), Extractors.PreprocessText(text))
      || t in SpecialCases(Extractors.PreprocessText(text))
  {
    if |text| == 0 then {}
    else
      var normalized := Extractors.PreprocessText(text);
      (set t | t in scan(ProcessorTable(DictKeywords(dict)), normalized)) + SpecialCases(normalized)
  }

  /** A special term found in the normalised text is always part of `extract`, whatever the processor reports. */
  lemma ExtractKeepsSpecialCases(dict: TechDictionary, scan: KeywordScan, text: string, p: SpecialPattern)
    requires |text| > 0 && Found(Extractors.PreprocessText(text), p)
    ensures Canonical(p) in Extract(dict, scan, text)
  {
  }

  // ---------------------------------------------------------------------
  // extract_by_category

  /** `any(tech.lower() == term.lower() for term in terms)`. */
  predicate InCategory(terms: seq<string>, tech: string) {
    exists term :: term in terms && Lower(term) == Lower(tech)
  }

  /** The first category, from `c` on, holding `tech` up to case. */
  function FirstCategoryFrom(dict: TechDictionary, tech: string, c: nat): (r: Option<nat>)
    requires c <= |dict|
    ensures r.Some? ==> (c <= r.value < |dict| && InCategory(dict[r.value].value, tech)
      && forall k :: c <= k < r.value ==> !InCategory(dict[k].value, tech))
    ensures r.None? ==> forall k :: c <= k < |dict| ==> !InCategory(dict[k].value, tech)
    decreases |dict| - c
  {
    if c == |dict| then None
    else if InCategory(dict[c].value, tech) then Some(c)
    else FirstCategoryFrom(dict, tech, c + 1)
  }

  /** The position of the first category holding `tech` up to case, if any. */
  function FirstCategory(dict: TechDictionary, tech: string): (r: Option<nat>)
    ensures r.Some? ==> (r.value < |dict| && InCategory(dict[r.value].value, tech)
      && forall k :: 0 <= k < r.value ==> !InCategory(dict[k].value, tech))
    ensures r.None? ==> forall k :: 0 <= k < |dict| ==> !InCategory(dict[k].value, tech)
  {
    FirstCategoryFrom(dict, tech, 0)
  }

  /** The inner loop of `extract_by_category`, leaving at the first matching category. */
  method FindCategory(dict: TechDictionary, tech: string) returns (r: Option<nat>)
    ensures r == FirstCategory(dict, tech)
  {
    for c := 0 to |dict|
      invariant forall k :: 0 <= k < c ==> !InCategory(dict[k].value, tech)
    {
      if InCategory(dict[c].value, tech) {
        return Some(c);
      }
    }
    return None;
  }

  /** The key of the category a term goes to: its first category, or "other". */
  function CategoryName(dict: TechDictionary, tech: string): (k: string)
    ensures FirstCategory(dict, tech).Some? ==> k == dict[FirstCategory(dict, tech).value].key
    ensures FirstCategory(dict, tech).None? ==> k == "other"
  {
    match FirstCategory(dict, tech)
    case Some(c) => dict[c].key
    case None => "other"
  }

  /** The keys of `categorized`: the dictionary's, then "other" unless it is one of them. */
  function CategoryKeys(dict: TechDictionary): (keys: seq<string>)
    ensures "other" in keys && |dict| <= |keys| <= |dict| + 1
    ensures forall c :: 0 <= c < |dict| ==> keys[c] == dict[c].key
  {
    if "other" in Keys(dict) then Keys(dict) else Keys(dict) + ["other"]
  }

  lemma CategoryKeysDistinct(dict: TechDictionary)
    requires DistinctKeys(dict)
    ensures forall i, j :: 0 <= i < j < |CategoryKeys(dict)| ==> CategoryKeys(dict)[i] != CategoryKeys(dict)[j]
  {
    var keys := CategoryKeys(dict);
    forall i, j | 0 <= i < j < |keys|
      ensures keys[i] != keys[j]
    {
      if j == |dict| {
        assert "other" !in Keys(dict);
        assert Keys(dict)[i] == keys[i];
      }
    }
  }

  /** The first position of `k` in `keys`: a dict lookup by key. */
  function IndexOf(keys: seq<string>, k: string): (i: nat)
    requires k in keys
    ensures i < |keys| && keys[i] == k
    ensures forall j :: 0 <= j < i ==> keys[j] != k
    decreases |keys|
  {
    if keys[0] == k then 0 else 1 + IndexOf(keys[1..], k)
  }

  /** The position in `categorized` of the category `tech` goes to. */
  function Slot(dict: TechDictionary, tech: string): (i: nat)
    ensures i < |CategoryKeys(dict)|
  {
    match FirstCategory(dict, tech)
    case Some(c) => c
    case None => IndexOf(CategoryKeys(dict), "other")
  }

  /** `categorized` once the terms of `techs` have been placed. */
  function Categorized(dict: TechDictionary, techs: set<string>): (r: seq<Entry<string, set<string>>>)
    ensures |r| == |CategoryKeys(dict)| && Keys(r) == CategoryKeys(dict)
    ensures forall i :: 0 <= i < |r| ==> r[i].value == set t | t in techs && Slot(dict, t) == i
  {
    var keys := CategoryKeys(dict);
    seq(|keys|, i requires 0 <= i < |keys| => Entry(keys[i], set t | t in techs && Slot(dict, t) == i))
  }

  function NonEmptyTest(): Entry<string, set<string>> -> bool {
    (e: Entry<string, set<string>>) => |e.value| > 0
  }

  /** `extract_by_category` on the terms `extract` returned. */
  function ByCategory(dict: TechDictionary, techs: set<string>): seq<Entry<string, set<string>>> {
    Filter(Categorized(dict, techs), NonEmptyTest())
  }

  lemma PutPresent(t: seq<Entry<string, set<string>>>, k: string, v: set<string>)
    requires Get(t, k) == Some(v)
    ensures Put(t, k, v) == t
    decreases |t|
  {
    if |t| > 0 && t[0].key != k {
      PutPresent(t[1..], k, v);
    }
  }

  /** The dict comprehension and `categorized["other"] = set()` give every category an empty set. */
  lemma EmptyCategorized(dict: TechDictionary)
    ensures Put(seq(|dict|, i requires 0 <= i < |dict| => Entry(dict[i].key, {})), "other", {}) == Categorized(dict, {})
  {
    var start := seq(|dict|, i requires 0 <= i < |dict| => Entry(dict[i].key, {}));
    var goal := Categorized(dict, {});
    assert Keys(start) == Keys(dict);
    forall i | 0 <= i < |goal|
      ensures goal[i] == Entry(CategoryKeys(dict)[i], {})
    {
      assert goal[i].key == Keys(goal)[i];
      assert goal[i].value == {};
    }
    if "other" in Keys(dict) {
      var j := IndexOf(Keys(dict), "other");
      assert start[j] == Entry("other", {});
      assert Get(start, "other") == Some({}) by {
        GetFirst(start, j);
      }
      PutPresent(start, "other", {});
      assert start == goal;
    } else {
      PutAbsent(start, "other", {});
      assert start + [Entry("other", {})] == goal;
    }
  }

  lemma {:induction false} GetFirst(t: seq<Entry<string, set<string>>>, j: nat)
    requires j < |t| && forall i :: 0 <= i < j ==> t[i].key != t[j].key
    ensures Get(t, t[j].key) == Some(t[j].value)
    decreases j
  {
    if j > 0 {
      GetFirst(t[1..], j - 1);
    }
  }

  /** Placing one more term adds it to its own slot's set and changes no other. */
  lemma CategorizedAdd(dict: TechDictionary, done: set<string>, tech: string)
    ensures var before := Categorized(dict, done);
      var i := Slot(dict, tech);
      Categorized(dict, done + {tech}) == before[i := Entry(before[i].key, before[i].value + {tech})]
  {
    var before, after := Categorized(dict, done), Categorized(dict, done + {tech});
    var i := Slot(dict, tech);
    var updated := before[i := Entry(before[i].key, before[i].value + {tech})];
    forall k | 0 <= k < |after|
      ensures after[k] == updated[k]
    {
      assert after[k].key == Keys(after)[k] == Keys(before)[k] == before[k].key;
      if k == i {
        assert after[k].value == before[k].value + {tech};
      } else {
        assert after[k].value == before[k].value;
      }
    }
  }

  /** `extract_by_category`, given the terms `extract` returned. */
  method ExtractByCategory(dict: TechDictionary, techs: set<string>) returns (r: seq<Entry<string, set<string>>>)
    requires DistinctKeys(dict)
    ensures r == ByCategory(dict, techs)
  {
    var categorized := Categorize(dict, techs);
    r := RemoveEmpty(categorized);
  }

  /** The initial dict, then the loop over the found terms of `extract_by_category`. */
  method Categorize(dict: TechDictionary, techs: set<string>) returns (categorized: seq<Entry<string, set<string>>>)
    requires DistinctKeys(dict)
    ensures categorized == Categorized(dict, techs)
  {
    categorized := seq(|dict|, i requires 0 <= i < |dict| => Entry(dict[i].key, {}));
    categorized := Put(categorized, "other", {});
    EmptyCategorized(dict);
    CategoryKeysDistinct(dict);
    var remaining := techs;
    assert techs - remaining == {};
    while remaining != {}
      invariant remaining <= techs
      invariant categorized == Categorized(dict, techs - remaining)
      decreases |remaining|
    {
      var tech :| tech in remaining;
      var category := FindCategory(dict, tech);
      var key := if category.Some? then dict[category.value].key else "other";
      var slot := IndexOf(Keys(categorized), key);
      assert slot == Slot(dict, tech) by {
        if category.Some? {
          assert Keys(categorized)[category.value] == key;
        }
      }
      CategorizedAdd(dict, techs - remaining, tech);
      categorized := categorized[slot := Entry(categorized[slot].key, categorized[slot].value + {tech})];
      assert techs - (remaining - {tech}) == (techs - remaining) + {tech};
      remaining := remaining - {tech};
    }
    assert techs - remaining == techs;
  }

  /** `{k: v for k, v in categorized.items() if v}`. */
  method RemoveEmpty(categorized: seq<Entry<string, set<string>>>) returns (r: seq<Entry<string, set<string>>>)
    ensures r == Filter(categorized, NonEmptyTest())
  {
    r := [];
    for i := 0 to |categorized|
      invariant r == Filter(categorized[..i], NonEmptyTest())
    {
      FilterStep(categorized, i, NonEmptyTest());
      if |categorized[i].value| > 0 {
        r := r + [categorized[i]];
      }
    }
    assert categorized[..|categorized|] == categorized;
  }

  lemma {:induction false} FilterDistinctKeys(s: seq<Entry<string, set<string>>>, keep: Entry<string, set<string>> -> bool)
    requires DistinctKeys(s)
    ensures DistinctKeys(Filter(s, keep))
    decreases |s|
  {
    if |s| > 0 {
      var init, last := s[..|s| - 1], s[|s| - 1];
      FilterDistinctKeys(init, keep);
      var f := Filter(init, keep);
      forall e | e in f
        ensures e.key != last.key
      {
        var k :| 0 <= k < |init| && init[k] == e;
      }
    }
  }

  lemma SlotKey(dict: TechDictionary, t: string)
    requires DistinctKeys(dict)
    ensures CategoryKeys(dict)[Slot(dict, t)] == CategoryName(dict, t)
  {
  }

  /** Each entry of `categorized` holds the terms whose category name is its key. */
  lemma CategorizedEntry(dict: TechDictionary, techs: set<string>, e: Entry<string, set<string>>)
    requires DistinctKeys(dict)
    requires e in Categorized(dict, techs)
    ensures e.value == set t | t in techs && CategoryName(dict, t) == e.key
  {
    var all := Categorized(dict, techs);
    var keys := CategoryKeys(dict);
    CategoryKeysDistinct(dict);
    var i :| 0 <= i < |all| && all[i] == e;
    assert e.key == keys[i];
    forall t | t in techs
      ensures Slot(dict, t) == i <==> CategoryName(dict, t) == e.key
    {
      SlotKey(dict, t);
    }
  }

  lemma CategorizedDistinct(dict: TechDictionary, techs: set<string>)
    requires DistinctKeys(dict)
    ensures DistinctKeys(Categorized(dict, techs))
  {
    var all := Categorized(dict, techs);
    var keys := CategoryKeys(dict);
    CategoryKeysDistinct(dict);
    forall i, j | 0 <= i < j < |all|
      ensures all[i].key != all[j].key
    {
      assert all[i].key == keys[i] && all[j].key == keys[j];
    }
  }

  /**
   * Every category of the result is non-empty; its terms are exactly the
   * found terms whose first matching category (or "other") it is; the
   * categories are pairwise disjoint with distinct keys, and together they
   * hold every found term.
   */
  lemma ByCategoryProperties(dict: TechDictionary, techs: set<string>)
    requires DistinctKeys(dict)
    ensures var r := ByCategory(dict, techs);
      (forall e :: e in r ==> |e.value| > 0)
      && (forall e :: e in r ==> e.value == set t | t in techs && CategoryName(dict, t) == e.key)
      && (forall e1, e2 :: e1 in r && e2 in r && e1.key != e2.key ==> e1.value !! e2.value)
      && DistinctKeys(r)
      && (forall t :: t in techs <==> exists e :: e in r && t in e.value)
  {
    var all := Categorized(dict, techs);
    var r := ByCategory(dict, techs);
    forall e | e in all
      ensures e.value == set t | t in techs && CategoryName(dict, t) == e.key
    {
      CategorizedEntry(dict, techs, e);
    }
    CategorizedDistinct(dict, techs);
    FilterDistinctKeys(all, NonEmptyTest());
    forall t | t in techs
      ensures exists e :: e in r && t in e.value
    {
      var i := Slot(dict, t);
      assert t in all[i].value;
      assert all[i] in r;
    }
  }

  /** `extract_by_category(text)`: the categories together hold exactly `extract(text)`. */
  lemma ExtractByCategoryUnion(dict: TechDictionary, scan: KeywordScan, text: string)
    requires DistinctKeys(dict)
    ensures var r := ByCategory(dict, Extract(dict, scan, text));
      forall t :: t in Extract(dict, scan, text) <==> exists e :: e in r && t in e.value
    ensures |text| == 0 ==> ByCategory(dict, Extract(dict, scan, text)) == []
  {
    ByCategoryProperties(dict, Extract(dict, scan, text));
    if |text| == 0 {
      var all := Categorized(dict, {});
      forall e | e in all
        ensures !NonEmptyTest()(e)
      {
        var i :| 0 <= i < |all| && all[i] == e;
        assert e.value == {};
      }
      FilterNone(all, NonEmptyTest());
    }
  }
}
