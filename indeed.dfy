/**
 * `IndeedScraper`: one RSS feed per search keyword, each `<item>` read as a
 * job (title split into job title, company and location; HTML description
 * cleaned; id taken from the `jk=` parameter of the link), then the first
 * job of every id kept and the list cut to `max_results`. The feed request
 * is a parameter (the items it returned, or `None` where it raised); HTML
 * unescaping, date parsing and the hash fallback of the id are functions
 * passed in (`ItemReaders`).
 */
module Indeed {
  import opened Wrappers
  import opened Text
  import opened Jobs
  import opened Lists
  import opened Tables
  import opened Scraping
  import opened Dedup
  import Extractors

  const Name := "Indeed"
  const IdPrefix := "indeed_"
  const Separator := " - "
  const UnknownCompany := "Unknown Company"
  const UnknownLocation := "Unknown Location"
  const DefaultKeywords: seq<string> := ["Full Stack Engineer", "Backend Developer", "DevOps Engineer"]
  const RemoteKeywords: seq<string> :=
    ["remote", "work from home", "wfh", "distributed", "telecommute", "home office", "homeoffice"]
  const HybridMarkers: seq<string> := ["hybrid"]

  // ---------------------------------------------------------------------------
  // Title: "Job Title - Company - Location"
  // ---------------------------------------------------------------------------

  datatype CompanyLocation = CompanyLocation(company: string, location: string)

  /**
   * `_parse_title_for_company_location`: split at " - " and strip the
   * pieces; with three or more, the last two are company and location; with
   * two, the second is the company; otherwise both are unknown.
   */
  function ParseTitle(title: string): CompanyLocation {
    var parts := StrippedPieces(title, Separator);
    var n := |parts|;
    if n >= 3 then CompanyLocation(parts[n - 2], parts[n - 1])
    else if n == 2 then CompanyLocation(parts[1], UnknownLocation)
    else CompanyLocation(UnknownCompany, UnknownLocation)
  }

  /**
   * The three shapes of a title, with pieces free of '-': "T - C - L" gives
   * company C and location L, "T - C" gives company C, and a bare title
   * gives the two placeholders.
   */
  lemma ParseTitleFormats(t: string, c: string, l: string)
    requires '-' !in t && '-' !in c && '-' !in l
    ensures ParseTitle(t + Separator + c + Separator + l) == CompanyLocation(Strip(c), Strip(l))
    ensures ParseTitle(t + Separator + c) == CompanyLocation(Strip(c), UnknownLocation)
    ensures ParseTitle(t) == CompanyLocation(UnknownCompany, UnknownLocation)
  {
    SplitOnDashHead(c, l);
    SplitOnDashAbsent(l);
    assert t + Separator + c + Separator + l == t + Separator + (c + Separator + l);
    SplitOnDashHead(t, c + Separator + l);
    SplitOnDashHead(t, c);
    SplitOnDashAbsent(c);
    SplitOnDashAbsent(t);
  }

  /**
   * `_clean_title` as written: every occurrence of " - company", then of
   * " - location", is deleted (placeholders excepted), and the rest is
   * stripped.
   */
  function CleanTitleAsWritten(title: string, company: string, location: string): string {
    var cut := if company != UnknownCompany then ReplaceAll(title, Separator + company, "") else title;
    var cut2 := if location != UnknownLocation then ReplaceAll(cut, Separator + location, "") else cut;
    Strip(cut2)
  }

  /**
   * The cleaning as written on the two title shapes, pieces free of '-':
   * "T - C" gives T; "T - C - L" gives T unless the location starts with
   * the company, in which case the location's remainder stays behind T.
   */
  lemma CleanTitleAsWrittenFormats(t: string, c: string, l: string)
    requires '-' !in t && '-' !in c && '-' !in l
    requires c != UnknownCompany && l != UnknownLocation
    ensures CleanTitleAsWritten(t + Separator + c + Separator + l, c, l)
         == if c <= l then Strip(t + l[|c|..]) else Strip(t)
    ensures CleanTitleAsWritten(t + Separator + c, c, UnknownLocation) == Strip(t)
  {
    CleanTitleAsWrittenTwo(t, c);
    if c <= l {
      var x := l[|c|..];
      assert l == c + x;
      CleanTitleAsWrittenCutsLocation(t, c, x);
    } else {
      CleanTitleAsWrittenThree(t, c, l);
    }
  }

  lemma CleanTitleAsWrittenTwo(t: string, c: string)
    requires '-' !in t && c != UnknownCompany
    ensures CleanTitleAsWritten(t + Separator + c, c, UnknownLocation) == Strip(t)
  {
    var pat := Separator + c;
    assert pat[0] == ' ' && pat[1] == '-';
    assert t + Separator + c == t + pat + "";
    ReplaceDashHead(t, pat, "", "");
    assert t + "" + "" == t;
  }

  lemma CleanTitleAsWrittenThree(t: string, c: string, l: string)
    requires '-' !in t && '-' !in l && !(c <= l)
    requires c != UnknownCompany && l != UnknownLocation
    ensures CleanTitleAsWritten(t + Separator + c + Separator + l, c, l) == Strip(t)
  {
    CompanyCutKeepsLocation(t, c, l);
    TrailingCut(t, Separator + l);
  }

  /** Deleting every " - C" from "T - C - L" leaves "T - L" when L does not start with C. */
  lemma CompanyCutKeepsLocation(t: string, c: string, l: string)
    requires '-' !in t && '-' !in l && !(c <= l)
    ensures ReplaceAll(t + Separator + c + Separator + l, Separator + c, "") == t + (Separator + l)
  {
    var pat := Separator + c;
    var tail := Separator + l;
    assert pat[0] == ' ' && pat[1] == '-';
    SeparatorRegroup(t, c, l);
    ReplaceDashHead(t, pat, tail, "");
    SeparatorKept(c, l);
    EmptyMiddle(t, tail);
  }

  lemma SeparatorRegroup(t: string, c: string, l: string)
    ensures t + Separator + c + Separator + l == t + (Separator + c) + (Separator + l)
  {
  }

  lemma EmptyMiddle(a: string, b: string)
    ensures a + "" + b == a + b
  {
  }

  /** Deleting a trailing " -..." pattern from a text without '-' leaves the text. */
  lemma TrailingCut(t: string, tail: string)
    requires '-' !in t && |tail| >= 2 && tail[0] == ' ' && tail[1] == '-'
    ensures ReplaceAll(t + tail, tail, "") == t
  {
    assert t + tail == t + tail + "";
    ReplaceDashHead(t, tail, "", "");
    assert t + "" + "" == t;
  }

  /** " - L" holds no " - C" when C is not a prefix of L and L has no '-'. */
  lemma SeparatorKept(c: string, l: string)
    requires '-' !in l && !(c <= l)
    ensures ReplaceAll(Separator + l, Separator + c, "") == Separator + l
  {
    var pat := Separator + c;
    var s := Separator + l;
    SeparatorPrefix(c, l);
    ReplaceKeepsFirst(s, pat, "");
    assert s[1..] == "- " + l;
    assert s[1..][0] != pat[0];
    ReplaceKeepsFirst(s[1..], pat, "");
    assert s[1..][1..] == " " + l;
    assert !(pat <= " " + l) by {
      if |l| > 0 {
        assert (" " + l)[1] == l[0];
      }
    }
    ReplaceKeepsFirst(" " + l, pat, "");
    assert (" " + l)[1..] == l;
    ReplaceDashAbsent(l, pat, "");
    assert [' '] + (['-'] + ([' '] + l)) == s;
  }

  lemma SeparatorPrefix(c: string, l: string)
    ensures Separator + c <= Separator + l ==> c <= l
  {
    if Separator + c <= Separator + l {
      assert c == (Separator + c)[3..] && l[..|c|] == (Separator + l)[3..3 + |c|];
    }
  }

  /** `s` without the suffix `tail`, when it ends with it. */
  function CutSuffix(s: string, tail: string): (r: string)
    ensures EndsWith(s, tail) ==> s == r + tail
    ensures !EndsWith(s, tail) ==> r == s
  {
    if EndsWith(s, tail) then s[..|s| - |tail|] else s
  }

  lemma CutSuffixOf(a: string, b: string)
    ensures CutSuffix(a + b, b) == a
  {
    assert (a + b)[|a|..] == b;
  }

  /**
   * The title with the " - location" and then the " - company" that the
   * split took them from removed from its end (placeholders excepted), and
   * stripped: the job title without the parts that are reported on their
   * own.
   */
  function CleanTitle(title: string, company: string, location: string): string {
    var cut := if location != UnknownLocation then CutSuffix(title, Separator + location) else title;
    var cut2 := if company != UnknownCompany then CutSuffix(cut, Separator + company) else cut;
    Strip(cut2)
  }

  /** Removing the two suffixes of "T - C - L", or the one of "T - C", leaves T. */
  lemma CleanTitleSuffixes(t: string, c: string, l: string)
    requires c != UnknownCompany && l != UnknownLocation
    ensures CleanTitle(t + Separator + c + Separator + l, c, l) == Strip(t)
    ensures CleanTitle(t + Separator + c, c, UnknownLocation) == Strip(t)
  {
    assert t + Separator + c + Separator + l == (t + Separator + c) + (Separator + l);
    CutSuffixOf(t + Separator + c, Separator + l);
    assert t + Separator + c == t + (Separator + c);
    CutSuffixOf(t, Separator + c);
  }

  /** For "T - C - L" and "T - C" with stripped pieces free of '-', the cleaned title is T. */
  lemma CleanTitleFormats(t: string, c: string, l: string)
    requires '-' !in t && '-' !in c && '-' !in l
    requires Strip(c) == c && Strip(l) == l && c != UnknownCompany && l != UnknownLocation
    ensures var title := t + Separator + c + Separator + l;
      var cl := ParseTitle(title); CleanTitle(title, cl.company, cl.location) == Strip(t)
    ensures var title := t + Separator + c;
      var cl := ParseTitle(title); CleanTitle(title, cl.company, cl.location) == Strip(t)
  {
    ParseTitleFormats(t, c, l);
    CleanTitleSuffixes(t, c, l);
  }

  /** Deleting a " -" pattern from a text that starts with it and has no other '-' leaves the rest. */
  lemma ReplaceLeading(pat: string, x: string)
    requires |pat| >= 2 && pat[1] == '-' && '-' !in x
    ensures ReplaceAll(pat + x, pat, "") == x
  {
    assert pat <= pat + x;
    assert (pat + x)[|pat|..] == x;
    ReplaceDashAbsent(x, pat, "");
  }

  /** Deleting every " - C" from "T - C - C X" leaves T X: the second deletion eats the location's start. */
  lemma ReplaceCompanyInLocation(t: string, c: string, x: string)
    requires '-' !in t && '-' !in x
    ensures ReplaceAll(t + Separator + c + Separator + (c + x), Separator + c, "") == t + x
  {
    var pat := Separator + c;
    assert t + Separator + c + Separator + (c + x) == t + pat + (pat + x);
    ReplaceDashHead(t, pat, pat + x, "");
    ReplaceLeading(pat, x);
    assert t + "" + x == t + x;
  }

  /**
   * When the company is the start of the location ("T - C - C X"), deleting
   * every " - C" also cuts the location's own start, so the as-written title
   * keeps X: the result is T X, where the corrected cleaning gives T.
   */
  lemma CleanTitleAsWrittenCutsLocation(t: string, c: string, x: string)
    requires '-' !in t && '-' !in c && '-' !in x
    requires c != UnknownCompany && c + x != UnknownLocation
    ensures var title := t + Separator + c + Separator + (c + x);
      CleanTitleAsWritten(title, c, c + x) == Strip(t + x)
      && CleanTitle(title, c, c + x) == Strip(t)
  {
    ReplaceCompanyInLocation(t, c, x);
    var tail := Separator + (c + x);
    assert tail[1] == '-';
    ReplaceDashAbsent(t + x, tail, "");
    CleanTitleSuffixes(t, c, c + x);
  }

  /** "Engineer - SAP - SAP Labs" is split into company "SAP" and location "SAP Labs", and cleaned to "Engineer Labs" instead of "Engineer". */
  lemma CleanTitleAsWrittenExample()
    ensures ParseTitle("Engineer - SAP - SAP Labs") == CompanyLocation("SAP", "SAP Labs")
    ensures CleanTitleAsWritten("Engineer - SAP - SAP Labs", "SAP", "SAP Labs") == "Engineer Labs"
    ensures CleanTitle("Engineer - SAP - SAP Labs", "SAP", "SAP Labs") == "Engineer"
  {
    ExampleParts("Engineer", "SAP", " Labs");
  }

  lemma ExampleParts(t: string, c: string, x: string)
    requires t == "Engineer" && c == "SAP" && x == " Labs"
    ensures ParseTitle("Engineer - SAP - SAP Labs") == CompanyLocation("SAP", "SAP Labs")
    ensures CleanTitleAsWritten("Engineer - SAP - SAP Labs", "SAP", "SAP Labs") == "Engineer Labs"
    ensures CleanTitle("Engineer - SAP - SAP Labs", "SAP", "SAP Labs") == "Engineer"
  {
    ExampleConcats(t, c, x);
    ExampleStrips(t, c, x);
    ParseTitleFormats(t, c, c + x);
    CleanTitleAsWrittenCutsLocation(t, c, x);
  }

  lemma ExampleConcats(t: string, c: string, x: string)
    requires t == "Engineer" && c == "SAP" && x == " Labs"
    ensures t + Separator + c + Separator + (c + x) == "Engineer - SAP - SAP Labs"
    ensures c + x == "SAP Labs" && t + x == "Engineer Labs"
    ensures '-' !in t && '-' !in c && '-' !in x
    ensures c != UnknownCompany && c + x != UnknownLocation
  {
  }

  lemma ExampleStrips(t: string, c: string, x: string)
    requires t == "Engineer" && c == "SAP" && x == " Labs"
    ensures Strip(c) == c && Strip(c + x) == c + x && Strip(t) == t && Strip(t + x) == t + x
  {
    StripUnchanged(c);
    StripUnchanged(c + x);
    StripUnchanged(t);
    StripUnchanged(t + x);
  }

  // ---------------------------------------------------------------------------
  // Job id from the link
  // ---------------------------------------------------------------------------

  /** `[a-f0-9]`. */
  predicate IsHexDigit(ch: char) {
    IsAsciiDigit(ch) || ('a' <= ch <= 'f')
  }

  /** The group of `jk=([a-f0-9]+)` when a match starts at `j`: the longest hex run after "jk=". */
  function JkAt(s: string, j: nat): Option<string> {
    if j + 3 < |s| && s[j] == 'j' && s[j + 1] == 'k' && s[j + 2] == '=' && IsHexDigit(s[j + 3]) then
      Some(s[j + 3..j + 3 + RunLen(s, j + 3, IsHexDigit)])
    else None
  }

  /** A match at `j` is a non-empty run of hex digits that follows "jk=" in `s`. */
  lemma JkAtShape(s: string, j: nat)
    requires JkAt(s, j).Some?
    ensures var v := JkAt(s, j).value;
      |v| > 0 && (forall k :: 0 <= k < |v| ==> IsHexDigit(v[k])) && OccursAt(s, "jk=" + v, j)
  {
    var v := JkAt(s, j).value;
    var n := RunLen(s, j + 3, IsHexDigit);
    assert s[j..j + 3 + n] == "jk=" + v;
  }

  /**
   * `_extract_job_id`: the hex run after the leftmost "jk=" that has one, or
   * else the hash fallback.
   */
  function ExtractJobId(url: string, hashId: string -> string): (r: string)
    ensures SearchFrom(url, JkAt, 0).None? ==> r == hashId(url)
    ensures SearchFrom(url, JkAt, 0).Some? ==> r == SearchFrom(url, JkAt, 0).value
  {
    var m := SearchFrom(url, JkAt, 0);
    if m.Some? then m.value else hashId(url)
  }

  /**
   * An id read from the link is a non-empty run of lower-case hex digits that
   * follows "jk=" in the link; only a link without such a run falls back to
   * the hash.
   */
  lemma ExtractJobIdShape(url: string, hashId: string -> string)
    ensures var r := ExtractJobId(url, hashId);
      SearchFrom(url, JkAt, 0).Some? ==>
        |r| > 0 && (forall k :: 0 <= k < |r| ==> IsHexDigit(r[k])) && Contains(url, "jk=" + r)
  {
    var m := SearchFrom(url, JkAt, 0);
    if m.Some? {
      var j :| 0 <= j < |url| && JkAt(url, j) == m;
      JkAtShape(url, j);
      ContainsAt(url, "jk=" + m.value, j);
    }
  }

  /** A link "...jk=<hex>" whose part before "jk=" holds no '=' gives back exactly that hex run. */
  lemma ExtractJobIdRoundTrip(prefix: string, hex: string, rest: string, hashId: string -> string)
    requires '=' !in prefix && |hex| > 0 && forall k :: 0 <= k < |hex| ==> IsHexDigit(hex[k])
    requires rest == "" || !IsHexDigit(rest[0])
    ensures ExtractJobId(prefix + "jk=" + hex + rest, hashId) == hex
  {
    var s := prefix + "jk=" + hex + rest;
    JkAtHex(prefix, hex, rest);
    NoJkInPrefix(prefix, hex + rest);
    assert s == prefix + ("jk=" + (hex + rest));
    SearchFindsFirst(s, JkAt, 0, |prefix|);
  }

  lemma JkAtHex(prefix: string, hex: string, rest: string)
    requires |hex| > 0 && forall k :: 0 <= k < |hex| ==> IsHexDigit(hex[k])
    requires rest == "" || !IsHexDigit(rest[0])
    ensures JkAt(prefix + "jk=" + hex + rest, |prefix|) == Some(hex)
  {
    var s := prefix + "jk=" + hex + rest;
    var j := |prefix|;
    assert s[j + 3..j + 3 + |hex|] == hex;
    assert rest != "" ==> s[j + 3 + |hex|] == rest[0];
    RunLenOfBlock(s, j + 3, hex, IsHexDigit);
  }

  lemma NoJkInPrefix(prefix: string, tail: string)
    requires '=' !in prefix
    ensures forall k :: 0 <= k < |prefix| ==> JkAt(prefix + ("jk=" + tail), k).None?
  {
    var s := prefix + ("jk=" + tail);
    forall k | 0 <= k < |prefix| ensures JkAt(s, k).None? {
      if k + 2 < |prefix| {
        assert s[k + 2] == prefix[k + 2];
      } else if k + 1 < |prefix| {
        assert s[k + 2] == 'j';
      } else {
        assert s[k + 1] == 'j';
      }
    }
  }

  // ---------------------------------------------------------------------------
  // Description HTML
  // ---------------------------------------------------------------------------

  /** A match of `<[^>]+>` starts here: '<', then a character other than '>', and a '>' later. */
  predicate IsTagStart(t: string) {
    |t| >= 2 && t[0] == '<' && t[1] != '>' && '>' in t
  }

  /** `re.sub(r"<[^>]+>", " ", s)`: each tag, up to its first '>', becomes one space. */
  function StripTags(s: string): (r: string)
    ensures |r| <= |s|
    ensures '>' !in s ==> r == s
    ensures |s| > 0 && s[0] != '<' ==> |r| > 0 && r[0] == s[0]
    decreases |s|
  {
    if |s| == 0 then ""
    else if IsTagStart(s) then
      var k := FirstIndex(s, '>');
      " " + StripTags(s[k + 1..])
    else [s[0]] + StripTags(s[1..])
  }

  /** No tag is left after tag removal. */
  lemma {:induction false} StripTagsNoTag(s: string)
    ensures forall i :: 0 <= i < |StripTags(s)| ==> !IsTagStart(StripTags(s)[i..])
    decreases |s|
  {
    var r := StripTags(s);
    if |s| > 0 {
      var rest := if IsTagStart(s) then s[FirstIndex(s, '>') + 1..] else s[1..];
      StripTagsNoTag(rest);
      var r' := StripTags(rest);
      assert r == r[..1] + r';
      forall i | 0 <= i < |r| ensures !IsTagStart(r[i..]) {
        if i > 0 {
          assert r[i..] == r'[i - 1..];
        } else if !IsTagStart(s) && s[0] == '<' {
          if |s| >= 2 && s[1] == '>' {
            assert r[1] == r'[0] == '>';
          } else if |s| >= 2 {
            assert '>' !in rest;
            assert r == s;
          }
        }
      }
    }
  }

  /** `_clean_html`: tags become spaces, entities are unescaped, whitespace runs become one space, and the ends are stripped. */
  function CleanHtml(html: string, unescape: string -> string): string {
    Extractors.PreprocessText(unescape(StripTags(html)))
  }

  /**
   * The cleaned description is single-spaced, keeps every non-whitespace
   * character of the unescaped tag-free text in order, and is empty only
   * when that text is all whitespace.
   */
  lemma CleanHtmlShape(html: string, unescape: string -> string)
    ensures Extractors.SingleSpaced(CleanHtml(html, unescape))
    ensures Extractors.NonSpace(CleanHtml(html, unescape)) == Extractors.NonSpace(unescape(StripTags(html)))
    ensures CleanHtml(html, unescape) == "" <==>
      forall i :: 0 <= i < |unescape(StripTags(html))| ==> IsSpace(unescape(StripTags(html))[i])
  {
    Extractors.PreprocessTextShape(unescape(StripTags(html)));
  }

  // ---------------------------------------------------------------------------
  // Items
  // ---------------------------------------------------------------------------

  /**
   * An RSS `<item>`: the texts of its `title`, `link`, `description` and
   * `pubDate` children, `None` where the child is missing and "" where it
   * has no text.
   */
  datatype RssItem = RssItem(title: Option<string>, link: Option<string>, description: Option<string>, pubDate: Option<string>)

  /** `html.unescape`, the `strptime` of the RSS date (`None` where it raises) and `str(hash(url))[-10:]`. */
  datatype ItemReaders = ItemReaders(unescape: string -> string, parseDate: string -> Option<int>, hashId: string -> string)

  /** `_determine_remote_type` over "title description". */
  function DetermineRemoteType(title: string, description: string): (r: string)
    ensures r in {HybridLabel, RemoteLabel, OnsiteLabel}
    ensures r != OnsiteLabel <==> ContainsAny(Lower(title + " " + description), RemoteKeywords)
    ensures r == HybridLabel <==> r != OnsiteLabel && ContainsAny(Lower(title + " " + description), HybridMarkers)
  {
    RemoteFromKeywords(title + " " + description, RemoteKeywords, HybridMarkers)
  }

  /** The description, or the generated sentence when it is empty. */
  function DescriptionOr(description: string, cleanTitle: string, company: string, keyword: string): (r: string)
    ensures r != ""
    ensures description != "" ==> r == description
  {
    if description != "" then description
    else "Job posting for " + cleanTitle + " at " + company + ". Keywords: " + keyword
  }

  /** The posting date: the parsed `pubDate` when it is given and parses, else the current time. */
  function PostedDate(pubDate: Option<string>, now: int, parseDate: string -> Option<int>): int {
    if Truthy(pubDate) && parseDate(pubDate.value).Some? then parseDate(pubDate.value).value else now
  }

  /**
   * `_parse_rss_item`: no job without a title or a link element; otherwise
   * the unescaped, stripped title gives company and location, the cleaned
   * title is the job title, the id is "indeed_" plus the link's job id, and
   * an empty description is replaced by a generated one.
   */
  function ParseRssItem(item: RssItem, keyword: string, now: int, rd: ItemReaders): (r: Option<Job>)
    ensures r.Some? <==> item.title.Some? && item.link.Some?
    ensures r.Some? ==>
      var title := Strip(rd.unescape(item.title.value));
      var cl := ParseTitle(title);
      var description := if Truthy(item.description) then CleanHtml(item.description.value, rd.unescape) else "";
      var j := r.value;
      j.id == IdPrefix + ExtractJobId(item.link.value, rd.hashId)
      && j.title == CleanTitleAsWritten(title, cl.company, cl.location)
      && j.company == cl.company && j.location == cl.location && j.url == item.link.value
      && j.description != "" && (description != "" ==> j.description == description)
      && j.remoteType == Some(DetermineRemoteType(title, description))
      && j.postedDate == PostedDate(item.pubDate, now, rd.parseDate)
      && j.source == Name
  {
    if item.title.None? || item.link.None? then None
    else
      var title := Strip(rd.unescape(item.title.value));
      var url := item.link.value;
      var description := if Truthy(item.description) then CleanHtml(item.description.value, rd.unescape) else "";
      var cl := ParseTitle(title);
      var cleanTitle := CleanTitleAsWritten(title, cl.company, cl.location);
      Some(Job(IdPrefix + ExtractJobId(url, rd.hashId), cleanTitle, cl.company, cl.location,
               Some(DetermineRemoteType(title, description)), url,
               DescriptionOr(description, cleanTitle, cl.company, keyword),
               PostedDate(item.pubDate, now, rd.parseDate), Name, None, None, None, None, None, None, None))
  }

  /**
   * An item titled "T - C - L" (pieces free of '-') is a job at company C in
   * L, titled T, or T followed by the rest of L when L starts with C.
   */
  lemma ParseRssItemTitle(item: RssItem, keyword: string, now: int, rd: ItemReaders, t: string, c: string, l: string)
    requires item.title.Some? && item.link.Some?
    requires Strip(rd.unescape(item.title.value)) == t + Separator + c + Separator + l
    requires '-' !in t && '-' !in c && '-' !in l
    requires Strip(c) == c && Strip(l) == l && c != UnknownCompany && l != UnknownLocation
    ensures var j := ParseRssItem(item, keyword, now, rd).value;
      && j.company == c && j.location == l
      && j.title == if c <= l then Strip(t + l[|c|..]) else Strip(t)
  {
    var title := Strip(rd.unescape(item.title.value));
    CleanTitleAsWrittenFormats(t, c, l);
    ParseTitleFormats(t, c, l);
    var cl := ParseTitle(title);
    assert cl == CompanyLocation(c, l);
  }

  // ---------------------------------------------------------------------------
  // fetch_jobs
  // ---------------------------------------------------------------------------

  /** `keywords or [defaults]`. */
  function KeywordList(keywords: Option<seq<string>>): (r: seq<string>)
    ensures |r| > 0
    ensures keywords.Some? && |keywords.value| > 0 ==> r == keywords.value
  {
    if keywords.Some? && |keywords.value| > 0 then keywords.value else DefaultKeywords
  }

  /** The feed URL for one keyword; spaces in keyword and location become '+'. */
  function FeedUrl(countryDomain: string, keyword: string, location: string): (r: string)
    ensures ' ' !in countryDomain ==> ' ' !in r
  {
    var q := ReplaceAll(keyword, " ", "+");
    var l := ReplaceAll(location, " ", "+");
    ReplaceCharSpec(keyword, ' ', '+');
    ReplaceCharSpec(location, ' ', '+');
    assert ' ' !in q && ' ' !in l by {
      assert " " == [' '] && "+" == ['+'];
    }
    "https://" + countryDomain + ".indeed.com/rss?q=" + q + "&l=" + l
  }

  /** `_fetch_rss_feed` for one keyword: the parsed items, or `None` where the request raised. */
  function FeedJobs(feed: string -> Option<seq<RssItem>>, countryDomain: string, location: string, now: int,
                    rd: ItemReaders, keyword: string): Option<seq<Job>>
  {
    var items := feed(FeedUrl(countryDomain, keyword, location));
    if items.None? then None
    else Some(Harvest(items.value, item => ParseRssItem(item, keyword, now, rd), j => true))
  }

  /**
   * The keyword loop: each keyword's jobs are appended to `acc`; a keyword
   * whose feed raised is skipped, and the loop stops as soon as `acc` holds
   * at least `maxResults` jobs after a successful feed.
   */
  function Gathered(keywords: seq<string>, fetch: string -> Option<seq<Job>>, maxResults: int, acc: seq<Job>): seq<Job>
    decreases |keywords|
  {
    if |keywords| == 0 then acc
    else
      var got := fetch(keywords[0]);
      if got.None? then Gathered(keywords[1..], fetch, maxResults, acc)
      else if |acc + got.value| >= maxResults then acc + got.value
      else Gathered(keywords[1..], fetch, maxResults, acc + got.value)
  }

  /** Every gathered job was already there or came from the feed of one of the keywords. */
  lemma {:induction false} GatheredMembers(keywords: seq<string>, fetch: string -> Option<seq<Job>>, maxResults: int,
                                           acc: seq<Job>, j: Job)
    requires j in Gathered(keywords, fetch, maxResults, acc)
    ensures j in acc || exists k :: k in keywords && fetch(k).Some? && j in fetch(k).value
    decreases |keywords|
  {
    if |keywords| > 0 {
      var got := fetch(keywords[0]);
      if got.None? {
        GatheredMembers(keywords[1..], fetch, maxResults, acc, j);
      } else if |acc + got.value| < maxResults {
        GatheredMembers(keywords[1..], fetch, maxResults, acc + got.value, j);
      }
      if j !in acc && j in got.GetOr([]) {
        assert keywords[0] in keywords;
      }
    }
  }

  /** A keyword loop in which every feed raised gathers nothing. */
  lemma {:induction false} AllFailedGathersNothing(keywords: seq<string>, fetch: string -> Option<seq<Job>>,
                                                   maxResults: int)
    requires forall k :: fetch(k).None?
    ensures Gathered(keywords, fetch, maxResults, []) == []
    decreases |keywords|
  {
    if |keywords| > 0 {
      AllFailedGathersNothing(keywords[1..], fetch, maxResults);
    }
  }

  /**
   * As written, `_fetch_rss_feed` awaits the `None` that the synchronous
   * `RateLimiter.wait` returns; the `TypeError` is caught per keyword like a
   * failed request, so `fetch_jobs` returns no job at all.
   */
  lemma FetchResultAsWritten(feed: string -> Option<seq<RssItem>>, keywords: Option<seq<string>>, location: string,
                             countryDomain: string, maxResults: int, now: int, rd: ItemReaders)
    requires forall u :: feed(u).None?
    ensures var fetch := k => FeedJobs(feed, countryDomain, location, now, rd, k);
      Take(ExactPass(Gathered(KeywordList(keywords), fetch, maxResults, [])), maxResults) == []
  {
    var fetch := k => FeedJobs(feed, countryDomain, location, now, rd, k);
    AllFailedGathersNothing(KeywordList(keywords), fetch, maxResults);
  }

  /** Every entry of the table is keyed by its job's id. */
  predicate KeyedById(table: seq<Entry<string, Job>>) {
    forall k :: 0 <= k < |table| ==> table[k].key == table[k].value.id
  }

  /** In a table keyed by id, the keys are the ids of the values. */
  lemma KeysAreIds(table: seq<Entry<string, Job>>, id: string)
    requires KeyedById(table)
    ensures id in Keys(table) <==> id in Ids(Values(table))
  {
    IdsMember(Values(table), id);
    if id in Keys(table) {
      var k :| 0 <= k < |table| && Keys(table)[k] == id;
      assert Values(table)[k].id == id;
    }
    if id in Ids(Values(table)) {
      var k :| 0 <= k < |table| && Values(table)[k].id == id;
      assert Keys(table)[k] == id;
    }
  }

  /** Appending an entry keyed by its job's id keeps the table keyed by id and appends the job to the values. */
  lemma AppendById(table: seq<Entry<string, Job>>, job: Job)
    requires KeyedById(table)
    ensures KeyedById(table + [Entry(job.id, job)])
    ensures Values(table + [Entry(job.id, job)]) == Values(table) + [job]
  {
    assert Values(table + [Entry(job.id, job)]) == Values(table) + [job];
  }

  /** `unique_jobs[job.id] = job` for ids not seen yet; the values in insertion order. */
  method FirstPerId(jobs: seq<Job>) returns (unique: seq<Job>)
    ensures unique == ExactPass(jobs)
  {
    var table: seq<Entry<string, Job>> := [];
    for i := 0 to |jobs|
      invariant KeyedById(table)
      invariant Values(table) == ExactPass(jobs[..i])
    {
      var job := jobs[i];
      ExactPassStep(jobs, i);
      ExactPassIds(jobs[..i]);
      KeysAreIds(table, job.id);
      if job.id !in Keys(table) {
        AppendById(table, job);
        PutAbsent(table, job.id, job);
        table := Put(table, job.id, job);
      }
    }
    assert jobs[..|jobs|] == jobs;
    unique := Values(table);
  }

  /** `fetch_jobs`: gather per keyword until enough, keep the first job per id, cut to `max_results`. */
  method FetchJobs(feed: string -> Option<seq<RssItem>>, keywords: Option<seq<string>>, location: string,
                   countryDomain: string, maxResults: int, now: int, rd: ItemReaders)
    returns (jobs: seq<Job>)
    ensures var fetch := k => FeedJobs(feed, countryDomain, location, now, rd, k);
      jobs == Take(ExactPass(Gathered(KeywordList(keywords), fetch, maxResults, [])), maxResults)
  {
    var fetch := k => FeedJobs(feed, countryDomain, location, now, rd, k);
    var ks := KeywordList(keywords);
    var gathered: seq<Job> := [];
    var i := 0;
    while i < |ks|
      invariant 0 <= i <= |ks|
      invariant Gathered(ks, fetch, maxResults, []) == Gathered(ks[i..], fetch, maxResults, gathered)
    {
      assert ks[i..][1..] == ks[i + 1..];
      var got := fetch(ks[i]);
      if got.Some? {
        gathered := gathered + got.value;
        if |gathered| >= maxResults {
          break;
        }
      }
      i := i + 1;
    }
    assert Gathered(ks, fetch, maxResults, []) == gathered;
    var unique := FirstPerId(gathered);
    jobs := Take(unique, maxResults);
  }

  /**
   * The result has each id once, at most `max_results` jobs, in gathered
   * order, and each is the first gathered job with its id.
   */
  lemma FetchResultProperties(gathered: seq<Job>, maxResults: int)
    ensures var r := Take(ExactPass(gathered), maxResults);
      DistinctIds(r) && IsSubseq(r, gathered)
      && (maxResults >= 0 ==> |r| <= maxResults)
      && forall k :: 0 <= k < |r| ==> FirstWithId(gathered, r[k].id) < |gathered| && r[k] == gathered[FirstWithId(gathered, r[k].id)]
  {
    var e := ExactPass(gathered);
    var r := Take(e, maxResults);
    ExactPassDistinctIds(gathered);
    ExactPassSubseq(gathered);
    TakePrefixSubseq(e, maxResults);
    SubseqTrans(r, e, gathered);
    SubseqDistinctIds(r, e);
    ExactPassKeepsFirst(gathered);
  }
}
