/**
 * What the job-board scrapers have in common: the keyword test that decides
 * between "Remote", "Hybrid" and "Onsite", the case-insensitive keyword
 * filter, the page loop that stops at the first empty page, the
 * parse-then-filter loop over raw listings, making a relative link absolute,
 * and the leftmost-match search the id-extracting regular expressions do.
 * The network is a parameter: what a request for page `p` (or for a feed)
 * returned, or that it raised.
 */
module Scraping {
  import opened Wrappers
  import opened Text
  import opened Jobs

  const RemoteLabel := "Remote"
  const HybridLabel := "Hybrid"
  const OnsiteLabel := "Onsite"

  // ---------------------------------------------------------------------------
  // Remote type from keywords
  // ---------------------------------------------------------------------------

  /**
   * The `_determine_remote_type` of the keyword-based scrapers: on the
   * lower-cased text, a remote keyword together with a hybrid marker is
   * Hybrid, a remote keyword alone is Remote, and no remote keyword is
   * Onsite whatever else the text says.
   */
  function RemoteFromKeywords(text: string, remoteKeywords: seq<string>, hybridMarkers: seq<string>): (r: string)
    ensures var t := Lower(text);
      (r == HybridLabel <==> ContainsAny(t, remoteKeywords) && ContainsAny(t, hybridMarkers))
      && (r == RemoteLabel <==> ContainsAny(t, remoteKeywords) && !ContainsAny(t, hybridMarkers))
      && (r == OnsiteLabel <==> !ContainsAny(t, remoteKeywords))
  {
    var t := Lower(text);
    if exists k :: k in remoteKeywords && Contains(t, k) then
      if exists k :: k in hybridMarkers && Contains(t, k) then HybridLabel else RemoteLabel
    else OnsiteLabel
  }

  /** A keyword found in the lower-cased `a` is still found once more text is appended or prepended. */
  lemma ContainsAnyGrows(a: string, b: string, ks: seq<string>)
    requires ContainsAny(Lower(a), ks)
    ensures ContainsAny(Lower(a + b), ks) && ContainsAny(Lower(b + a), ks)
  {
    var k :| k in ks && Contains(Lower(a), k);
    LowerConcat(a, b);
    LowerConcat(b, a);
    ContainsConcat(Lower(a), Lower(b), k);
    ContainsConcat(Lower(b), Lower(a), k);
  }

  /**
   * More text never takes remote work away: a text that is already Remote or
   * Hybrid stays out of Onsite with anything appended, and a Hybrid text
   * stays Hybrid.
   */
  lemma RemoteFromKeywordsGrows(a: string, b: string, remoteKeywords: seq<string>, hybridMarkers: seq<string>)
    ensures RemoteFromKeywords(a, remoteKeywords, hybridMarkers) != OnsiteLabel ==>
      RemoteFromKeywords(a + b, remoteKeywords, hybridMarkers) != OnsiteLabel
    ensures RemoteFromKeywords(a, remoteKeywords, hybridMarkers) == HybridLabel ==>
      RemoteFromKeywords(a + b, remoteKeywords, hybridMarkers) == HybridLabel
  {
    if ContainsAny(Lower(a), remoteKeywords) {
      ContainsAnyGrows(a, b, remoteKeywords);
    }
    if ContainsAny(Lower(a), hybridMarkers) {
      ContainsAnyGrows(a, b, hybridMarkers);
    }
  }

  // ---------------------------------------------------------------------------
  // Keyword filter
  // ---------------------------------------------------------------------------

  /** `any(keyword.lower() in searchable.lower() for keyword in keywords)`. */
  predicate AnyKeywordIn(searchable: string, keywords: seq<string>) {
    exists k :: k in keywords && Contains(Lower(searchable), Lower(k))
  }

  /** A keyword found, in any letter case, in one field matches the fields joined with spaces. */
  lemma KeywordInFieldMatches(fields: seq<string>, i: nat, k: string, keywords: seq<string>)
    requires i < |fields| && k in keywords && Contains(Lower(fields[i]), Lower(k))
    ensures AnyKeywordIn(Join(fields, " "), keywords)
  {
    JoinContainsField(fields, i, Lower(k));
  }

  lemma {:induction false} JoinContainsField(fields: seq<string>, i: nat, p: string)
    requires i < |fields| && Contains(Lower(fields[i]), p)
    ensures Contains(Lower(Join(fields, " ")), p)
    decreases |fields|
  {
    if |fields| > 1 {
      var rest := Join(fields[1..], " ");
      LowerConcat(fields[0] + " ", rest);
      LowerConcat(fields[0], " ");
      if i == 0 {
        ContainsConcat(Lower(fields[0]), Lower(" "), p);
        ContainsConcat(Lower(fields[0]) + Lower(" "), Lower(rest), p);
      } else {
        JoinContainsField(fields[1..], i - 1, p);
        ContainsConcat(Lower(fields[0] + " "), Lower(rest), p);
      }
    }
  }

  // ---------------------------------------------------------------------------
  // Page loop
  // ---------------------------------------------------------------------------

  /** What one page (or feed) request gave: the jobs parsed from it, or an exception. */
  datatype PageOutcome = Fetched(jobs: seq<Job>) | Raised

  /**
   * The jobs `fetch_jobs` gathers from pages `page` to `maxPages`: a page
   * that raised is skipped, and the first page that returns no job ends the
   * search.
   */
  function PagesJobs(fetch: int -> PageOutcome, page: int, maxPages: int): seq<Job>
    decreases maxPages - page + 1
  {
    if page > maxPages then []
    else match fetch(page)
      case Raised => PagesJobs(fetch, page + 1, maxPages)
      case Fetched(js) => if |js| == 0 then [] else js + PagesJobs(fetch, page + 1, maxPages)
  }

  /** The page loop of `fetch_jobs`, for pages 1 to `maxPages`. */
  method FetchPages(fetch: int -> PageOutcome, maxPages: int) returns (jobs: seq<Job>)
    ensures jobs == PagesJobs(fetch, 1, maxPages)
  {
    jobs := [];
    var page := 1;
    while page <= maxPages
      invariant jobs + PagesJobs(fetch, page, maxPages) == PagesJobs(fetch, 1, maxPages)
      decreases maxPages - page + 1
    {
      var outcome := fetch(page);
      if outcome.Fetched? {
        jobs := jobs + outcome.jobs;
        if |outcome.jobs| == 0 {
          assert jobs + PagesJobs(fetch, page, maxPages) == jobs;
          return;
        }
      }
      page := page + 1;
    }
    assert jobs + [] == jobs;
  }

  /** Every gathered job comes from a page in range that returned it. */
  lemma {:induction false} PagesJobsFromPages(fetch: int -> PageOutcome, page: int, maxPages: int, j: Job)
    requires j in PagesJobs(fetch, page, maxPages)
    ensures exists p :: page <= p <= maxPages && fetch(p).Fetched? && j in fetch(p).jobs
    decreases maxPages - page + 1
  {
    var rest := PagesJobs(fetch, page + 1, maxPages);
    if fetch(page).Raised? || j !in fetch(page).jobs {
      assert j in rest;
      PagesJobsFromPages(fetch, page + 1, maxPages, j);
    }
  }

  /**
   * As written, `fetch_jobs` awaits the `None` that the synchronous
   * `RateLimiter.wait` returns before every request; the resulting
   * `TypeError` makes every page count as raised, and then nothing is
   * gathered.
   */
  lemma {:induction false} AllRaisedGathersNothing(fetch: int -> PageOutcome, page: int, maxPages: int)
    requires forall p :: fetch(p) == Raised
    ensures PagesJobs(fetch, page, maxPages) == []
    decreases maxPages - page + 1
  {
    if page <= maxPages {
      AllRaisedGathersNothing(fetch, page + 1, maxPages);
    }
  }

  /**
   * Pages after the first empty one are never requested: two networks that
   * agree up to an empty page `e` give the same jobs.
   */
  lemma {:induction false} PagesStopAtEmpty(f: int -> PageOutcome, g: int -> PageOutcome, page: int, maxPages: int, e: int)
    requires page <= e <= maxPages && f(e) == Fetched([])
    requires forall p :: page <= p <= e ==> f(p) == g(p)
    ensures PagesJobs(f, page, maxPages) == PagesJobs(g, page, maxPages)
    decreases e - page
  {
    if page < e {
      PagesStopAtEmpty(f, g, page + 1, maxPages, e);
    }
  }

  // ---------------------------------------------------------------------------
  // Parse-then-filter loop
  // ---------------------------------------------------------------------------

  /**
   * The loop over raw listings: each listing is parsed (`None` where parsing
   * gave nothing or raised), and a parsed job is kept when `accept` holds.
   */
  function Harvest<T>(items: seq<T>, parse: T -> Option<Job>, accept: Job -> bool): (r: seq<Job>)
    ensures |r| <= |items|
    decreases |items|
  {
    if |items| == 0 then []
    else
      var init := Harvest(items[..|items| - 1], parse, accept);
      var p := parse(items[|items| - 1]);
      if p.Some? && accept(p.value) then init + [p.value] else init
  }

  method HarvestItems<T>(items: seq<T>, parse: T -> Option<Job>, accept: Job -> bool) returns (jobs: seq<Job>)
    ensures jobs == Harvest(items, parse, accept)
  {
    jobs := [];
    for i := 0 to |items|
      invariant jobs == Harvest(items[..i], parse, accept)
    {
      assert items[..i + 1][..i] == items[..i];
      var job := parse(items[i]);
      if job.Some? && accept(job.value) {
        jobs := jobs + [job.value];
      }
    }
    assert items[..|items|] == items;
  }

  /** The kept jobs are exactly the accepted results of parsing a listing. */
  lemma {:induction false} HarvestMembers<T>(items: seq<T>, parse: T -> Option<Job>, accept: Job -> bool, j: Job)
    ensures j in Harvest(items, parse, accept) <==>
      exists i :: 0 <= i < |items| && parse(items[i]) == Some(j) && accept(j)
    decreases |items|
  {
    if |items| > 0 {
      var init := items[..|items| - 1];
      HarvestMembers(init, parse, accept, j);
      if exists i :: 0 <= i < |items| && parse(items[i]) == Some(j) && accept(j) {
        var i :| 0 <= i < |items| && parse(items[i]) == Some(j) && accept(j);
        if i < |init| {
          assert init[i] == items[i];
        }
      }
      if exists i :: 0 <= i < |init| && parse(init[i]) == Some(j) && accept(j) {
        var i :| 0 <= i < |init| && parse(init[i]) == Some(j) && accept(j);
        assert items[i] == init[i];
      }
    }
  }

  // ---------------------------------------------------------------------------
  // Links
  // ---------------------------------------------------------------------------

  /** `url = f"{base}{url}"` when the link is non-empty and does not start with "http". */
  function AbsoluteUrl(base: string, href: string): (r: string)
    ensures href == "" || StartsWith(href, "http") ==> r == href
    ensures href != "" && !StartsWith(href, "http") ==> r == base + href
  {
    if href != "" && !StartsWith(href, "http") then base + href else href
  }

  /** With an absolute base, a non-empty link comes out absolute, and making it absolute again changes nothing. */
  lemma AbsoluteUrlAbsolute(base: string, href: string)
    requires StartsWith(base, "http")
    ensures href != "" ==> StartsWith(AbsoluteUrl(base, href), "http")
    ensures AbsoluteUrl(base, AbsoluteUrl(base, href)) == AbsoluteUrl(base, href)
  {
    if href != "" && !StartsWith(href, "http") {
      assert (base + href)[..4] == base[..4];
    }
  }

  // ---------------------------------------------------------------------------
  // Leftmost match (`re.search`)
  // ---------------------------------------------------------------------------

  /** Length of the longest run of characters in `inClass` starting at `i`. */
  function RunLen(s: string, i: nat, inClass: char -> bool): (n: nat)
    requires i <= |s|
    ensures i + n <= |s|
    ensures forall k :: i <= k < i + n ==> inClass(s[k])
    ensures i + n == |s| || !inClass(s[i + n])
    decreases |s| - i
  {
    if i == |s| || !inClass(s[i]) then 0 else 1 + RunLen(s, i + 1, inClass)
  }

  /** A block of class characters followed by the end or a character outside the class is the whole run. */
  lemma RunLenOfBlock(s: string, i: nat, v: string, inClass: char -> bool)
    requires i + |v| <= |s| && s[i..i + |v|] == v
    requires forall k :: 0 <= k < |v| ==> inClass(v[k])
    requires i + |v| == |s| || !inClass(s[i + |v|])
    ensures RunLen(s, i, inClass) == |v|
  {
  }

  /**
   * `re.search`: the group of the match at the leftmost position from `i`
   * on where `matchAt` finds one.
   */
  function SearchFrom(s: string, matchAt: (string, nat) -> Option<string>, i: nat): (r: Option<string>)
    ensures r.Some? ==> exists j :: i <= j < |s| && matchAt(s, j) == r && forall k :: i <= k < j ==> matchAt(s, k).None?
    ensures r.None? ==> forall k :: i <= k < |s| ==> matchAt(s, k).None?
    decreases |s| - i
  {
    if i >= |s| then None
    else if matchAt(s, i).Some? then matchAt(s, i)
    else SearchFrom(s, matchAt, i + 1)
  }

  /** A match at `j` with none before it is the one the search returns. */
  lemma {:induction false} SearchFindsFirst(s: string, matchAt: (string, nat) -> Option<string>, i: nat, j: nat)
    requires i <= j < |s| && matchAt(s, j).Some?
    requires forall k :: i <= k < j ==> matchAt(s, k).None?
    ensures SearchFrom(s, matchAt, i) == matchAt(s, j)
    decreases j - i
  {
    if i < j {
      SearchFindsFirst(s, matchAt, i + 1, j);
    }
  }

  predicate IsAsciiDigit(c: char) {
    '0' <= c <= '9'
  }

  predicate IsAsciiAlnum(c: char) {
    ('a' <= c <= 'z') || ('A' <= c <= 'Z') || IsAsciiDigit(c)
  }

  // ---------------------------------------------------------------------------
  // HTML job cards
  // ---------------------------------------------------------------------------

  /** The title link of a card: its text and its `href` attribute, if any. */
  datatype Anchor = Anchor(text: string, href: Option<string>)

  /**
   * A job card of an HTML results page, as the CSS selectors find it: the
   * title link and the texts of the company, location and snippet elements
   * (`None` where no selector matched), and the `data-job-id` attribute.
   */
  datatype Card = Card(title: Option<Anchor>, company: Option<string>, location: Option<string>,
                       snippet: Option<string>, jobIdAttribute: Option<string>)

  /** `elem.text.strip() if elem else default`. */
  function TextOr(elem: Option<string>, default: string): (r: string)
    ensures elem.Some? ==> r == Strip(elem.value)
    ensures elem.None? ==> r == default
  {
    if elem.Some? then Strip(elem.value) else default
  }
}
