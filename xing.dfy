/**
 * `XingScraper`: the HTML job search of xing.com, read page by page. Each
 * job card is read into a job with defaults for what it lacks; its id is the
 * card's `data-job-id` attribute or else the one in its link. The page
 * request is a parameter (authentication required, not found, the page's
 * job cards, or an exception); finding the cards with CSS selectors and
 * encoding the query string are not modelled, and the hash fallback of the
 * id is a function passed in.
 */
module Xing {
  import opened Wrappers
  import opened Text
  import opened Jobs
  import opened Scraping

  const Name := "XING"
  const BaseUrl := "https://www.xing.com"
  const IdPrefix := "xing_"
  const UnknownCompany := "Unknown Company"
  const DefaultLocation := "Deutschland"
  const DefaultQuery := "Full Stack Backend Developer"
  const RemoteKeywords: seq<string> :=
    ["remote", "homeoffice", "home office", "home-office", "von zu hause", "ortsunabhängig", "deutschlandweit",
     "work from home", "wfh"]
  const HybridMarkers: seq<string> := ["hybrid", "teilweise", "anteilig"]

  // ---------------------------------------------------------------------------
  // Job id
  // ---------------------------------------------------------------------------

  predicate NotSlash(c: char) {
    c != '/'
  }

  /**
   * The group of `/jobs/[^/]+/([a-zA-Z0-9]+)` when a match starts at `j`:
   * "/jobs/", a non-empty slug up to the next '/', then the longest
   * non-empty alphanumeric run.
   */
  function JobsIdAt(s: string, j: nat): Option<string> {
    if j + 6 <= |s| && s[j..j + 6] == "/jobs/" then
      var m := RunLen(s, j + 6, NotSlash);
      var k := j + 6 + m;
      if m > 0 && k + 1 < |s| && s[k] == '/' && IsAsciiAlnum(s[k + 1]) then
        Some(s[k + 1..k + 1 + RunLen(s, k + 1, IsAsciiAlnum)])
      else None
    else None
  }

  /** `_extract_job_id`: the id of the leftmost "/jobs/<slug>/<id>" in the URL, or else the hash fallback. */
  function ExtractJobId(url: string, hashId: string -> string): (r: string)
    ensures SearchFrom(url, JobsIdAt, 0).None? ==> r == hashId(url)
    ensures SearchFrom(url, JobsIdAt, 0).Some? ==> r == SearchFrom(url, JobsIdAt, 0).value
  {
    var m := SearchFrom(url, JobsIdAt, 0);
    if m.Some? then m.value else hashId(url)
  }

  /** A match at `j` is a non-empty alphanumeric run that follows "/jobs/<slug>/" in `s`. */
  lemma JobsIdAtShape(s: string, j: nat)
    requires JobsIdAt(s, j).Some?
    ensures var v := JobsIdAt(s, j).value;
      |v| > 0 && (forall i :: 0 <= i < |v| ==> IsAsciiAlnum(v[i]))
      && exists k :: j + 6 < k < |s| && s[k] == '/' && OccursAt(s, v, k + 1)
  {
    var m := RunLen(s, j + 6, NotSlash);
    var k := j + 6 + m;
    var v := JobsIdAt(s, j).value;
    assert s[k + 1..k + 1 + |v|] == v;
  }

  /** An id read from the URL is a non-empty alphanumeric run found in the URL right after a '/'. */
  lemma ExtractJobIdShape(url: string, hashId: string -> string)
    ensures var r := ExtractJobId(url, hashId);
      SearchFrom(url, JobsIdAt, 0).Some? ==>
        |r| > 0 && (forall i :: 0 <= i < |r| ==> IsAsciiAlnum(r[i])) && Contains(url, "/" + r)
  {
    var m := SearchFrom(url, JobsIdAt, 0);
    if m.Some? {
      var j :| 0 <= j < |url| && JobsIdAt(url, j) == m;
      JobsIdAtShape(url, j);
      var k :| j + 6 < k < |url| && url[k] == '/' && OccursAt(url, m.value, k + 1);
      SlashBefore(url, m.value, k);
    }
  }

  lemma SlashBefore(s: string, v: string, k: nat)
    requires k < |s| && s[k] == '/' && OccursAt(s, v, k + 1)
    ensures Contains(s, "/" + v)
  {
    assert s[k..k + 1 + |v|] == "/" + v;
    ContainsAt(s, "/" + v, k);
  }

  /**
   * A link "<prefix>/jobs/<slug>/<id><rest>" whose prefix holds no '/'
   * gives back `id`, when the slug is non-empty and '/'-free, the id is
   * alphanumeric and the rest does not continue it.
   */
  lemma ExtractJobIdRoundTrip(prefix: string, slug: string, id: string, rest: string, hashId: string -> string)
    requires '/' !in prefix && |slug| > 0 && '/' !in slug
    requires |id| > 0 && forall i :: 0 <= i < |id| ==> IsAsciiAlnum(id[i])
    requires rest == "" || !IsAsciiAlnum(rest[0])
    ensures ExtractJobId(prefix + "/jobs/" + slug + "/" + id + rest, hashId) == id
  {
    var s := prefix + "/jobs/" + slug + "/" + id + rest;
    var j := |prefix|;
    PrefixAndTail(s, prefix, "/jobs/" + slug + "/" + id + rest);
    MatchAtTail(s, j, slug, id, rest);
    NoMatchInPrefix(s, prefix);
    SearchFindsFirst(s, JobsIdAt, 0, j);
  }

  lemma PrefixAndTail(s: string, prefix: string, tail: string)
    requires s == prefix + tail
    ensures |prefix| <= |s| && s[|prefix|..] == tail && s[..|prefix|] == prefix
  {
  }

  /** No match starts inside a prefix without '/'. */
  lemma NoMatchInPrefix(s: string, prefix: string)
    requires |prefix| <= |s| && s[..|prefix|] == prefix && '/' !in prefix
    ensures forall i :: 0 <= i < |prefix| ==> JobsIdAt(s, i).None?
  {
    forall i | 0 <= i < |prefix| ensures JobsIdAt(s, i).None? {
      assert s[i] == prefix[i];
      if i + 6 <= |s| {
        assert s[i..i + 6][0] == s[i];
      }
    }
  }

  /** Where "/jobs/<slug>/<id><rest>" starts, the match gives `id`. */
  lemma MatchAtTail(s: string, j: nat, slug: string, id: string, rest: string)
    requires j <= |s| && s[j..] == "/jobs/" + slug + "/" + id + rest
    requires |slug| > 0 && '/' !in slug
    requires |id| > 0 && forall i :: 0 <= i < |id| ==> IsAsciiAlnum(id[i])
    requires rest == "" || !IsAsciiAlnum(rest[0])
    ensures JobsIdAt(s, j) == Some(id)
  {
    TailParts(s, j, slug, id, rest);
    JobsIdAtParts(s, j, |slug|, id);
  }

  lemma TailParts(s: string, j: nat, slug: string, id: string, rest: string)
    requires j <= |s| && s[j..] == "/jobs/" + slug + "/" + id + rest
    requires |slug| > 0 && '/' !in slug
    requires |id| > 0 && forall i :: 0 <= i < |id| ==> IsAsciiAlnum(id[i])
    requires rest == "" || !IsAsciiAlnum(rest[0])
    ensures j + 7 + |slug| + |id| <= |s| && s[j..j + 6] == "/jobs/"
    ensures RunLen(s, j + 6, NotSlash) == |slug| && s[j + 6 + |slug|] == '/'
    ensures RunLen(s, j + 7 + |slug|, IsAsciiAlnum) == |id| && s[j + 7 + |slug|..j + 7 + |slug| + |id|] == id
  {
    JobsPathParts(s[j..], slug, id, rest);
    SliceOfSuffix(s, j, 0, 6);
    SliceOfSuffix(s, j, 6, 6 + |slug|);
    SuffixOfSuffix(s, j, 7 + |slug|);
    assert s[j + 6 + |slug|] == s[j..][6 + |slug|];
    SlugRun(s, j + 6, slug);
    IdRun(s, j + 7 + |slug|, id, rest);
  }

  /** Reading a match off its parts: "/jobs/", a slug run of length `m`, '/', then the id run. */
  lemma JobsIdAtParts(s: string, j: nat, m: nat, id: string)
    requires j + 7 + m + |id| <= |s| && s[j..j + 6] == "/jobs/"
    requires m > 0 && RunLen(s, j + 6, NotSlash) == m && s[j + 6 + m] == '/'
    requires |id| > 0 && RunLen(s, j + 7 + m, IsAsciiAlnum) == |id| && s[j + 7 + m..j + 7 + m + |id|] == id
    ensures JobsIdAt(s, j) == Some(id)
  {
    assert IsAsciiAlnum(s[j + 7 + m]);
  }

  /** The parts of a "/jobs/<slug>/<id><rest>" path. */
  lemma JobsPathParts(t: string, slug: string, id: string, rest: string)
    requires t == "/jobs/" + slug + "/" + id + rest
    ensures |t| == 7 + |slug| + |id| + |rest|
    ensures t[..6] == "/jobs/" && t[6..6 + |slug|] == slug && t[6 + |slug|] == '/'
    ensures t[7 + |slug|..] == id + rest
  {
  }

  lemma SlugRun(s: string, at: nat, slug: string)
    requires at + |slug| < |s| && s[at..at + |slug|] == slug && '/' !in slug && s[at + |slug|] == '/'
    ensures RunLen(s, at, NotSlash) == |slug|
  {
    forall i | at <= i < at + |slug| ensures NotSlash(s[i]) {
      assert s[i] == slug[i - at];
    }
  }

  lemma IdRun(s: string, at: nat, id: string, rest: string)
    requires at + |id| <= |s| && s[at..] == id + rest
    requires forall i :: 0 <= i < |id| ==> IsAsciiAlnum(id[i])
    requires rest == "" || !IsAsciiAlnum(rest[0])
    ensures RunLen(s, at, IsAsciiAlnum) == |id| && s[at..at + |id|] == id
  {
    forall i | at <= i < at + |id| ensures IsAsciiAlnum(s[i]) {
      assert s[i] == s[at..][i - at] == id[i - at];
    }
    if rest != "" {
      assert s[at + |id|] == s[at..][|id|] == rest[0];
    }
    assert s[at..at + |id|] == s[at..][..|id|];
  }

  // ---------------------------------------------------------------------------
  // Job cards
  // ---------------------------------------------------------------------------

  /** `_determine_remote_type` over "title description location". */
  function DetermineRemoteType(title: string, description: string, location: string): (r: string)
    ensures r in {HybridLabel, RemoteLabel, OnsiteLabel}
    ensures r != OnsiteLabel <==> ContainsAny(Lower(title + " " + description + " " + location), RemoteKeywords)
    ensures r == HybridLabel <==> r != OnsiteLabel && ContainsAny(Lower(title + " " + description + " " + location), HybridMarkers)
  {
    RemoteFromKeywords(title + " " + description + " " + location, RemoteKeywords, HybridMarkers)
  }

  /** The snippet, or the generated sentence naming the title, the company, XING and the search keywords. */
  function DescriptionOr(snippet: Option<string>, title: string, company: string, searchKeywords: string): (r: string)
    ensures snippet.Some? ==> r == Strip(snippet.value)
    ensures snippet.None? ==> r == "Job posting for " + title + " at " + company + " on XING. Search keywords: " + searchKeywords
  {
    TextOr(snippet, "Job posting for " + title + " at " + company + " on XING. Search keywords: " + searchKeywords)
  }

  /** `container.get("data-job-id") or self._extract_job_id(url)`. */
  function CardId(card: Card, url: string, hashId: string -> string): (r: string)
    ensures Truthy(card.jobIdAttribute) ==> r == card.jobIdAttribute.value
    ensures !Truthy(card.jobIdAttribute) ==> r == ExtractJobId(url, hashId)
  {
    if Truthy(card.jobIdAttribute) then card.jobIdAttribute.value else ExtractJobId(url, hashId)
  }

  /**
   * `_parse_job_container`: no job without a title link; otherwise the link
   * is made absolute, company and location default to "Unknown Company" and
   * "Deutschland", the id is "xing_" plus the card's id, and the posting
   * date is one day before now.
   */
  function ParseJobContainer(card: Card, searchKeywords: string, now: int, hashId: string -> string): (r: Option<Job>)
    ensures r.Some? <==> card.title.Some?
    ensures r.Some? ==>
      var j := r.value;
      var url := AbsoluteUrl(BaseUrl, card.title.value.href.GetOr(""));
      j.title == Strip(card.title.value.text) && j.url == url
      && j.company == TextOr(card.company, UnknownCompany)
      && j.location == TextOr(card.location, DefaultLocation)
      && j.description == DescriptionOr(card.snippet, j.title, j.company, searchKeywords)
      && j.id == IdPrefix + CardId(card, url, hashId)
      && j.remoteType == Some(DetermineRemoteType(j.title, j.description, j.location))
      && j.postedDate == now - SecondsPerDay
      && j.source == Name
  {
    if card.title.None? then None
    else
      var title := Strip(card.title.value.text);
      var url := AbsoluteUrl(BaseUrl, card.title.value.href.GetOr(""));
      var company := TextOr(card.company, UnknownCompany);
      var location := TextOr(card.location, DefaultLocation);
      var description := DescriptionOr(card.snippet, title, company, searchKeywords);
      Some(Job(IdPrefix + CardId(card, url, hashId), title, company, location,
               Some(DetermineRemoteType(title, description, location)), url, description,
               now - SecondsPerDay, Name, None, None, None, None, None, None, None))
  }

  /**
   * The card's `data-job-id` wins over the link: two cards that differ only
   * in their link get the same id when the attribute is set.
   */
  lemma AttributeIdWins(card: Card, href: string, searchKeywords: string, now: int, hashId: string -> string)
    requires card.title.Some? && Truthy(card.jobIdAttribute)
    ensures var other := card.(title := Some(card.title.value.(href := Some(href))));
      ParseJobContainer(card, searchKeywords, now, hashId).value.id
        == ParseJobContainer(other, searchKeywords, now, hashId).value.id
        == IdPrefix + card.jobIdAttribute.value
  {
  }

  // ---------------------------------------------------------------------------
  // fetch_jobs
  // ---------------------------------------------------------------------------

  /** `" ".join(keywords) if keywords else` the default query. */
  function SearchQuery(keywords: Option<seq<string>>): (r: string)
    ensures keywords.None? || |keywords.value| == 0 ==> r == DefaultQuery
    ensures keywords.Some? && |keywords.value| > 0 ==> r == Join(keywords.value, " ")
  {
    if keywords.Some? && |keywords.value| > 0 then Join(keywords.value, " ") else DefaultQuery
  }

  /** The parameters of `/jobs/search`. */
  datatype Request = Request(keywords: string, location: string, page: int)

  /** What a page request gave: status 401 or 403, status 404, the job cards found on the page, or an exception. */
  datatype Response = AuthRequired | NotFound | Cards(cards: seq<Card>) | Failed

  /** `_fetch_page`: 401, 403 and 404 give an empty page; otherwise every card is parsed and those without a title dropped. */
  function PageJobs(pages: Request -> Response, query: string, location: string, now: int,
                    hashId: string -> string, page: int): (r: PageOutcome)
    ensures pages(Request(query, location, page)).AuthRequired? ==> r == Fetched([])
    ensures pages(Request(query, location, page)).NotFound? ==> r == Fetched([])
    ensures pages(Request(query, location, page)).Failed? <==> r.Raised?
  {
    match pages(Request(query, location, page))
    case AuthRequired => Fetched([])
    case NotFound => Fetched([])
    case Failed => Raised
    case Cards(cards) => Fetched(Harvest(cards, card => ParseJobContainer(card, query, now, hashId), j => true))
  }

  function FetchResult(pages: Request -> Response, keywords: Option<seq<string>>, location: string,
                       maxPages: int, now: int, hashId: string -> string): seq<Job>
  {
    var query := SearchQuery(keywords);
    PagesJobs(page => PageJobs(pages, query, location, now, hashId, page), 1, maxPages)
  }

  /**
   * As written, the awaited rate-limiter call raises before every page
   * request, exactly as a failed request does; then the search finds nothing.
   */
  lemma FetchResultAsWritten(pages: Request -> Response, keywords: Option<seq<string>>, location: string,
                             maxPages: int, now: int, hashId: string -> string)
    requires forall rq :: pages(rq) == Failed
    ensures FetchResult(pages, keywords, location, maxPages, now, hashId) == []
  {
    var query := SearchQuery(keywords);
    AllRaisedGathersNothing(page => PageJobs(pages, query, location, now, hashId, page), 1, maxPages);
  }

  /** `fetch_jobs`: pages 1 to `max_pages`, up to the first page without jobs. */
  method FetchJobs(pages: Request -> Response, keywords: Option<seq<string>>, location: string,
                   maxPages: int, now: int, hashId: string -> string) returns (jobs: seq<Job>)
    ensures jobs == FetchResult(pages, keywords, location, maxPages, now, hashId)
  {
    var query := SearchQuery(keywords);
    jobs := FetchPages(page => PageJobs(pages, query, location, now, hashId, page), maxPages);
  }

  /**
   * A page that asks for authentication ends the search: whatever the later
   * pages would give, the result is the same as if they had given nothing.
   */
  lemma AuthRequiredEndsSearch(pages: Request -> Response, other: Request -> Response, keywords: Option<seq<string>>,
                               location: string, maxPages: int, now: int, hashId: string -> string, e: int)
    requires 1 <= e <= maxPages && pages(Request(SearchQuery(keywords), location, e)).AuthRequired?
    requires forall p :: 1 <= p <= e ==> pages(Request(SearchQuery(keywords), location, p))
                                         == other(Request(SearchQuery(keywords), location, p))
    ensures FetchResult(pages, keywords, location, maxPages, now, hashId)
         == FetchResult(other, keywords, location, maxPages, now, hashId)
  {
    var query := SearchQuery(keywords);
    var f := page => PageJobs(pages, query, location, now, hashId, page);
    var g := page => PageJobs(other, query, location, now, hashId, page);
    forall p | 1 <= p <= e ensures f(p) == g(p) {
      assert pages(Request(query, location, p)) == other(Request(query, location, p));
    }
    PagesStopAtEmpty(f, g, 1, maxPages, e);
  }

  /**
   * Every job returned is the parse of a card with a title link on a page
   * from 1 to `max_pages`; it carries the "xing_" prefix and the source name.
   */
  lemma FetchResultProperties(pages: Request -> Response, keywords: Option<seq<string>>, location: string,
                              maxPages: int, now: int, hashId: string -> string, j: Job)
    requires j in FetchResult(pages, keywords, location, maxPages, now, hashId)
    ensures exists p, card ::
              1 <= p <= maxPages
              && pages(Request(SearchQuery(keywords), location, p)).Cards?
              && card in pages(Request(SearchQuery(keywords), location, p)).cards
              && card.title.Some?
              && ParseJobContainer(card, SearchQuery(keywords), now, hashId) == Some(j)
    ensures StartsWith(j.id, IdPrefix) && j.source == Name && j.postedDate == now - SecondsPerDay
  {
    var query := SearchQuery(keywords);
    var fetch := page => PageJobs(pages, query, location, now, hashId, page);
    PagesJobsFromPages(fetch, 1, maxPages, j);
    var p :| 1 <= p <= maxPages && fetch(p).Fetched? && j in fetch(p).jobs;
    var response := pages(Request(query, location, p));
    assert response.Cards?;
    var parse := card => ParseJobContainer(card, query, now, hashId);
    HarvestMembers(response.cards, parse, x => true, j);
    var i :| 0 <= i < |response.cards| && parse(response.cards[i]) == Some(j);
    var card := response.cards[i];
    assert ParseJobContainer(card, query, now, hashId) == Some(j);
    ParsedJobFields(card, query, now, hashId, j);
  }

  lemma ParsedJobFields(card: Card, query: string, now: int, hashId: string -> string, j: Job)
    requires ParseJobContainer(card, query, now, hashId) == Some(j)
    ensures card.title.Some? && StartsWith(j.id, IdPrefix) && j.source == Name && j.postedDate == now - SecondsPerDay
  {
    var url := AbsoluteUrl(BaseUrl, card.title.value.href.GetOr(""));
    assert (IdPrefix + CardId(card, url, hashId))[..|IdPrefix|] == IdPrefix;
  }
}
