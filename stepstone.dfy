/**
 * `StepStoneScraper`: the HTML search pages of stepstone.de, read page by
 * page. Each page's URL is built from slugs of the keywords and the
 * location; each job card is read into a job with defaults for what it
 * lacks. The page request is a parameter (not found, the page's job cards,
 * or an exception); finding the cards with CSS selectors is not modelled,
 * and the hash fallback of the id is a function passed in.
 */
module StepStone {
  import opened Wrappers
  import opened Text
  import opened Jobs
  import opened Scraping

  const Name := "StepStone"
  const BaseUrl := "https://www.stepstone.de"
  const IdPrefix := "stepstone_"
  const UnknownCompany := "Unknown Company"
  const DefaultLocation := "Deutschland"
  const DefaultQuery := "Full Stack Backend Developer"
  const RemoteKeywords: seq<string> :=
    ["remote", "homeoffice", "home office", "home-office", "von zu hause", "deutschlandweit", "ortsunabhängig"]
  const HybridMarkers: seq<string> := ["hybrid", "teilweise"]

  // ---------------------------------------------------------------------------
  // Search URL
  // ---------------------------------------------------------------------------

  /** `s.lower().replace(" ", "-")`. */
  function Slug(s: string): (r: string)
    ensures |r| == |s| && ' ' !in r
    ensures forall i :: 0 <= i < |s| ==> r[i] == if Lower(s)[i] == ' ' then '-' else Lower(s)[i]
  {
    var l := Lower(s);
    assert " " == [' '] && "-" == ['-'];
    ReplaceCharSpec(l, ' ', '-');
    ReplaceAll(l, " ", "-")
  }

  /** A slug is its own slug: it is lower-case already and has no space left. */
  lemma SlugIdempotent(s: string)
    ensures Slug(Slug(s)) == Slug(s)
  {
    var r := Slug(s);
    var l := Lower(s);
    forall i | 0 <= i < |r| ensures Lower(r)[i] == r[i] {
      LowerIdempotent(s);
      assert Lower(l)[i] == l[i];
      assert LowerChar(r[i]) == r[i];
    }
    assert Lower(r) == r;
  }

  /** `" ".join(keywords) if keywords else` the default query. */
  function SearchQuery(keywords: Option<seq<string>>): (r: string)
    ensures keywords.None? || |keywords.value| == 0 ==> r == DefaultQuery
    ensures keywords.Some? && |keywords.value| > 0 ==> r == Join(keywords.value, " ")
  {
    if keywords.Some? && |keywords.value| > 0 then Join(keywords.value, " ") else DefaultQuery
  }

  /** The search URL without its `?page=` query: `/jobs/{keywords}/in-{location}` under the base URL. */
  function SearchPath(query: string, location: string): (r: string)
    ensures StartsWith(r, BaseUrl + "/jobs/")
    ensures ' ' !in r
  {
    var path := BaseUrl + "/jobs/" + Slug(query) + "/in-" + Slug(location);
    assert path[..|BaseUrl + "/jobs/"|] == BaseUrl + "/jobs/";
    assert ' ' !in BaseUrl + "/jobs/";
    path
  }

  // ---------------------------------------------------------------------------
  // Job id
  // ---------------------------------------------------------------------------

  /** The group of `/(\d+)/` when a match starts at `j`: a '/', the digit run, and a '/' right after it. */
  function DigitsAt(s: string, j: nat): Option<string> {
    if j + 1 < |s| && s[j] == '/' && IsAsciiDigit(s[j + 1]) then
      var n := RunLen(s, j + 1, IsAsciiDigit);
      if j + 1 + n < |s| && s[j + 1 + n] == '/' then Some(s[j + 1..j + 1 + n]) else None
    else None
  }

  /** `_extract_job_id`: the leftmost "/digits/" segment, or else the hash fallback. */
  function ExtractJobId(url: string, hashId: string -> string): (r: string)
    ensures SearchFrom(url, DigitsAt, 0).None? ==> r == hashId(url)
    ensures SearchFrom(url, DigitsAt, 0).Some? ==> r == SearchFrom(url, DigitsAt, 0).value
  {
    var m := SearchFrom(url, DigitsAt, 0);
    if m.Some? then m.value else hashId(url)
  }

  /** A match at `j` is a non-empty digit run standing between two slashes in `s`. */
  lemma DigitsAtShape(s: string, j: nat)
    requires DigitsAt(s, j).Some?
    ensures var v := DigitsAt(s, j).value;
      |v| > 0 && (forall k :: 0 <= k < |v| ==> IsAsciiDigit(v[k])) && OccursAt(s, "/" + v + "/", j)
  {
    var v := DigitsAt(s, j).value;
    var n := RunLen(s, j + 1, IsAsciiDigit);
    assert v == s[j + 1..j + 1 + n];
    SlashedRun(s, j, v);
  }

  lemma SlashedRun(s: string, j: nat, v: string)
    requires j + 2 + |v| <= |s| && s[j] == '/' && s[j + 1..j + 1 + |v|] == v && s[j + 1 + |v|] == '/'
    ensures OccursAt(s, "/" + v + "/", j)
  {
    forall k | 0 <= k < |v| + 2 ensures s[j..j + 2 + |v|][k] == ("/" + v + "/")[k] {
      if 0 < k <= |v| {
        assert s[j + k] == s[j + 1..j + 1 + |v|][k - 1];
      }
    }
  }

  /** An id read from the URL is a non-empty digit run that stands between two slashes in the URL. */
  lemma ExtractJobIdShape(url: string, hashId: string -> string)
    ensures var r := ExtractJobId(url, hashId);
      SearchFrom(url, DigitsAt, 0).Some? ==>
        |r| > 0 && (forall k :: 0 <= k < |r| ==> IsAsciiDigit(r[k])) && Contains(url, "/" + r + "/")
  {
    var m := SearchFrom(url, DigitsAt, 0);
    if m.Some? {
      var j :| 0 <= j < |url| && DigitsAt(url, j) == m;
      DigitsAtShape(url, j);
      ContainsAt(url, "/" + m.value + "/", j);
    }
  }

  /** No '/' of the text is directly followed by a digit, so no match can start inside it. */
  predicate NoSlashDigit(p: string) {
    forall k :: 0 <= k < |p| - 1 ==> p[k] != '/' || !IsAsciiDigit(p[k + 1])
  }

  /**
   * A URL "<prefix>/<digits>/…" gives back those digits when no '/' of the
   * prefix is followed by a digit.
   */
  lemma ExtractJobIdRoundTrip(prefix: string, digits: string, rest: string, hashId: string -> string)
    requires NoSlashDigit(prefix) && |digits| > 0 && forall k :: 0 <= k < |digits| ==> IsAsciiDigit(digits[k])
    ensures ExtractJobId(prefix + "/" + digits + "/" + rest, hashId) == digits
  {
    var s := prefix + "/" + digits + "/" + rest;
    var j := |prefix|;
    forall k | j + 1 <= k < j + 1 + |digits| ensures IsAsciiDigit(s[k]) {
      assert s[k] == digits[k - j - 1];
    }
    assert s[j + 1 + |digits|] == '/';
    assert RunLen(s, j + 1, IsAsciiDigit) == |digits|;
    assert s[j + 1..j + 1 + |digits|] == digits;
    forall k | 0 <= k < j ensures DigitsAt(s, k).None? {
      assert s[k] == prefix[k];
      if k + 1 < j {
        assert s[k + 1] == prefix[k + 1];
      } else {
        assert s[k + 1] == '/';
      }
    }
    SearchFindsFirst(s, DigitsAt, 0, j);
  }

  // ---------------------------------------------------------------------------
  // Job cards
  // ---------------------------------------------------------------------------

  /** `_determine_remote_type` over "title description location". */
  function DetermineRemoteType(title: string, description: string, location: string): (r: string)
    ensures r in {HybridLabel, RemoteLabel, OnsiteLabel}
    ensures r != OnsiteLabel <==> ContainsAny(Lower(title + " " + description + " " + location), RemoteKeywords)
    ensures r == HybridLabel <==> r != OnsiteLabel && ContainsAny(Lower(title + " " + description + " " + location), HybridMarkers)
  {
    RemoteFromKeywords(title + " " + description + " " + location, RemoteKeywords, HybridMarkers)
  }

  /** The snippet, or the generated sentence naming the title, the company and the search keywords. */
  function DescriptionOr(snippet: Option<string>, title: string, company: string, searchKeywords: string): (r: string)
    ensures snippet.Some? ==> r == Strip(snippet.value)
    ensures snippet.None? ==> r == "Job posting for " + title + " at " + company + ". Search keywords: " + searchKeywords
  {
    TextOr(snippet, "Job posting for " + title + " at " + company + ". Search keywords: " + searchKeywords)
  }

  /**
   * `_parse_job_container`: no job without a title link; otherwise the link
   * is made absolute, company and location default to "Unknown Company" and
   * "Deutschland", the id is "stepstone_" plus the URL's id, and the posting
   * date is one day before now.
   */
  function ParseJobContainer(card: Card, searchKeywords: string, now: int, hashId: string -> string): (r: Option<Job>)
    ensures r.Some? <==> card.title.Some?
    ensures r.Some? ==>
      var j := r.value;
      var url := AbsoluteUrl(BaseUrl, card.title.value.href.GetOr(""));
      j.title == Strip(card.title.value.text) && j.url == url
      && j.company == TextOr(card.company, UnknownCompany)
      && j.location == TextOr(card.location, DefaultLocation)
      && j.description == DescriptionOr(card.snippet, j.title, j.company, searchKeywords)
      && j.id == IdPrefix + ExtractJobId(url, hashId)
      && j.remoteType == Some(DetermineRemoteType(j.title, j.description, j.location))
      && j.postedDate == now - SecondsPerDay
      && j.source == Name
  {
    if card.title.None? then None
    else
      var title := Strip(card.title.value.text);
      var url := AbsoluteUrl(BaseUrl, card.title.value.href.GetOr(""));
      var company := TextOr(card.company, UnknownCompany);
      var location := TextOr(card.location, DefaultLocation);
      var description := DescriptionOr(card.snippet, title, company, searchKeywords);
      Some(Job(IdPrefix + ExtractJobId(url, hashId), title, company, location,
               Some(DetermineRemoteType(title, description, location)), url, description,
               now - SecondsPerDay, Name, None, None, None, None, None, None, None))
  }

  /**
   * A card whose link is a relative "/stellenangebote/<digits>/…" path gets
   * an absolute URL on stepstone.de and the id "stepstone_<digits>".
   */
  lemma ParseJobContainerRelativeLink(card: Card, searchKeywords: string, now: int, hashId: string -> string,
                                      digits: string, rest: string)
    requires card.title.Some? && card.title.value.href == Some("/stellenangebote/" + digits + "/" + rest)
    requires |digits| > 0 && forall k :: 0 <= k < |digits| ==> IsAsciiDigit(digits[k])
    ensures var j := ParseJobContainer(card, searchKeywords, now, hashId).value;
      j.url == BaseUrl + "/stellenangebote/" + digits + "/" + rest && j.id == IdPrefix + digits
  {
    var href := card.title.value.href.GetOr("");
    RelativeUrlAndId(href, digits, rest, hashId);
  }

  lemma RelativeUrlAndId(href: string, digits: string, rest: string, hashId: string -> string)
    requires href == "/stellenangebote/" + digits + "/" + rest
    requires |digits| > 0 && forall k :: 0 <= k < |digits| ==> IsAsciiDigit(digits[k])
    ensures AbsoluteUrl(BaseUrl, href) == BaseUrl + "/stellenangebote/" + digits + "/" + rest
    ensures ExtractJobId(AbsoluteUrl(BaseUrl, href), hashId) == digits
  {
    RelativeHref(href, digits, rest);
    IdFromSitePath(BaseUrl + href, digits, rest, hashId);
  }

  /** The relative path is not an absolute link, so the base URL is put in front of it. */
  lemma RelativeHref(href: string, digits: string, rest: string)
    requires href == "/stellenangebote/" + digits + "/" + rest
    ensures AbsoluteUrl(BaseUrl, href) == BaseUrl + href
  {
    assert href[0] == '/';
  }

  /** The site's job path holds no digit, so the first "/digits/" segment after it is the id. */
  lemma IdFromSitePath(url: string, digits: string, rest: string, hashId: string -> string)
    requires url == BaseUrl + ("/stellenangebote/" + digits + "/" + rest)
    requires |digits| > 0 && forall k :: 0 <= k < |digits| ==> IsAsciiDigit(digits[k])
    ensures ExtractJobId(url, hashId) == digits
  {
    var prefix := BaseUrl + "/stellenangebote";
    assert url == prefix + "/" + digits + "/" + rest;
    PrefixNoSlashDigit(prefix);
    ExtractJobIdRoundTrip(prefix, digits, rest, hashId);
  }

  /** The site's job path holds no digit at all. */
  lemma PrefixNoSlashDigit(prefix: string)
    requires prefix == BaseUrl + "/stellenangebote"
    ensures NoSlashDigit(prefix)
  {
    assert forall k :: 0 <= k < |prefix| ==> !IsAsciiDigit(prefix[k]);
  }

  // ---------------------------------------------------------------------------
  // fetch_jobs
  // ---------------------------------------------------------------------------

  /** What a page request gave: status 404, the job cards found on the page, or an exception. */
  datatype Response = NotFound | Cards(cards: seq<Card>) | Failed

  /** `_fetch_page`: 404 gives an empty page; otherwise every card is parsed and the cards without a title dropped. */
  function PageJobs(pages: (string, int) -> Response, query: string, location: string, now: int,
                    hashId: string -> string, page: int): (r: PageOutcome)
    ensures pages(SearchPath(query, location), page).NotFound? ==> r == Fetched([])
    ensures pages(SearchPath(query, location), page).Failed? <==> r.Raised?
  {
    match pages(SearchPath(query, location), page)
    case NotFound => Fetched([])
    case Failed => Raised
    case Cards(cards) => Fetched(Harvest(cards, card => ParseJobContainer(card, query, now, hashId), j => true))
  }

  function FetchResult(pages: (string, int) -> Response, keywords: Option<seq<string>>, location: string,
                       maxPages: int, now: int, hashId: string -> string): seq<Job>
  {
    var query := SearchQuery(keywords);
    PagesJobs(page => PageJobs(pages, query, location, now, hashId, page), 1, maxPages)
  }

  /**
   * As written, the awaited rate-limiter call raises before every page
   * request, exactly as a failed request does; then the search finds nothing.
   */
  lemma FetchResultAsWritten(pages: (string, int) -> Response, keywords: Option<seq<string>>, location: string,
                             maxPages: int, now: int, hashId: string -> string)
    requires forall path, p :: pages(path, p) == Failed
    ensures FetchResult(pages, keywords, location, maxPages, now, hashId) == []
  {
    var query := SearchQuery(keywords);
    AllRaisedGathersNothing(page => PageJobs(pages, query, location, now, hashId, page), 1, maxPages);
  }

  /** `fetch_jobs`: pages 1 to `max_pages`, up to the first page without jobs. */
  method FetchJobs(pages: (string, int) -> Response, keywords: Option<seq<string>>, location: string,
                   maxPages: int, now: int, hashId: string -> string) returns (jobs: seq<Job>)
    ensures jobs == FetchResult(pages, keywords, location, maxPages, now, hashId)
  {
    var query := SearchQuery(keywords);
    jobs := FetchPages(page => PageJobs(pages, query, location, now, hashId, page), maxPages);
  }

  /**
   * Every job returned is the parse of a card with a title link on a page
   * from 1 to `max_pages` of the search URL; it carries the "stepstone_"
   * prefix, the source name and a date one day before now.
   */
  lemma FetchResultProperties(pages: (string, int) -> Response, keywords: Option<seq<string>>, location: string,
                              maxPages: int, now: int, hashId: string -> string, j: Job)
    requires j in FetchResult(pages, keywords, location, maxPages, now, hashId)
    ensures exists p, card ::
              1 <= p <= maxPages
              && pages(SearchPath(SearchQuery(keywords), location), p).Cards?
              && card in pages(SearchPath(SearchQuery(keywords), location), p).cards
              && card.title.Some?
              && ParseJobContainer(card, SearchQuery(keywords), now, hashId) == Some(j)
    ensures StartsWith(j.id, IdPrefix) && j.source == Name && j.postedDate == now - SecondsPerDay
  {
    var query := SearchQuery(keywords);
    var fetch := page => PageJobs(pages, query, location, now, hashId, page);
    PagesJobsFromPages(fetch, 1, maxPages, j);
    var p :| 1 <= p <= maxPages && fetch(p).Fetched? && j in fetch(p).jobs;
    PageJobMember(pages, query, location, now, hashId, p, j);
    var card :| card in pages(SearchPath(query, location), p).cards
                && ParseJobContainer(card, query, now, hashId) == Some(j);
    ParsedJobFields(card, query, now, hashId, j);
  }

  /** A job of a fetched page is a parsed card of that page. */
  lemma PageJobMember(pages: (string, int) -> Response, query: string, location: string, now: int,
                      hashId: string -> string, p: int, j: Job)
    requires PageJobs(pages, query, location, now, hashId, p).Fetched?
    requires j in PageJobs(pages, query, location, now, hashId, p).jobs
    ensures pages(SearchPath(query, location), p).Cards?
    ensures exists card :: card in pages(SearchPath(query, location), p).cards
                           && ParseJobContainer(card, query, now, hashId) == Some(j)
  {
    var response := pages(SearchPath(query, location), p);
    assert response.Cards?;
    var parse := card => ParseJobContainer(card, query, now, hashId);
    HarvestMembers(response.cards, parse, x => true, j);
    var i :| 0 <= i < |response.cards| && parse(response.cards[i]) == Some(j);
    assert response.cards[i] in response.cards;
  }

  lemma ParsedJobFields(card: Card, query: string, now: int, hashId: string -> string, j: Job)
    requires ParseJobContainer(card, query, now, hashId) == Some(j)
    ensures card.title.Some? && StartsWith(j.id, IdPrefix) && j.source == Name && j.postedDate == now - SecondsPerDay
  {
    var url := AbsoluteUrl(BaseUrl, card.title.value.href.GetOr(""));
    assert (IdPrefix + ExtractJobId(url, hashId))[..|IdPrefix|] == IdPrefix;
  }
}
