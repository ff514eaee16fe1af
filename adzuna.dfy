/**
 * `AdzunaScraper`: the Adzuna search API, read page by page. The scraper's
 * settings are fixed when it is built (credentials from the arguments or the
 * environment, the page size capped at the API's 50); `fetch_jobs` gives
 * nothing without credentials and otherwise reads pages 1 to `max_pages`,
 * each result parsed into a job. The API call is a parameter that maps a
 * request to the response it gave; the environment and ISO date parsing are
 * functions passed in.
 */
module Adzuna {
  import opened Wrappers
  import opened Text
  import opened Jobs
  import opened Scraping

  const Name := "Adzuna"
  const IdPrefix := "adzuna_"
  const MaxResultsPerPage := 50
  const UnknownCompany := "Unknown Company"
  const UnknownLocation := "Unknown Location"
  const DefaultQuery := "Full Stack OR Backend OR DevOps"
  const QuerySeparator := " OR "
  const RemoteKeywords: seq<string> :=
    ["remote", "work from home", "wfh", "distributed", "anywhere", "telecommute", "home office"]
  const HybridMarkers: seq<string> := ["hybrid"]

  // ---------------------------------------------------------------------------
  // The scraper's settings
  // ---------------------------------------------------------------------------

  /** What `__init__` stores: the credentials, the country code, the page size and the page count. */
  datatype Scraper = Scraper(appId: Option<string>, appKey: Option<string>, country: string,
                             resultsPerPage: int, maxPages: int)

  /** `min(results_per_page, 50)`. */
  function ClampResultsPerPage(n: int): (r: int)
    ensures r <= MaxResultsPerPage
    ensures r == n || r == MaxResultsPerPage
    ensures n <= MaxResultsPerPage ==> r == n
  {
    if n < MaxResultsPerPage then n else MaxResultsPerPage
  }

  /**
   * `__init__`: each credential is the argument when it is a non-empty
   * string, else the environment variable; the page size is capped at 50.
   */
  function NewScraper(appId: Option<string>, appKey: Option<string>, country: string, resultsPerPage: int,
                      maxPages: int, env: string -> Option<string>): (s: Scraper)
    ensures s.appId == OrElse(appId, env("ADZUNA_APP_ID"))
    ensures s.appKey == OrElse(appKey, env("ADZUNA_APP_KEY"))
    ensures s.country == country && s.maxPages == maxPages
    ensures s.resultsPerPage == ClampResultsPerPage(resultsPerPage)
  {
    Scraper(OrElse(appId, env("ADZUNA_APP_ID")), OrElse(appKey, env("ADZUNA_APP_KEY")), country,
            ClampResultsPerPage(resultsPerPage), maxPages)
  }

  /** `self.app_id and self.app_key`: both credentials are non-empty strings. */
  predicate HasCredentials(s: Scraper) {
    Truthy(s.appId) && Truthy(s.appKey)
  }

  /** A credential given as an argument wins over the environment; an empty argument falls back to it. */
  lemma NewScraperCredentials(appId: Option<string>, appKey: Option<string>, country: string, resultsPerPage: int,
                              maxPages: int, env: string -> Option<string>)
    ensures var s := NewScraper(appId, appKey, country, resultsPerPage, maxPages, env);
      (Truthy(appId) && Truthy(appKey) ==> HasCredentials(s) && s.appId == appId && s.appKey == appKey)
      && (!Truthy(appId) && !Truthy(env("ADZUNA_APP_ID")) ==> !HasCredentials(s))
      && (!Truthy(appKey) && !Truthy(env("ADZUNA_APP_KEY")) ==> !HasCredentials(s))
  {
  }

  // ---------------------------------------------------------------------------
  // One result
  // ---------------------------------------------------------------------------

  /**
   * One entry of the API's `results`: `None` where the key (or, for company
   * and location, the `display_name` under it) is missing.
   */
  datatype Item = Item(
    id: Option<string>,
    title: Option<string>,
    companyName: Option<string>,
    locationName: Option<string>,
    description: Option<string>,
    redirectUrl: Option<string>,
    created: Option<string>,
    contractType: Option<string>,
    contractTime: Option<string>,
    salaryMin: Option<real>,
    salaryMax: Option<real>)

  /** `_determine_remote_type` over "title description location". */
  function DetermineRemoteType(title: string, description: string, location: string): (r: string)
    ensures r in {HybridLabel, RemoteLabel, OnsiteLabel}
    ensures r != OnsiteLabel <==> ContainsAny(Lower(title + " " + description + " " + location), RemoteKeywords)
    ensures r == HybridLabel <==> r != OnsiteLabel && ContainsAny(Lower(title + " " + description + " " + location), HybridMarkers)
  {
    RemoteFromKeywords(title + " " + description + " " + location, RemoteKeywords, HybridMarkers)
  }

  /** A remote keyword in the location alone ("Anywhere", "Remote") is enough to leave Onsite. */
  lemma RemoteKeywordInLocation(title: string, description: string, location: string, k: string)
    requires k in RemoteKeywords && Contains(Lower(location), k)
    ensures DetermineRemoteType(title, description, location) != OnsiteLabel
  {
    var prefix := title + " " + description + " ";
    assert ContainsAny(Lower(location), RemoteKeywords);
    ContainsAnyGrows(location, prefix, RemoteKeywords);
    assert prefix + location == title + " " + description + " " + location;
  }

  /** `item.get(key, default)`. */
  function FieldOr(v: Option<string>, default: string): (r: string)
    ensures v.Some? ==> r == v.value
    ensures v.None? ==> r == default
  {
    if v.Some? then v.value else default
  }

  /** `salary_currency`: euros for Germany, pounds for every other country. */
  function Currency(country: string): (r: string)
    ensures r == "EUR" <==> country == "de"
    ensures r != "EUR" ==> r == "GBP"
  {
    if country == "de" then "EUR" else "GBP"
  }

  /**
   * The posting date: `created` with "Z" written as "+00:00" and read as an
   * ISO date, or the current time when it is missing, empty or unreadable.
   */
  function PostedDate(created: Option<string>, now: int, parseIso: string -> Option<int>): (r: int)
    ensures !Truthy(created) ==> r == now
    ensures Truthy(created) ==> var p := parseIso(ReplaceAll(created.value, "Z", "+00:00"));
      r == (if p.Some? then p.value else now)
  {
    if Truthy(created) && parseIso(ReplaceAll(created.value, "Z", "+00:00")).Some? then
      parseIso(ReplaceAll(created.value, "Z", "+00:00")).value
    else now
  }

  /**
   * `parse_job`: no job when the stripped title or the stripped description
   * is empty; otherwise company and location fall back to the "Unknown"
   * placeholders, the id is "adzuna_" plus the item's id, the contract is
   * the contract type or else the contract time, and the currency follows
   * the country.
   */
  function ParseJob(s: Scraper, item: Item, now: int, parseIso: string -> Option<int>): (r: Option<Job>)
    ensures r.None? <==> Strip(FieldOr(item.title, "")) == "" || Strip(FieldOr(item.description, "")) == ""
    ensures r.Some? ==>
      var j := r.value;
      var company := Strip(FieldOr(item.companyName, UnknownCompany));
      var location := Strip(FieldOr(item.locationName, UnknownLocation));
      j.id == IdPrefix + FieldOr(item.id, "")
      && j.title == Strip(item.title.value) && j.title != ""
      && j.description == Strip(item.description.value) && j.description != ""
      && j.company == company && j.location == location
      && j.url == FieldOr(item.redirectUrl, "")
      && j.remoteType == Some(DetermineRemoteType(j.title, j.description, location))
      && j.postedDate == PostedDate(item.created, now, parseIso)
      && j.contractType == OrElse(item.contractType, item.contractTime)
      && j.salaryMin == item.salaryMin && j.salaryMax == item.salaryMax
      && j.salaryCurrency == Some(Currency(s.country))
      && j.source == Name
  {
    var title := Strip(FieldOr(item.title, ""));
    var company := Strip(FieldOr(item.companyName, UnknownCompany));
    var location := Strip(FieldOr(item.locationName, UnknownLocation));
    var description := Strip(FieldOr(item.description, ""));
    if title == "" || description == "" then None
    else
      Some(Job(IdPrefix + FieldOr(item.id, ""), title, company, location,
               Some(DetermineRemoteType(title, description, location)), FieldOr(item.redirectUrl, ""),
               description, PostedDate(item.created, now, parseIso), Name, None, None,
               OrElse(item.contractType, item.contractTime), item.salaryMin, item.salaryMax,
               Some(Currency(s.country)), None))
  }

  /** The job's title and description are stripped already: parsing never leaves whitespace at their ends. */
  lemma ParseJobStripped(s: Scraper, item: Item, now: int, parseIso: string -> Option<int>)
    requires ParseJob(s, item, now, parseIso).Some?
    ensures var j := ParseJob(s, item, now, parseIso).value;
      Strip(j.title) == j.title && Strip(j.description) == j.description
  {
    StripIdempotent(item.title.value);
    StripIdempotent(item.description.value);
  }

  /** An item with a missing title (or description) gives no job, whatever else it holds. */
  lemma ParseJobNeedsTitleAndDescription(s: Scraper, item: Item, now: int, parseIso: string -> Option<int>)
    ensures item.title.None? || item.description.None? ==> ParseJob(s, item, now, parseIso).None?
    ensures item.title == Some("   ") ==> ParseJob(s, item, now, parseIso).None?
  {
    assert Strip("") == "";
    assert Strip("   ") == "";
  }

  // ---------------------------------------------------------------------------
  // fetch_jobs
  // ---------------------------------------------------------------------------

  /** `" OR ".join(keywords) if keywords else` the default query. */
  function SearchQuery(keywords: Option<seq<string>>): (r: string)
    ensures keywords.None? || |keywords.value| == 0 ==> r == DefaultQuery
    ensures keywords.Some? && |keywords.value| > 0 ==> r == Join(keywords.value, QuerySeparator)
  {
    if keywords.Some? && |keywords.value| > 0 then Join(keywords.value, QuerySeparator) else DefaultQuery
  }

  /** The parameters `_fetch_page` sends to `/jobs/{country}/search/{page}`. */
  datatype Request = Request(country: string, page: int, appId: Option<string>, appKey: Option<string>,
                             resultsPerPage: int, what: string, where: string)

  /** What the API answered: status 429, the `results` list, or an exception. */
  datatype Response = RateLimited | Results(items: seq<Item>) | Failed

  function PageRequest(s: Scraper, query: string, location: string, page: int): Request {
    Request(s.country, page, s.appId, s.appKey, s.resultsPerPage, query, location)
  }

  /** `_fetch_page`: rate limiting gives an empty page; results are parsed and the items that give no job dropped. */
  function PageJobs(s: Scraper, api: Request -> Response, query: string, location: string, now: int,
                    parseIso: string -> Option<int>, page: int): (r: PageOutcome)
    ensures api(PageRequest(s, query, location, page)).RateLimited? ==> r == Fetched([])
    ensures api(PageRequest(s, query, location, page)).Failed? <==> r.Raised?
  {
    match api(PageRequest(s, query, location, page))
    case RateLimited => Fetched([])
    case Failed => Raised
    case Results(items) => Fetched(Harvest(items, item => ParseJob(s, item, now, parseIso), j => true))
  }

  /** What `fetch_jobs` returns: nothing without credentials, else the jobs of pages 1 to `max_pages`. */
  function FetchResult(s: Scraper, api: Request -> Response, keywords: Option<seq<string>>, location: string,
                       now: int, parseIso: string -> Option<int>): seq<Job>
  {
    if !HasCredentials(s) then []
    else PagesJobs(page => PageJobs(s, api, SearchQuery(keywords), location, now, parseIso, page), 1, s.maxPages)
  }

  /**
   * As written, the awaited rate-limiter call raises before every page
   * request, exactly as a failed request does; then the search finds
   * nothing, with or without credentials.
   */
  lemma FetchResultAsWritten(s: Scraper, api: Request -> Response, keywords: Option<seq<string>>, location: string,
                             now: int, parseIso: string -> Option<int>)
    requires forall rq :: api(rq) == Failed
    ensures FetchResult(s, api, keywords, location, now, parseIso) == []
  {
    if HasCredentials(s) {
      var query := SearchQuery(keywords);
      AllRaisedGathersNothing(page => PageJobs(s, api, query, location, now, parseIso, page), 1, s.maxPages);
    }
  }

  /** `fetch_jobs`: the credential guard, then the page loop. */
  method FetchJobs(s: Scraper, api: Request -> Response, keywords: Option<seq<string>>, location: string,
                   now: int, parseIso: string -> Option<int>) returns (jobs: seq<Job>)
    ensures !HasCredentials(s) ==> jobs == []
    ensures jobs == FetchResult(s, api, keywords, location, now, parseIso)
  {
    if !HasCredentials(s) {
      return [];
    }
    var query := SearchQuery(keywords);
    jobs := FetchPages(page => PageJobs(s, api, query, location, now, parseIso, page), s.maxPages);
  }

  /**
   * Every job returned is the parse of an item the API returned for a
   * request with the scraper's credentials, page size and query, on a page
   * from 1 to `max_pages`; so it has a non-empty title and description, an
   * "adzuna_" id and the country's currency.
   */
  lemma FetchResultProperties(s: Scraper, api: Request -> Response, keywords: Option<seq<string>>, location: string,
                              now: int, parseIso: string -> Option<int>, j: Job)
    requires j in FetchResult(s, api, keywords, location, now, parseIso)
    ensures HasCredentials(s)
    ensures exists p, item ::
              1 <= p <= s.maxPages
              && api(PageRequest(s, SearchQuery(keywords), location, p)).Results?
              && item in api(PageRequest(s, SearchQuery(keywords), location, p)).items
              && ParseJob(s, item, now, parseIso) == Some(j)
    ensures j.title != "" && j.description != "" && j.source == Name
    ensures StartsWith(j.id, IdPrefix) && j.salaryCurrency == Some(Currency(s.country))
  {
    var query := SearchQuery(keywords);
    var fetch := page => PageJobs(s, api, query, location, now, parseIso, page);
    PagesJobsFromPages(fetch, 1, s.maxPages, j);
    var p :| 1 <= p <= s.maxPages && fetch(p).Fetched? && j in fetch(p).jobs;
    var response := api(PageRequest(s, query, location, p));
    assert response.Results?;
    var parse := item => ParseJob(s, item, now, parseIso);
    HarvestMembers(response.items, parse, x => true, j);
    var i :| 0 <= i < |response.items| && parse(response.items[i]) == Some(j);
    var item := response.items[i];
    assert ParseJob(s, item, now, parseIso) == Some(j);
    ParsedJobFields(s, item, now, parseIso, j);
  }

  lemma ParsedJobFields(s: Scraper, item: Item, now: int, parseIso: string -> Option<int>, j: Job)
    requires ParseJob(s, item, now, parseIso) == Some(j)
    ensures j.title != "" && j.description != "" && j.source == Name
    ensures StartsWith(j.id, IdPrefix) && j.salaryCurrency == Some(Currency(s.country))
  {
    assert (IdPrefix + FieldOr(item.id, ""))[..|IdPrefix|] == IdPrefix;
  }
}
