/**
 * `WeWorkRemotelyScraper`: the category pages of weworkremotely.com. Each
 * selected category page is fetched, each job listing on it read into a
 * fully remote job (the contract type taken from the first tag that names
 * one), and the jobs optionally filtered by keywords. The page request is a
 * parameter (the listings found on the page, or `None` where the request
 * raised); finding the elements in the HTML is not modelled and
 * `Job.generate_id` is a function passed in.
 */
module WeWorkRemotely {
  import opened Wrappers
  import opened Text
  import opened Jobs
  import opened Lists
  import opened Scraping

  const Name := "WeWorkRemotely"
  const BaseUrl := "https://weworkremotely.com"
  const UnknownCompany := "Unknown"
  const DefaultLocation := "Worldwide"
  const FullRemote := "Full Remote"
  const FullTime := "Full-time"
  const Contract := "Contract"
  const PartTime := "Part-time"

  datatype Category = Category(name: string, path: string)

  /** `CATEGORIES`, in the order of the dict. */
  const Categories: seq<Category> := [
    Category("programming", "/categories/remote-programming-jobs"),
    Category("devops", "/categories/remote-devops-sysadmin-jobs"),
    Category("full-stack", "/categories/remote-full-stack-programming-jobs")]

  /**
   * The categories to scrape: those whose key is asked for, in the dict's
   * order, or all of them when none are asked for.
   */
  function SelectCategories(categories: Option<seq<string>>): (r: seq<Category>)
    ensures IsSubseq(r, Categories)
    ensures categories.None? || |categories.value| == 0 ==> r == Categories
    ensures categories.Some? && |categories.value| > 0 ==>
      forall c :: c in r <==> c in Categories && c.name in categories.value
  {
    if categories.Some? && |categories.value| > 0 then
      FilterSubseq(Categories, (c: Category) => c.name in categories.value);
      Filter(Categories, (c: Category) => c.name in categories.value)
    else
      SubseqRefl(Categories);
      Categories
  }

  // ---------------------------------------------------------------------------
  // Contract type from tags
  // ---------------------------------------------------------------------------

  /** The contract type one tag names: full-time first, then contract, then part-time, in any letter case. */
  function ContractOfTag(tag: string): Option<string>
  {
    var t := Lower(tag);
    if Contains(t, "full-time") || Contains(t, "full time") then Some(FullTime)
    else if Contains(t, "contract") then Some(Contract)
    else if Contains(t, "part-time") || Contains(t, "part time") then Some(PartTime)
    else None
  }

  /** Full-time is checked first, then contract, then part-time; nothing else is named. */
  lemma ContractOfTagMeaning(tag: string)
    ensures var r := ContractOfTag(tag); var t := Lower(tag);
      (r == Some(FullTime) <==> Contains(t, "full-time") || Contains(t, "full time"))
      && (r == Some(Contract) <==> !Contains(t, "full-time") && !Contains(t, "full time") && Contains(t, "contract"))
      && (r == Some(PartTime) <==> !Contains(t, "full-time") && !Contains(t, "full time") && !Contains(t, "contract")
                                   && (Contains(t, "part-time") || Contains(t, "part time")))
      && (r.None? || r == Some(FullTime) || r == Some(Contract) || r == Some(PartTime))
  {
  }

  /** The contract type of the first tag that names one; `None` when no tag does. */
  function ContractFromTags(tags: seq<string>): (r: Option<string>)
    ensures r.None? || r == Some(FullTime) || r == Some(Contract) || r == Some(PartTime)
    decreases |tags|
  {
    if |tags| == 0 then None
    else if ContractOfTag(tags[0]).Some? then ContractOfTag(tags[0])
    else ContractFromTags(tags[1..])
  }

  /** The type found is that of a tag with none before it naming one; none is found only when no tag names one. */
  lemma {:induction false} ContractFromTagsMeaning(tags: seq<string>)
    ensures var r := ContractFromTags(tags);
      (r.Some? ==> exists i :: 0 <= i < |tags| && ContractOfTag(tags[i]) == r
                              && forall k :: 0 <= k < i ==> ContractOfTag(tags[k]).None?)
      && (r.None? <==> forall k :: 0 <= k < |tags| ==> ContractOfTag(tags[k]).None?)
    decreases |tags|
  {
    if |tags| > 0 && ContractOfTag(tags[0]).None? {
      ContractFromTagsMeaning(tags[1..]);
      var r := ContractFromTags(tags);
      if r.Some? {
        var i :| 0 <= i < |tags[1..]| && ContractOfTag(tags[1..][i]) == r
                 && forall k :: 0 <= k < i ==> ContractOfTag(tags[1..][k]).None?;
        assert ContractOfTag(tags[i + 1]) == r;
        forall k | 0 <= k < i + 1 ensures ContractOfTag(tags[k]).None? {
          if k > 0 {
            assert tags[k] == tags[1..][k - 1];
          }
        }
      } else {
        forall k | 0 <= k < |tags| ensures ContractOfTag(tags[k]).None? {
          if k > 0 {
            assert tags[k] == tags[1..][k - 1];
          }
        }
      }
    }
  }

  /** A tag that names a contract type decides it when no tag before it does: the loop's `break`. */
  lemma {:induction false} ContractFromTagsFirst(tags: seq<string>, i: nat)
    requires i < |tags| && ContractOfTag(tags[i]).Some?
    requires forall k :: 0 <= k < i ==> ContractOfTag(tags[k]).None?
    ensures ContractFromTags(tags) == ContractOfTag(tags[i])
    decreases i
  {
    if i > 0 {
      assert tags[1..][i - 1] == tags[i];
      forall k | 0 <= k < i - 1 ensures ContractOfTag(tags[1..][k]).None? {
        assert tags[1..][k] == tags[k + 1];
      }
      ContractFromTagsFirst(tags[1..], i - 1);
    }
  }

  /**
   * A tag that says both "full-time" and "contract" counts as full-time, and
   * it decides the type when no tag before it names one.
   */
  lemma FullTimeBeforeContract(tags: seq<string>, i: nat)
    requires i < |tags| && Contains(Lower(tags[i]), "full-time") && Contains(Lower(tags[i]), "contract")
    requires forall k :: 0 <= k < i ==> ContractOfTag(tags[k]).None?
    ensures ContractFromTags(tags) == Some(FullTime)
  {
    ContractOfTagMeaning(tags[i]);
    ContractFromTagsFirst(tags, i);
  }

  // ---------------------------------------------------------------------------
  // Listings
  // ---------------------------------------------------------------------------

  /**
   * The `browse_feature_job_item` link of a listing: its `href` and the
   * `get_text(strip=True)` of its title, company and region spans (`None`
   * where the span is missing) and of its tag spans, in order.
   */
  datatype Link = Link(href: Option<string>, title: Option<string>, company: Option<string>,
                       region: Option<string>, tagTexts: seq<string>)

  /** A `li.feature` listing: its job link, if it has one. */
  datatype Listing = Listing(link: Option<Link>)

  predicate NonEmpty(s: string) {
    s != ""
  }

  /** `f"{BASE_URL}{job_path}"` for a path starting with '/', else the path as given. */
  function ListingUrl(path: string): (r: string)
    ensures StartsWith(path, "/") ==> r == BaseUrl + path
    ensures !StartsWith(path, "/") ==> r == path
    ensures path != "" ==> r != ""
  {
    if StartsWith(path, "/") then BaseUrl + path else path
  }

  /** "{title}. Category: {category}. ", followed by "Tags: a, b." when there are tags. */
  function ListingDescription(title: string, category: string, tags: seq<string>): (r: string)
    ensures StartsWith(r, title + ". Category: " + category + ". ")
    ensures |tags| == 0 <==> r == title + ". Category: " + category + ". "
  {
    var head := title + ". Category: " + category + ". ";
    var r := head + (if |tags| > 0 then "Tags: " + Join(tags, ", ") + "." else "");
    assert r[..|head|] == head;
    r
  }

  /**
   * What `_parse_listing` returns: no job without a link, with an empty
   * stripped `href` or with an empty title; otherwise a Full Remote job
   * whose company and location default to "Unknown" and "Worldwide", whose
   * tags are the non-empty tag texts and whose contract type comes from
   * the first tag naming one.
   */
  function ListingJob(listing: Listing, category: string, now: int, generateId: (string, string) -> string): (r: Option<Job>)
    ensures r.Some? <==>
      listing.link.Some? && Strip(listing.link.value.href.GetOr("")) != "" && listing.link.value.title.GetOr("") != ""
    ensures r.Some? ==>
      var link := listing.link.value;
      var url := ListingUrl(Strip(link.href.GetOr("")));
      var tags := Filter(link.tagTexts, NonEmpty);
      var j := r.value;
      j.title == link.title.value && j.title != "" && j.url == url && j.url != "" && j.sourceId == Some(url)
      && j.id == generateId(url, j.title)
      && j.company == link.company.GetOr(UnknownCompany) && j.location == link.region.GetOr(DefaultLocation)
      && j.remoteType == Some(FullRemote) && j.techStack.None?
      && j.contractType == ContractFromTags(tags)
      && j.description == ListingDescription(j.title, category, tags)
      && j.postedDate == now && j.source == Name
  {
    if listing.link.None? then None
    else
      var link := listing.link.value;
      var path := Strip(link.href.GetOr(""));
      var title := link.title.GetOr("");
      if path == "" || title == "" then None
      else
        var url := ListingUrl(path);
        var tags := Filter(link.tagTexts, NonEmpty);
        Some(Job(generateId(url, title), title, link.company.GetOr(UnknownCompany), link.region.GetOr(DefaultLocation),
                 Some(FullRemote), url, ListingDescription(title, category, tags), now, Name, Some(url), None,
                 ContractFromTags(tags), None, None, None, None))
  }

  /** The tag loop of `_parse_listing`: the non-empty tag texts, in order. */
  method NonEmptyTags(texts: seq<string>) returns (tags: seq<string>)
    ensures tags == Filter(texts, NonEmpty)
  {
    tags := [];
    for i := 0 to |texts|
      invariant tags == Filter(texts[..i], NonEmpty)
    {
      FilterSnoc(texts[..i], texts[i], NonEmpty);
      assert texts[..i + 1] == texts[..i] + [texts[i]];
      if texts[i] != "" {
        tags := tags + [texts[i]];
      }
    }
    assert texts[..|texts|] == texts;
  }

  /** The contract loop of `_parse_listing`: it stops at the first tag that names a type. */
  method FirstContract(tags: seq<string>) returns (contract: Option<string>)
    ensures contract == ContractFromTags(tags)
  {
    contract := None;
    var i := 0;
    while i < |tags|
      invariant 0 <= i <= |tags|
      invariant forall k :: 0 <= k < i ==> ContractOfTag(tags[k]).None?
      invariant contract.None?
    {
      var c := ContractOfTag(tags[i]);
      if c.Some? {
        ContractFromTagsFirst(tags, i);
        contract := c;
        break;
      }
      i := i + 1;
    }
    if contract.None? {
      ContractFromTagsMeaning(tags);
    }
  }

  /** `_parse_listing`. */
  method ParseListing(listing: Listing, category: string, now: int, generateId: (string, string) -> string)
    returns (r: Option<Job>)
    ensures r == ListingJob(listing, category, now, generateId)
  {
    if listing.link.None? {
      return None;
    }
    var link := listing.link.value;
    var path := Strip(link.href.GetOr(""));
    if path == "" {
      return None;
    }
    var url := ListingUrl(path);
    var title := link.title.GetOr("");
    if title == "" {
      return None;
    }
    var tags := NonEmptyTags(link.tagTexts);
    var contract := FirstContract(tags);
    r := Some(Job(generateId(url, title), title, link.company.GetOr(UnknownCompany), link.region.GetOr(DefaultLocation),
                  Some(FullRemote), url, ListingDescription(title, category, tags), now, Name, Some(url), None,
                  contract, None, None, None, None));
  }

  // ---------------------------------------------------------------------------
  // Keyword filter and fetch_jobs
  // ---------------------------------------------------------------------------

  /** `_matches_keywords`: a keyword in any letter case in "title description company". */
  predicate MatchesKeywords(job: Job, keywords: seq<string>) {
    AnyKeywordIn(job.title + " " + job.description + " " + job.company, keywords)
  }

  /**
   * The description names the category, so a keyword found in the category
   * name matches every listing of that category.
   */
  lemma CategoryKeywordMatches(listing: Listing, category: string, now: int, generateId: (string, string) -> string,
                               keywords: seq<string>, k: string)
    requires ListingJob(listing, category, now, generateId).Some?
    requires k in keywords && Contains(Lower(category), Lower(k))
    ensures MatchesKeywords(ListingJob(listing, category, now, generateId).value, keywords)
  {
    var j := ListingJob(listing, category, now, generateId).value;
    CategoryInDescription(listing, category, now, generateId, Lower(k));
    var fields := [j.title, j.description, j.company];
    assert Join(fields[2..], " ") == j.company;
    assert Join(fields[1..], " ") == j.description + " " + j.company;
    assert Join(fields, " ") == j.title + " " + j.description + " " + j.company;
    KeywordInFieldMatches(fields, 1, k, keywords);
  }

  lemma CategoryInDescription(listing: Listing, category: string, now: int, generateId: (string, string) -> string,
                              p: string)
    requires ListingJob(listing, category, now, generateId).Some?
    requires Contains(Lower(category), p)
    ensures Contains(Lower(ListingJob(listing, category, now, generateId).value.description), p)
  {
    var j := ListingJob(listing, category, now, generateId).value;
    var tags := Filter(listing.link.value.tagTexts, NonEmpty);
    var before := j.title + ". Category: ";
    var after := ". " + (if |tags| > 0 then "Tags: " + Join(tags, ", ") + "." else "");
    assert j.description == before + category + after;
    LowerContainsInMiddle(before, category, after, p);
  }

  /** `keywords and not self._matches_keywords(job, keywords)` skips the job; no keywords keeps all. */
  predicate Accepts(keywords: Option<seq<string>>, job: Job) {
    keywords.None? || |keywords.value| == 0 || MatchesKeywords(job, keywords.value)
  }

  /** The kept jobs of one category page; a page that raised or has no listings adds nothing. */
  function CategoryJobs(pages: string -> Option<seq<Listing>>, c: Category, keywords: Option<seq<string>>, now: int,
                        generateId: (string, string) -> string): seq<Job>
  {
    var listings := pages(BaseUrl + c.path);
    if listings.None? || |listings.value| == 0 then []
    else Harvest(listings.value, l => ListingJob(l, c.name, now, generateId), j => Accepts(keywords, j))
  }

  /** The jobs of the categories, category after category. */
  function CategoriesJobs(pages: string -> Option<seq<Listing>>, cs: seq<Category>, keywords: Option<seq<string>>,
                          now: int, generateId: (string, string) -> string): seq<Job>
    decreases |cs|
  {
    if |cs| == 0 then []
    else CategoriesJobs(pages, cs[..|cs| - 1], keywords, now, generateId)
         + CategoryJobs(pages, cs[|cs| - 1], keywords, now, generateId)
  }

  /** The listing loop of one category page. */
  method HarvestListings(listings: seq<Listing>, category: string, keywords: Option<seq<string>>, now: int,
                         generateId: (string, string) -> string) returns (found: seq<Job>)
    ensures found == Harvest(listings, l => ListingJob(l, category, now, generateId), j => Accepts(keywords, j))
  {
    var parse := l => ListingJob(l, category, now, generateId);
    var accept := j => Accepts(keywords, j);
    found := [];
    for i := 0 to |listings|
      invariant found == Harvest(listings[..i], parse, accept)
    {
      assert listings[..i + 1][..i] == listings[..i];
      var job := ParseListing(listings[i], category, now, generateId);
      assert parse(listings[..i + 1][i]) == job;
      if job.Some? && accept(job.value) {
        found := found + [job.value];
      }
    }
    assert listings[..|listings|] == listings;
  }

  /** One category of `fetch_jobs`: a page that raised or has no listings is skipped. */
  method FetchCategory(pages: string -> Option<seq<Listing>>, c: Category, keywords: Option<seq<string>>, now: int,
                       generateId: (string, string) -> string) returns (found: seq<Job>)
    ensures found == CategoryJobs(pages, c, keywords, now, generateId)
  {
    var listings := pages(BaseUrl + c.path);
    found := [];
    if listings.Some? && |listings.value| > 0 {
      found := HarvestListings(listings.value, c.name, keywords, now, generateId);
    }
  }

  /** `fetch_jobs`: the selected categories in order, each page's kept jobs appended. */
  method FetchJobs(pages: string -> Option<seq<Listing>>, keywords: Option<seq<string>>,
                   categories: Option<seq<string>>, now: int, generateId: (string, string) -> string)
    returns (jobs: seq<Job>)
    ensures jobs == CategoriesJobs(pages, SelectCategories(categories), keywords, now, generateId)
  {
    var selected := SelectCategories(categories);
    jobs := [];
    for i := 0 to |selected|
      invariant jobs == CategoriesJobs(pages, selected[..i], keywords, now, generateId)
    {
      CategoriesJobsSnoc(pages, selected, i, keywords, now, generateId);
      var found := FetchCategory(pages, selected[i], keywords, now, generateId);
      jobs := jobs + found;
    }
    assert selected[..|selected|] == selected;
  }

  lemma CategoriesJobsSnoc(pages: string -> Option<seq<Listing>>, cs: seq<Category>, i: int,
                           keywords: Option<seq<string>>, now: int, generateId: (string, string) -> string)
    requires 0 <= i < |cs|
    ensures CategoriesJobs(pages, cs[..i + 1], keywords, now, generateId)
         == CategoriesJobs(pages, cs[..i], keywords, now, generateId) + CategoryJobs(pages, cs[i], keywords, now, generateId)
  {
    assert cs[..i + 1][..i] == cs[..i];
    assert cs[..i + 1][i] == cs[i];
  }

  /**
   * Every job returned comes from a listing on the page of one of the given
   * categories, is Full Remote from WeWorkRemotely with a non-empty title
   * and link, and matches a keyword when keywords were given.
   */
  lemma {:induction false} CategoriesJobsProperties(pages: string -> Option<seq<Listing>>, cs: seq<Category>,
                                                   keywords: Option<seq<string>>, now: int,
                                                   generateId: (string, string) -> string, j: Job)
    requires j in CategoriesJobs(pages, cs, keywords, now, generateId)
    ensures exists c, l :: c in cs && pages(BaseUrl + c.path).Some? && l in pages(BaseUrl + c.path).value
                           && ListingJob(l, c.name, now, generateId) == Some(j)
    ensures j.remoteType == Some(FullRemote) && j.source == Name && j.title != "" && j.url != ""
    ensures keywords.Some? && |keywords.value| > 0 ==> MatchesKeywords(j, keywords.value)
    decreases |cs|
  {
    var init := cs[..|cs| - 1];
    var c := cs[|cs| - 1];
    if j in CategoriesJobs(pages, init, keywords, now, generateId) {
      CategoriesJobsProperties(pages, init, keywords, now, generateId, j);
      var c', l :| c' in init && pages(BaseUrl + c'.path).Some? && l in pages(BaseUrl + c'.path).value
                   && ListingJob(l, c'.name, now, generateId) == Some(j);
      assert c' in cs;
    } else {
      var listings := pages(BaseUrl + c.path).value;
      var parse := l => ListingJob(l, c.name, now, generateId);
      var accept := x => Accepts(keywords, x);
      HarvestMembers(listings, parse, accept, j);
      var i :| 0 <= i < |listings| && parse(listings[i]) == Some(j) && accept(j);
      assert listings[i] in listings;
    }
  }
}
