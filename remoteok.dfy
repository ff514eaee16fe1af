/**
 * `RemoteOKScraper`: the remoteok.com RSS feed, each entry read as a fully
 * remote job and optionally filtered by keywords. The feed request is a
 * parameter (the entries it held, or `None` where fetching or parsing
 * raised); the text of the HTML summary, the conversion of the published
 * date and `Job.generate_id` are functions passed in.
 */
module RemoteOK {
  import opened Wrappers
  import opened Text
  import opened Jobs
  import opened Scraping

  const Name := "RemoteOK"
  const FeedUrl := "https://remoteok.com/remote-jobs.rss"
  const UnknownCompany := "Unknown"
  const DefaultLocation := "Remote"
  const FullRemote := "Full Remote"
  const NoDescription := "No description available"

  /**
   * A feed entry: `None` where the key is missing. `published` is the time
   * `published_parsed` converts to, `None` where it is missing, empty or
   * does not convert; `tags` holds each tag's `term` ("" where it has none).
   */
  datatype Entry = Entry(title: Option<string>, link: Option<string>, summary: Option<string>,
                         published: Option<int>, company: Option<string>, location: Option<string>,
                         tags: Option<seq<string>>)

  /** `BeautifulSoup(summary).get_text(separator=' ', strip=True)` and `Job.generate_id(url, title)`. */
  datatype EntryReaders = EntryReaders(textOf: string -> string, generateId: (string, string) -> string)

  /** `raw_data.get(key, '').strip()`. */
  function StrippedField(v: Option<string>): (r: string)
    ensures v.None? ==> r == ""
    ensures v.Some? ==> r == Strip(v.value)
  {
    if v.Some? then Strip(v.value) else ""
  }

  datatype CompanyTitle = CompanyTitle(company: string, title: string)

  /**
   * The company field when it is set; otherwise "Company: Title" is cut at
   * the first ':' and both halves stripped; with no ':' the company is
   * "Unknown" and the title stays.
   */
  function SplitCompanyTitle(company: string, title: string): (r: CompanyTitle)
    ensures company != "" ==> r == CompanyTitle(company, title)
    ensures company == "" && ':' !in title ==> r == CompanyTitle(UnknownCompany, title)
    ensures company == "" && ':' in title ==>
      var i := FirstIndex(title, ':');
      r == CompanyTitle(Strip(title[..i]), Strip(title[i + 1..])) && ':' !in title[..i]
  {
    if company != "" then CompanyTitle(company, title)
    else if ':' in title then
      var i := FirstIndex(title, ':');
      CompanyTitle(Strip(title[..i]), Strip(title[i + 1..]))
    else CompanyTitle(UnknownCompany, title)
  }

  /** A title "C:T" whose part C holds no ':' gives company C and title T, both stripped. */
  lemma SplitAtFirstColon(c: string, t: string)
    requires ':' !in c
    ensures SplitCompanyTitle("", c + ":" + t) == CompanyTitle(Strip(c), Strip(t))
  {
    var s := c + ":" + t;
    assert s[|c|] == ':';
    var i := FirstIndex(s, ':');
    forall k | 0 <= k < |c| ensures s[k] != ':' {
      assert s[k] == c[k];
    }
    assert i == |c|;
    assert s[..i] == c;
    assert s[i + 1..] == t;
  }

  /**
   * `parse_job`: no job when the stripped title or link is empty; otherwise
   * the company comes from its field or the title, the location defaults to
   * "Remote", the job is always Full Remote, the summary's text (or a fixed
   * sentence) is the description, the tags are the tech stack when there are
   * any, and the id is generated from the link and the final title.
   */
  function ParseEntry(e: Entry, now: int, rd: EntryReaders): (r: Option<Job>)
    ensures r.Some? <==> StrippedField(e.title) != "" && StrippedField(e.link) != ""
    ensures r.Some? ==>
      var j := r.value;
      var ct := SplitCompanyTitle(StrippedField(e.company), StrippedField(e.title));
      var text := if e.summary.Some? then rd.textOf(e.summary.value) else "";
      j.title == ct.title && j.company == ct.company
      && j.url == StrippedField(e.link) && j.sourceId == Some(j.url)
      && j.id == rd.generateId(j.url, j.title)
      && j.location == (if StrippedField(e.location) != "" then StrippedField(e.location) else DefaultLocation)
      && j.remoteType == Some(FullRemote)
      && j.description == (if text != "" then text else NoDescription)
      && j.postedDate == e.published.GetOr(now)
      && (j.techStack.Some? <==> e.tags.Some? && |e.tags.value| > 0)
      && (j.techStack.Some? ==> j.techStack.value == e.tags.value)
      && j.source == Name
      && j.salaryMin.None? && j.salaryMax.None? && j.contractType.None?
  {
    var title := StrippedField(e.title);
    var url := StrippedField(e.link);
    if title == "" || url == "" then None
    else
      var description := if e.summary.Some? then rd.textOf(e.summary.value) else "";
      var ct := SplitCompanyTitle(StrippedField(e.company), title);
      var location := if StrippedField(e.location) != "" then StrippedField(e.location) else DefaultLocation;
      var tags := if e.tags.Some? then e.tags.value else [];
      Some(Job(rd.generateId(url, ct.title), ct.title, ct.company, location, Some(FullRemote), url,
               if description != "" then description else NoDescription,
               e.published.GetOr(now), Name, Some(url), if |tags| > 0 then Some(tags) else None,
               None, None, None, None, None))
  }

  /**
   * An entry titled "C:T" (already stripped, no ':' in C) without company
   * or location fields is job T at C, both stripped, located "Remote".
   */
  lemma ParseEntryColonTitle(e: Entry, now: int, rd: EntryReaders, c: string, t: string)
    requires e.title == Some(c + ":" + t) && Strip(c + ":" + t) == c + ":" + t && ':' !in c
    requires StrippedField(e.link) != "" && e.company.None? && e.location.None?
    ensures var j := ParseEntry(e, now, rd).value;
      j.title == Strip(t) && j.company == Strip(c) && j.location == DefaultLocation
      && j.url == Strip(e.link.value) && j.remoteType == Some(FullRemote) && j.source == Name
      && (e.tags.Some? && |e.tags.value| > 0 ==> j.techStack == e.tags)
  {
    SplitAtFirstColon(c, t);
  }

  /**
   * The entry "TestCorp: Senior Developer" without a company field is job
   * "Senior Developer" at "TestCorp", located "Remote", Full Remote, with
   * its tags as the tech stack.
   */
  lemma ParseEntryExample(e: Entry, now: int, rd: EntryReaders)
    requires e.title == Some("TestCorp: Senior Developer") && e.link == Some("https://remoteok.com/job/123")
    requires e.company.None? && e.location.None? && e.tags == Some(["C#", ".NET", "Backend"])
    ensures ParseEntry(e, now, rd).Some?
    ensures ParseEntry(e, now, rd).value.title == "Senior Developer"
    ensures ParseEntry(e, now, rd).value.company == "TestCorp"
    ensures ParseEntry(e, now, rd).value.url == "https://remoteok.com/job/123"
    ensures ParseEntry(e, now, rd).value.location == "Remote"
    ensures ParseEntry(e, now, rd).value.remoteType == Some("Full Remote")
    ensures ParseEntry(e, now, rd).value.source == "RemoteOK"
    ensures ParseEntry(e, now, rd).value.techStack == Some(["C#", ".NET", "Backend"])
  {
    var c, t := "TestCorp", " Senior Developer";
    ExampleStrips(e.title.value, e.link.value, c, t);
    ParseEntryColonTitle(e, now, rd, c, t);
  }

  lemma ExampleStrips(title: string, link: string, c: string, t: string)
    requires title == "TestCorp: Senior Developer" && link == "https://remoteok.com/job/123"
    requires c == "TestCorp" && t == " Senior Developer"
    ensures Strip(title) == title && Strip(link) == link && Strip(c) == c && Strip(t) == "Senior Developer"
    ensures ':' !in c && title == c + ":" + t
  {
    ExampleTitleParts(title, c, t);
    ExampleTitleStrips(title);
    ExampleLinkStrips(link);
    ExampleCompanyStrips(c);
    ExampleJobTitleStrips(t);
  }

  lemma ExampleJobTitleStrips(t: string)
    requires t == " Senior Developer"
    ensures Strip(t) == "Senior Developer"
  {
    StripLeadingBlank(t, "Senior Developer");
  }

  lemma ExampleTitleParts(title: string, c: string, t: string)
    requires title == "TestCorp: Senior Developer" && c == "TestCorp" && t == " Senior Developer"
    ensures ':' !in c && title == c + ":" + t
  {
  }

  lemma ExampleTitleStrips(title: string)
    requires title == "TestCorp: Senior Developer"
    ensures Strip(title) == title
  {
    StripUnchanged(title);
  }

  lemma ExampleLinkStrips(link: string)
    requires link == "https://remoteok.com/job/123"
    ensures Strip(link) == link
  {
    StripUnchanged(link);
  }

  lemma ExampleCompanyStrips(c: string)
    requires c == "TestCorp"
    ensures Strip(c) == c
  {
    StripUnchanged(c);
  }

  /** One blank before a text without whitespace at its ends is all `strip()` removes. */
  lemma StripLeadingBlank(t: string, u: string)
    requires t == " " + u && |u| > 0 && !IsSpace(u[0]) && !IsSpace(u[|u| - 1])
    ensures Strip(t) == u
  {
    assert t[1..] == u;
    assert LeadingSpaces(t) == 1;
    assert TrimStart(t) == u;
    StripUnchanged(u);
  }

  /** An entry without a title or without a link gives no job. */
  lemma ParseEntryNeedsTitleAndLink(e: Entry, now: int, rd: EntryReaders)
    requires e.title.None? || e.link.None?
    ensures ParseEntry(e, now, rd).None?
  {
  }

  // ---------------------------------------------------------------------------
  // Keyword filter and fetch_jobs
  // ---------------------------------------------------------------------------

  /** `_matches_keywords`: a keyword in any letter case in "title description tags". */
  predicate MatchesKeywords(job: Job, keywords: seq<string>) {
    AnyKeywordIn(job.title + " " + job.description + " " + Join(job.techStack.GetOr([]), " "), keywords)
  }

  /** A keyword found in one of the tags is enough, even when title and description lack it. */
  lemma TagMatches(job: Job, keywords: seq<string>, k: string, i: nat)
    requires k in keywords && job.techStack.Some? && i < |job.techStack.value|
    requires Contains(Lower(job.techStack.value[i]), Lower(k))
    ensures MatchesKeywords(job, keywords)
  {
    var tags := job.techStack.value;
    JoinContainsField(tags, i, Lower(k));
    var fields := [job.title, job.description, Join(tags, " ")];
    assert Join(fields[2..], " ") == Join(tags, " ");
    assert Join(fields[1..], " ") == job.description + " " + Join(tags, " ");
    assert Join(fields, " ") == job.title + " " + job.description + " " + Join(tags, " ");
    KeywordInFieldMatches(fields, 2, k, keywords);
  }

  /** `keywords and not self._matches_keywords(job, keywords)` skips the job; no keywords keeps all. */
  predicate Accepts(keywords: Option<seq<string>>, job: Job) {
    keywords.None? || |keywords.value| == 0 || MatchesKeywords(job, keywords.value)
  }

  /** What `fetch_jobs` returns for what the feed gave. */
  function FetchResult(feed: Option<seq<Entry>>, keywords: Option<seq<string>>, now: int, rd: EntryReaders): seq<Job> {
    if feed.None? || |feed.value| == 0 then []
    else Harvest(feed.value, e => ParseEntry(e, now, rd), j => Accepts(keywords, j))
  }

  /** `fetch_jobs`: parse every entry, skip those that give no job or miss the keywords. */
  method FetchJobs(feed: Option<seq<Entry>>, keywords: Option<seq<string>>, now: int, rd: EntryReaders)
    returns (jobs: seq<Job>)
    ensures feed.None? ==> jobs == []
    ensures jobs == FetchResult(feed, keywords, now, rd)
  {
    if feed.None? || |feed.value| == 0 {
      return [];
    }
    jobs := HarvestItems(feed.value, e => ParseEntry(e, now, rd), j => Accepts(keywords, j));
  }

  /**
   * Every job returned is the parse of a feed entry, is Full Remote from
   * RemoteOK with a non-empty link, and matches a keyword when keywords were
   * given; with no keywords every entry that parses is returned.
   */
  lemma FetchResultProperties(feed: Option<seq<Entry>>, keywords: Option<seq<string>>, now: int, rd: EntryReaders, j: Job)
    ensures j in FetchResult(feed, keywords, now, rd) ==>
      feed.Some? && (exists e :: e in feed.value && ParseEntry(e, now, rd) == Some(j))
      && j.remoteType == Some(FullRemote) && j.source == Name && j.url != ""
      && (keywords.Some? && |keywords.value| > 0 ==> MatchesKeywords(j, keywords.value))
    ensures feed.Some? && (keywords.None? || |keywords.value| == 0) ==>
      (j in FetchResult(feed, keywords, now, rd) <==> exists e :: e in feed.value && ParseEntry(e, now, rd) == Some(j))
  {
    if feed.Some? {
      var parse := e => ParseEntry(e, now, rd);
      var accept := x => Accepts(keywords, x);
      HarvestMembers(feed.value, parse, accept, j);
      if j in FetchResult(feed, keywords, now, rd) {
        var i :| 0 <= i < |feed.value| && parse(feed.value[i]) == Some(j) && accept(j);
        assert feed.value[i] in feed.value;
      }
      if exists e :: e in feed.value && ParseEntry(e, now, rd) == Some(j) {
        var e :| e in feed.value && ParseEntry(e, now, rd) == Some(j);
        var i :| 0 <= i < |feed.value| && feed.value[i] == e;
        assert parse(feed.value[i]) == Some(j);
      }
    }
  }
}
