/**
 * `HackerNewsScraper`: the monthly "Who is hiring?" threads found through
 * the Algolia search API, and each long-enough top-level comment read as a
 * job posting. The two API calls are parameters (what they returned, or
 * `None` where they raised); the location and URL regular expressions and
 * `Job.generate_id` are functions passed in (`Readers`).
 */
module HackerNews {
  import opened Wrappers
  import opened Text
  import opened Jobs
  import opened Lists
  import opened Scraping

  const Name := "HackerNews"
  const ItemUrlPrefix := "https://news.ycombinator.com/item?id="
  const MinCommentLength := 50
  const MaxDescriptionLength := 1000
  const MaxCompanyLength := 50
  const MaxThreads := 3
  const MaxCommentsPerThread := 100
  const MinThreadComments := 10
  const DefaultCompany := "Unknown"
  const DefaultTitle := "Software Engineer"

  // ---------------------------------------------------------------------------
  // First line of a posting
  // ---------------------------------------------------------------------------

  /** The company and title read from a posting's first line; `None` where none was found. */
  datatype FirstLine = FirstLine(company: Option<string>, title: Option<string>)

  /**
   * `_parse_first_line`: split at '|' if there is one, else at '-' if there
   * are at least two, else at the first ':'; the first two pieces, stripped,
   * are company and title. A line with none of these is all company, cut to
   * 50 characters, and has no title.
   */
  function ParseFirstLine(line: string): (r: FirstLine)
    ensures r.company.Some?
    ensures r.title.None? <==> '|' !in line && CountChar(line, '-') < 2 && ':' !in line
    ensures r.title.None? ==> r.company == Some(Take(line, MaxCompanyLength))
  {
    if '|' in line then
      SplitCount(line, '|');
      var parts := StrippedPieces(line, ['|']);
      FirstLine(Some(parts[0]), Some(parts[1]))
    else if '-' in line && CountChar(line, '-') >= 2 then
      SplitCount(line, '-');
      var parts := StrippedPieces(line, ['-']);
      FirstLine(Some(parts[0]), Some(parts[1]))
    else if ':' in line then
      var k := FirstIndex(line, ':');
      FirstLine(Some(Strip(line[..k])), Some(Strip(line[k + 1..])))
    else
      FirstLine(Some(Take(line, MaxCompanyLength)), None)
  }

  /** The second piece of `a + [c] + b` split at `c` is `b` when the rest `tail` is empty or starts a new piece. */
  lemma SecondPiece(a: string, c: char, b: string, tail: string)
    requires c !in a && c !in b && (tail == [] || tail[0] == c)
    ensures var parts := SplitOn(a + [c] + b + tail, [c]); |parts| >= 2 && parts[0] == a && parts[1] == b
  {
    assert a + [c] + b + tail == a + [c] + (b + tail);
    SplitOnCharHead(a, c, b + tail);
    if tail == [] {
      assert b + tail == b;
      SplitOnCharAbsent(b, c);
    } else {
      assert b + tail == b + [c] + tail[1..];
      SplitOnCharHead(b, c, tail[1..]);
    }
  }

  /** "Company | Title | Location" (or just "Company | Title"): company and title are the first two fields, stripped. */
  lemma PipeFormat(company: string, title: string, tail: string)
    requires '|' !in company && '|' !in title && (tail == "" || tail[0] == '|')
    ensures ParseFirstLine(company + "|" + title + tail) == FirstLine(Some(Strip(company)), Some(Strip(title)))
  {
    var line := company + "|" + title + tail;
    assert line == company + ['|'] + title + tail;
    assert line[|company|] == '|';
    SecondPiece(company, '|', title, tail);
  }

  /** "Company - Title - Location" on a line without '|': the first two dash-separated fields, stripped. */
  lemma DashFormat(company: string, title: string, rest: string)
    requires '-' !in company && '-' !in title
    requires '|' !in company && '|' !in title && '|' !in rest
    ensures ParseFirstLine(company + "-" + title + "-" + rest) == FirstLine(Some(Strip(company)), Some(Strip(title)))
  {
    var line := company + "-" + title + "-" + rest;
    var tail := "-" + rest;
    assert line == company + ['-'] + title + tail;
    assert line[|company|] == '-';
    CountCharAppend(company + "-" + title, "-" + rest, '-');
    CountCharAppend(company + "-", title, '-');
    CountCharAppend(company, "-", '-');
    CountCharAppend("-", rest, '-');
    assert CountChar(line, '-') >= 2;
    SecondPiece(company, '-', title, tail);
  }

  /** "Company: Title", with fewer than two dashes and no '|': split at the first colon. */
  lemma ColonFormat(company: string, title: string)
    requires ':' !in company && '|' !in company && '|' !in title
    requires CountChar(company, '-') + CountChar(title, '-') < 2
    ensures ParseFirstLine(company + ":" + title) == FirstLine(Some(Strip(company)), Some(Strip(title)))
  {
    var line := company + ":" + title;
    ColonLineCounts(company, title);
    ColonLinePieces(company, title);
  }

  lemma ColonLineCounts(company: string, title: string)
    requires '|' !in company && '|' !in title
    ensures '|' !in company + ":" + title
    ensures CountChar(company + ":" + title, '-') == CountChar(company, '-') + CountChar(title, '-')
  {
    CountCharAppend(company + ":", title, '-');
    CountCharAppend(company, ":", '-');
  }

  lemma ColonLinePieces(company: string, title: string)
    requires ':' !in company
    ensures var line := company + ":" + title;
      ':' in line && FirstIndex(line, ':') == |company|
      && line[..|company|] == company && line[|company| + 1..] == title
  {
    var line := company + ":" + title;
    assert line[|company|] == ':';
    var k := FirstIndex(line, ':');
    assert k == |company|;
    assert line[..k] == company;
    assert line[k + 1..] == title;
  }

  // ---------------------------------------------------------------------------
  // Comments
  // ---------------------------------------------------------------------------

  /**
   * A comment of a thread as the API returns it: its text (`None` where the
   * field is missing or null), `created_at_i`, and the `objectID` and `id`
   * fields (`None` where missing).
   */
  datatype Comment = Comment(text: Option<string>, createdAt: Option<int>, objectId: Option<string>, id: Option<string>)

  /**
   * The regular expressions of `_extract_location` (the first location
   * pattern's group, stripped and cut to 50, or "Remote") and
   * `_extract_url` (the first http(s) link, if any), and `Job.generate_id`.
   */
  datatype Readers = Readers(
    extractLocation: string -> string,
    extractUrl: string -> Option<string>,
    generateId: (string, string) -> string)

  /** `comment.get('objectID', comment.get('id', ''))`. */
  function CommentId(c: Comment): (r: string)
    ensures c.objectId.Some? ==> r == c.objectId.value
    ensures c.objectId.None? ==> r == c.id.GetOr("")
  {
    if c.objectId.Some? then c.objectId.value else c.id.GetOr("")
  }

  /**
   * `_determine_remote_type`: on the lower-cased text, no "remote" or an
   * explicit "no remote" / "not remote" is Onsite; otherwise "remote ok" or
   * "remote-ok" is Hybrid and any other mention is Remote.
   */
  function DetermineRemoteType(text: string): (r: string)
    ensures var t := Lower(text);
      var denied := Contains(t, "no remote") || Contains(t, "not remote");
      var ok := Contains(t, "remote ok") || Contains(t, "remote-ok");
      (r == OnsiteLabel <==> !Contains(t, "remote") || denied)
      && (r == HybridLabel <==> Contains(t, "remote") && !denied && ok)
      && (r == RemoteLabel <==> Contains(t, "remote") && !denied && !ok)
  {
    var t := Lower(text);
    if Contains(t, "remote") then
      if Contains(t, "no remote") || Contains(t, "not remote") then OnsiteLabel
      else if Contains(t, "remote ok") || Contains(t, "remote-ok") then HybridLabel
      else RemoteLabel
    else OnsiteLabel
  }

  /**
   * A denial wins over every other mention of remote work, and "remote ok"
   * alone makes a posting Hybrid: it says "remote" by itself.
   */
  lemma DetermineRemoteTypePhrases(text: string)
    ensures var t := Lower(text);
      (Contains(t, "no remote") || Contains(t, "not remote") ==> DetermineRemoteType(text) == OnsiteLabel)
      && ((Contains(t, "remote ok") || Contains(t, "remote-ok")) && !Contains(t, "no remote") && !Contains(t, "not remote")
          ==> DetermineRemoteType(text) == HybridLabel)
  {
    var t := Lower(text);
    assert OccursAt("remote ok", "remote", 0);
    ContainsAt("remote ok", "remote", 0);
    assert OccursAt("remote-ok", "remote", 0);
    ContainsAt("remote-ok", "remote", 0);
    if Contains(t, "remote ok") {
      ContainsTrans(t, "remote ok", "remote");
    } else if Contains(t, "remote-ok") {
      ContainsTrans(t, "remote-ok", "remote");
    }
  }

  /** The first line of the (stripped) comment text, stripped. */
  function FirstLineOf(text: string): string {
    Strip(SplitOn(text, "\n")[0])
  }

  /**
   * `_parse_comment`: a comment whose stripped text is shorter than 50
   * characters gives no job. Otherwise company and title come from the first
   * line ("Unknown" and "Software Engineer" where empty), the URL is the
   * first link in the text or the comment's own item page, the description
   * is the first 1000 characters, and the date is `created_at_i` or, when
   * that is missing or zero, the current time.
   */
  function ParseComment(c: Comment, now: int, rd: Readers): (r: Option<Job>)
    ensures r.Some? <==> c.text.Some? && |Strip(c.text.value)| >= MinCommentLength
    ensures r.Some? ==>
      var text := Strip(c.text.value);
      var first := ParseFirstLine(FirstLineOf(text));
      var j := r.value;
      var url := if Truthy(rd.extractUrl(text)) then rd.extractUrl(text).value else ItemUrlPrefix + CommentId(c);
      j.company == (if Truthy(first.company) then first.company.value else DefaultCompany)
      && j.title == (if Truthy(first.title) then first.title.value else DefaultTitle)
      && j.company != "" && j.title != ""
      && j.location == rd.extractLocation(text)
      && j.remoteType == Some(DetermineRemoteType(text))
      && j.url == url && j.id == rd.generateId(url, j.title)
      && j.description == Take(text, MaxDescriptionLength) && |j.description| <= MaxDescriptionLength
      && j.postedDate == (if c.createdAt.Some? && c.createdAt.value != 0 then c.createdAt.value else now)
      && j.source == Name && j.sourceId == Some(CommentId(c)) && j.techStack == Some([])
      && j.salaryMin.None? && j.salaryMax.None? && j.contractType.None?
  {
    if c.text.None? || |Strip(c.text.value)| < MinCommentLength then None
    else
      var text := Strip(c.text.value);
      var first := ParseFirstLine(FirstLineOf(text));
      var company := if Truthy(first.company) then first.company.value else DefaultCompany;
      var title := if Truthy(first.title) then first.title.value else DefaultTitle;
      var found := rd.extractUrl(text);
      var url := if Truthy(found) then found.value else ItemUrlPrefix + CommentId(c);
      var posted := if c.createdAt.Some? && c.createdAt.value != 0 then c.createdAt.value else now;
      Some(Job(rd.generateId(url, title), title, company, rd.extractLocation(text),
               Some(DetermineRemoteType(text)), url, Take(text, MaxDescriptionLength), posted,
               Name, Some(CommentId(c)), Some([]), None, None, None, None, None))
  }

  /** A long-enough comment starting "Company | Title | ..." is a posting by that company for that title. */
  lemma PipeCommentCompanyTitle(c: Comment, company: string, title: string, tail: string, now: int, rd: Readers)
    requires c.text.Some? && |Strip(c.text.value)| >= MinCommentLength
    requires FirstLineOf(Strip(c.text.value)) == company + "|" + title + tail
    requires '|' !in company && '|' !in title && (tail == "" || tail[0] == '|')
    requires Strip(company) != "" && Strip(title) != ""
    ensures var j := ParseComment(c, now, rd).value; j.company == Strip(company) && j.title == Strip(title)
  {
    PipeFormat(company, title, tail);
  }

  // ---------------------------------------------------------------------------
  // Filters
  // ---------------------------------------------------------------------------

  /** `_matches_keywords`: a keyword occurs in "title description company", ignoring case. */
  predicate MatchesKeywords(j: Job, keywords: seq<string>) {
    AnyKeywordIn(Join([j.title, j.description, j.company], " "), keywords)
  }

  /** A keyword found in the title, the description or the company matches. */
  lemma MatchesKeywordsFields(j: Job, keywords: seq<string>, k: string)
    requires k in keywords
    requires Contains(Lower(j.title), Lower(k)) || Contains(Lower(j.description), Lower(k)) || Contains(Lower(j.company), Lower(k))
    ensures MatchesKeywords(j, keywords)
  {
    var fields := [j.title, j.description, j.company];
    var i := if Contains(Lower(j.title), Lower(k)) then 0 else if Contains(Lower(j.description), Lower(k)) then 1 else 2;
    KeywordInFieldMatches(fields, i, k, keywords);
  }

  /** `str(remote_type)`: the label, or "None". */
  function RemoteText(remoteType: Option<string>): string {
    if remoteType.Some? then remoteType.value else "None"
  }

  /** `_matches_location`: the filter occurs in "location remote_type", ignoring case. */
  predicate MatchesLocation(j: Job, location: string) {
    Contains(Lower(j.location + " " + RemoteText(j.remoteType)), Lower(location))
  }

  /** A filter found in the location, or in the remote type, matches: a posting typed Remote passes "remote". */
  lemma MatchesLocationParts(j: Job, location: string)
    ensures Contains(Lower(j.location), Lower(location)) ==> MatchesLocation(j, location)
    ensures j.remoteType.Some? && Contains(Lower(j.remoteType.value), Lower(location)) ==> MatchesLocation(j, location)
    ensures j.remoteType == Some(RemoteLabel) ==> MatchesLocation(j, "remote")
  {
    var p := Lower(location);
    var l, r := j.location + " ", RemoteText(j.remoteType);
    if Contains(Lower(j.location), p) {
      LowerContainsLeft(j.location, " ", p);
      LowerContainsLeft(l, r, p);
    }
    if j.remoteType.Some? && Contains(Lower(j.remoteType.value), p) {
      LowerContainsRight(l, r, p);
    }
    if j.remoteType == Some(RemoteLabel) {
      RemoteLabelIsRemote(r);
      LowerContainsRight(l, r, Lower("remote"));
    }
  }

  lemma RemoteLabelIsRemote(r: string)
    requires r == RemoteLabel
    ensures Contains(Lower(r), Lower("remote"))
  {
    assert Lower(r) == "remote" == Lower("remote");
    ContainsSelf("remote");
  }

  /** The filters of `_fetch_thread_comments`: each applies only when given and non-empty. */
  predicate Accepts(j: Job, keywords: Option<seq<string>>, location: Option<string>) {
    (keywords.Some? && |keywords.value| > 0 ==> MatchesKeywords(j, keywords.value))
    && (Truthy(location) ==> MatchesLocation(j, location.value))
  }

  // ---------------------------------------------------------------------------
  // Threads
  // ---------------------------------------------------------------------------

  /** A story hit of the search: `objectID`, `title` ('' when missing) and `num_comments` (0 when missing). */
  datatype Thread = Thread(objectId: string, title: string, numComments: int)

  /** The `created_at_i` lower bound of the search: `max_age_days` before now. */
  function MinTimestamp(now: int, maxAgeDays: int): (r: int)
    ensures maxAgeDays >= 0 ==> r <= now
    ensures now - r == maxAgeDays * SecondsPerDay
  {
    now - maxAgeDays * SecondsPerDay
  }

  /** A hiring thread says "hiring" in its title and has more than ten comments. */
  predicate IsHiringThread(t: Thread) {
    Contains(Lower(t.title), "hiring") && t.numComments > MinThreadComments
  }

  /** `_find_hiring_threads` followed by `[:3]`. */
  function SelectedThreads(hits: seq<Thread>): seq<Thread> {
    Take(Filter(hits, IsHiringThread), MaxThreads)
  }

  /**
   * At most three threads are read, all hiring threads in the order the
   * search returned them; when there are three or fewer, all of them are.
   */
  lemma SelectedThreadsProperties(hits: seq<Thread>)
    ensures |SelectedThreads(hits)| <= MaxThreads
    ensures forall t :: t in SelectedThreads(hits) ==> IsHiringThread(t) && t in hits
    ensures IsSubseq(SelectedThreads(hits), hits)
    ensures |Filter(hits, IsHiringThread)| <= MaxThreads ==> SelectedThreads(hits) == Filter(hits, IsHiringThread)
  {
    var f := Filter(hits, IsHiringThread);
    TakePrefixSubseq(f, MaxThreads);
    FilterSubseq(hits, IsHiringThread);
    SubseqTrans(SelectedThreads(hits), f, hits);
    forall t | t in SelectedThreads(hits) ensures t in f {
      var i :| 0 <= i < |SelectedThreads(hits)| && SelectedThreads(hits)[i] == t;
      assert f[i] == t;
    }
  }

  /**
   * `_fetch_thread_comments`: the first 100 comments of the thread, parsed
   * and filtered; a thread whose request raised gives nothing.
   */
  function ThreadJobs(fetched: Option<seq<Comment>>, keywords: Option<seq<string>>, location: Option<string>,
                      now: int, rd: Readers): (r: seq<Job>)
    ensures |r| <= MaxCommentsPerThread
  {
    if fetched.None? then []
    else Harvest(Take(fetched.value, MaxCommentsPerThread), c => ParseComment(c, now, rd),
                 j => Accepts(j, keywords, location))
  }

  /** The jobs of the threads, in thread order. */
  function ThreadsJobs(threads: seq<Thread>, comments: string -> Option<seq<Comment>>, keywords: Option<seq<string>>,
                       location: Option<string>, now: int, rd: Readers): (r: seq<Job>)
    ensures |r| <= MaxCommentsPerThread * |threads|
    decreases |threads|
  {
    if |threads| == 0 then []
    else ThreadsJobs(threads[..|threads| - 1], comments, keywords, location, now, rd)
         + ThreadJobs(comments(threads[|threads| - 1].objectId), keywords, location, now, rd)
  }

  /**
   * `fetch_jobs`: search for threads newer than `max_age_days` (`None` where
   * the search raised), then read the comments of the first three hiring
   * threads.
   */
  method FetchJobs(search: int -> Option<seq<Thread>>, comments: string -> Option<seq<Comment>>,
                   keywords: Option<seq<string>>, location: Option<string>, maxAgeDays: int, now: int, rd: Readers)
    returns (jobs: seq<Job>)
    ensures var hits := search(MinTimestamp(now, maxAgeDays));
      jobs == if hits.None? then [] else ThreadsJobs(SelectedThreads(hits.value), comments, keywords, location, now, rd)
  {
    var hits := search(MinTimestamp(now, maxAgeDays));
    if hits.None? {
      return [];
    }
    var threads := SelectedThreads(hits.value);
    jobs := [];
    for i := 0 to |threads|
      invariant jobs == ThreadsJobs(threads[..i], comments, keywords, location, now, rd)
    {
      ThreadsJobsSnoc(threads, i, comments, keywords, location, now, rd);
      var got := ThreadJobs(comments(threads[i].objectId), keywords, location, now, rd);
      jobs := jobs + got;
    }
    assert threads[..|threads|] == threads;
  }

  lemma ThreadsJobsSnoc(threads: seq<Thread>, i: int, comments: string -> Option<seq<Comment>>,
                        keywords: Option<seq<string>>, location: Option<string>, now: int, rd: Readers)
    requires 0 <= i < |threads|
    ensures ThreadsJobs(threads[..i + 1], comments, keywords, location, now, rd)
         == ThreadsJobs(threads[..i], comments, keywords, location, now, rd)
            + ThreadJobs(comments(threads[i].objectId), keywords, location, now, rd)
  {
    assert threads[..i + 1][..i] == threads[..i];
    assert threads[..i + 1][i] == threads[i];
  }

  /**
   * Every job gathered is a parsed comment of a hiring thread: it passed the
   * filters, came from a long-enough comment and cites HackerNews as its
   * source; at most 300 jobs are gathered.
   */
  lemma {:induction false} ThreadsJobsProperties(threads: seq<Thread>, comments: string -> Option<seq<Comment>>,
                                                 keywords: Option<seq<string>>, location: Option<string>, now: int, rd: Readers)
    ensures |threads| <= MaxThreads ==> |ThreadsJobs(threads, comments, keywords, location, now, rd)| <= 300
    ensures forall j :: j in ThreadsJobs(threads, comments, keywords, location, now, rd) ==>
      Accepts(j, keywords, location) && j.source == Name && |j.description| <= MaxDescriptionLength
      && exists t, c :: t in threads && comments(t.objectId).Some? && c in comments(t.objectId).value
                        && ParseComment(c, now, rd) == Some(j)
    decreases |threads|
  {
    if |threads| > 0 {
      var init, t := threads[..|threads| - 1], threads[|threads| - 1];
      ThreadsJobsProperties(init, comments, keywords, location, now, rd);
      forall j | j in ThreadsJobs(threads, comments, keywords, location, now, rd)
        ensures Accepts(j, keywords, location) && j.source == Name && |j.description| <= MaxDescriptionLength
        ensures exists t, c :: t in threads && comments(t.objectId).Some? && c in comments(t.objectId).value
                               && ParseComment(c, now, rd) == Some(j)
      {
        if j in ThreadsJobs(init, comments, keywords, location, now, rd) {
          var t0, c0 :| t0 in init && comments(t0.objectId).Some? && c0 in comments(t0.objectId).value
                        && ParseComment(c0, now, rd) == Some(j);
          assert t0 in threads;
        } else {
          ThreadJobsMember(comments(t.objectId), keywords, location, now, rd, j);
          var c :| c in comments(t.objectId).value && ParseComment(c, now, rd) == Some(j);
          assert t in threads;
        }
      }
    }
  }

  /** A job read from one thread is a parsed, accepted comment of that thread. */
  lemma ThreadJobsMember(fetched: Option<seq<Comment>>, keywords: Option<seq<string>>, location: Option<string>,
                         now: int, rd: Readers, j: Job)
    requires j in ThreadJobs(fetched, keywords, location, now, rd)
    ensures Accepts(j, keywords, location) && j.source == Name && |j.description| <= MaxDescriptionLength
    ensures fetched.Some? && exists c :: c in fetched.value && ParseComment(c, now, rd) == Some(j)
  {
    var items := Take(fetched.value, MaxCommentsPerThread);
    HarvestMembers(items, c => ParseComment(c, now, rd), j => Accepts(j, keywords, location), j);
    var i :| 0 <= i < |items| && ParseComment(items[i], now, rd) == Some(j) && Accepts(j, keywords, location);
    assert items[i] in fetched.value;
  }
}
