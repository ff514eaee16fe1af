/**
 * The parts of the Google Sheets export that are rules rather than API
 * calls: the 13 column headers, the row a job becomes, the background
 * colour of a score and the guards of `write_jobs`. Cells are messages:
 * literal text kept exactly, numbers and dates kept with their format.
 */
module Sheets {
  import opened Wrappers
  import opened Tables
  import opened Explain
  import opened Jobs
  import Text

  const Headers: seq<string> := [
    "Date Found", "Title", "Company", "Location", "Remote", "Contract", "Tech Stack",
    "Score", "Breakdown", "URL", "Source", "Applied?", "Notes"]

  /** Column positions, counted from 0. */
  const DateColumn := 0
  const TitleColumn := 1
  const CompanyColumn := 2
  const LocationColumn := 3
  const RemoteColumn := 4
  const ContractColumn := 5
  const TechColumn := 6
  const ScoreColumn := 7
  const BreakdownColumn := 8
  const UrlColumn := 9
  const SourceColumn := 10
  const AppliedColumn := 11
  const NotesColumn := 12

  lemma HeaderPositions()
    ensures |Headers| == 13
    ensures Headers[TitleColumn] == "Title" && Headers[CompanyColumn] == "Company"
    ensures Headers[LocationColumn] == "Location" && Headers[UrlColumn] == "URL"
    ensures Headers[SourceColumn] == "Source" && Headers[ScoreColumn] == "Score"
    ensures Headers[BreakdownColumn] == "Breakdown"
    ensures forall i, k :: 0 <= i < k < |Headers| ==> Headers[i] != Headers[k]
  {
  }

  /** An RGB colour with channels in [0, 1]. */
  datatype Color = Color(red: real, green: real, blue: real)

  const Green := Color(0.85, 1.0, 0.85)
  const Yellow := Color(1.0, 1.0, 0.85)
  const White := Color(1.0, 1.0, 1.0)

  /** `_get_color_for_score`. */
  function ColorForScore(score: real): (c: Color)
    ensures c == Green <==> score >= 80.0
    ensures c == Yellow <==> 60.0 <= score < 80.0
    ensures c == White <==> score < 60.0
  {
    if score >= 80.0 then Green
    else if score >= 60.0 then Yellow
    else White
  }

  /** A higher score never gets a lower colour band. */
  lemma ColorBandsMonotone(a: real, b: real)
    requires a <= b
    ensures ColorForScore(a) == Green ==> ColorForScore(b) == Green
    ensures ColorForScore(a) == Yellow ==> ColorForScore(b) != White
  {
  }

  /** The scores dictionary, job id to score result. */
  type Scores = seq<Entry<string, ScoreResult>>

  /** `if scores and job.id in scores`: the score result to show, if any. */
  function ScoreFor(job: Job, scores: Option<Scores>): Option<ScoreResult> {
    if scores.Some? && |scores.value| > 0 then Get(scores.value, job.id) else None
  }

  /** `f"{comp_name}:{normalized:.1f}"`. */
  function ComponentText(e: Entry<string, ScoreEntry>): Message {
    [Lit(e.key + ":"), Num(e.value.normalized, Fixed1)]
  }

  /** The loop of `_job_to_row` that formats one piece per breakdown component. */
  method BreakdownComponents(breakdown: seq<Entry<string, ScoreEntry>>) returns (components: seq<Message>)
    ensures |components| == |breakdown|
    ensures forall i :: 0 <= i < |breakdown| ==> components[i] == ComponentText(breakdown[i])
  {
    components := [];
    for i := 0 to |breakdown|
      invariant |components| == i
      invariant forall k :: 0 <= k < i ==> components[k] == ComponentText(breakdown[k])
    {
      components := components + [ComponentText(breakdown[i])];
    }
  }

  function ComponentTexts(breakdown: seq<Entry<string, ScoreEntry>>): seq<Message> {
    seq(|breakdown|, i requires 0 <= i < |breakdown| => ComponentText(breakdown[i]))
  }

  /** The breakdown cell carries exactly one number per component. */
  lemma {:induction false} BreakdownNumbers(breakdown: seq<Entry<string, ScoreEntry>>)
    ensures NumCount(JoinMessages(ComponentTexts(breakdown), ", ")) == |breakdown|
    decreases |breakdown|
  {
    NumCountJoin(ComponentTexts(breakdown), ", ");
    SumNumCountsTexts(breakdown);
  }

  lemma {:induction false} SumNumCountsTexts(breakdown: seq<Entry<string, ScoreEntry>>)
    ensures SumNumCounts(ComponentTexts(breakdown)) == |breakdown|
    decreases |breakdown|
  {
    if |breakdown| > 0 {
      SumNumCountsTexts(breakdown[1..]);
      assert ComponentTexts(breakdown)[1..] == ComponentTexts(breakdown[1..]);
      assert NumCount(ComponentText(breakdown[0])) == 1 by {
        var m := ComponentText(breakdown[0]);
        assert m[1..] == [m[1]] && m[1..][1..] == [];
        assert NumCount(m[1..][1..]) == 0;
        assert NumCount(m[1..]) == 1;
      }
    }
  }

  /** `", ".join(job.tech_stack) if job.tech_stack else ""`. */
  function TechCell(ts: Option<seq<string>>): string {
    if ts.Some? && |ts.value| > 0 then Text.Join(ts.value, ", ") else ""
  }

  /** `_job_to_row`. */
  method JobToRow(job: Job, scores: Option<Scores>) returns (row: seq<Message>)
    ensures |row| == |Headers|
    ensures row[TitleColumn] == Plain(job.title) && row[CompanyColumn] == Plain(job.company)
    ensures row[LocationColumn] == Plain(job.location)
    ensures row[UrlColumn] == Plain(job.url) && row[SourceColumn] == Plain(job.source)
    ensures row[DateColumn] == [Date(job.postedDate)]
    ensures row[RemoteColumn] == Plain(OrEmpty(job.remoteType))
    ensures row[ContractColumn] == Plain(OrEmpty(job.contractType))
    ensures row[TechColumn] == Plain(TechCell(job.techStack))
    ensures row[AppliedColumn] == Plain("") && row[NotesColumn] == Plain("")
    ensures ScoreFor(job, scores).None? ==> row[ScoreColumn] == Plain("") && row[BreakdownColumn] == Plain("")
    ensures ScoreFor(job, scores).Some? ==>
      row[ScoreColumn] == [Num(ScoreFor(job, scores).value.score, Repr)]
      && row[BreakdownColumn] == JoinMessages(ComponentTexts(ScoreFor(job, scores).value.breakdown), ", ")
  {
    var score: Option<real> := None;
    var breakdown: Message := Plain("");
    if scores.Some? && |scores.value| > 0 && Get(scores.value, job.id).Some? {
      var scoreResult := Get(scores.value, job.id).value;
      score := Some(scoreResult.score);
      var components := BreakdownComponents(scoreResult.breakdown);
      assert components == ComponentTexts(scoreResult.breakdown);
      breakdown := JoinMessages(components, ", ");
    }
    var techStack := TechCell(job.techStack);
    var dateFound := [Date(job.postedDate)];
    row := [
      dateFound,
      Plain(job.title),
      Plain(job.company),
      Plain(job.location),
      Plain(OrEmpty(job.remoteType)),
      Plain(OrEmpty(job.contractType)),
      Plain(techStack),
      if score.Some? then [Num(score.value, Repr)] else Plain(""),
      breakdown,
      Plain(job.url),
      Plain(job.source),
      Plain(""),
      Plain("")
    ];
  }

  /** What `write_jobs` does first: give up, or go on to the sheet. */
  datatype WriteStart = Disabled | NoJobs | Proceed

  /** The guard clauses of `write_jobs`: nothing reaches the sheet when the integration is off or there are no jobs. */
  function WriteJobsStart(enabled: bool, jobs: seq<Job>): (s: WriteStart)
    ensures s == Proceed <==> enabled && |jobs| > 0
    ensures s == Disabled <==> !enabled
  {
    if !enabled then Disabled
    else if |jobs| == 0 then NoJobs
    else Proceed
  }

  /** `write_jobs`' result, given whether the sheet calls succeeded. */
  function WriteJobs(enabled: bool, jobs: seq<Job>, sheetSucceeded: bool): (ok: bool)
    ensures ok <==> enabled && |jobs| > 0 && sheetSucceeded
  {
    match WriteJobsStart(enabled, jobs)
    case Proceed => sheetSucceeded
    case _ => false
  }
}
