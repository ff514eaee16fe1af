/**
 * The deduplicator: an exact pass that keeps the first job of every id, then
 * a fuzzy pass that drops a job whose (title, company) signature is close to
 * the signature of a job already kept (optionally also requiring close
 * descriptions). The string similarity `SequenceMatcher.ratio` is a
 * parameter of every operation that needs it.
 */
module Dedup {
  import opened Jobs
  import opened Text
  import opened Wrappers
  import opened Lists

  /** `SequenceMatcher(None, a, b).ratio()`. */
  type Ratio = (string, string) -> real

  /** The two thresholds a `Deduplicator` is built with. */
  datatype Deduplicator = Deduplicator(titleCompanyThreshold: real, descriptionThreshold: real)

  /** `Deduplicator()` with its default thresholds. */
  const DefaultDeduplicator: Deduplicator := Deduplicator(0.85, 0.90)

  /** `(title.lower().strip(), company.lower().strip())`. */
  datatype Signature = Signature(title: string, company: string)

  function SignatureOf(j: Job): Signature {
    Signature(Strip(Lower(j.title)), Strip(Lower(j.company)))
  }

  // ---------------------------------------------------------------------------
  // Exact pass
  // ---------------------------------------------------------------------------

  /** The set of ids of `jobs`. */
  function Ids(jobs: seq<Job>): (r: set<string>)
    ensures |r| <= |jobs|
    decreases |jobs|
  {
    if |jobs| == 0 then {} else Ids(jobs[..|jobs| - 1]) + {jobs[|jobs| - 1].id}
  }

  lemma {:induction false} IdsMember(jobs: seq<Job>, id: string)
    ensures id in Ids(jobs) <==> exists k :: 0 <= k < |jobs| && jobs[k].id == id
    decreases |jobs|
  {
    if |jobs| > 0 {
      var p := jobs[..|jobs| - 1];
      IdsMember(p, id);
      if id in Ids(p) {
        var k :| 0 <= k < |p| && p[k].id == id;
        assert jobs[k] == p[k];
      }
      if exists k :: 0 <= k < |jobs| && jobs[k].id == id {
        var k :| 0 <= k < |jobs| && jobs[k].id == id;
        if k < |p| { assert p[k] == jobs[k]; }
      }
    }
  }

  predicate DistinctIds(jobs: seq<Job>) {
    forall i, j :: 0 <= i < j < |jobs| ==> jobs[i].id != jobs[j].id
  }

  /**
   * What `_remove_exact_duplicates` returns: the jobs in order, each kept
   * only when no earlier job had its id.
   */
  function ExactPass(jobs: seq<Job>): seq<Job>
    decreases |jobs|
  {
    if |jobs| == 0 then []
    else
      var p := jobs[..|jobs| - 1];
      var last := jobs[|jobs| - 1];
      if last.id in Ids(p) then ExactPass(p) else ExactPass(p) + [last]
  }

  /** The exact pass loses no id. */
  lemma {:induction false} ExactPassIds(jobs: seq<Job>)
    ensures Ids(ExactPass(jobs)) == Ids(jobs)
    decreases |jobs|
  {
    if |jobs| > 0 {
      var p := jobs[..|jobs| - 1];
      var last := jobs[|jobs| - 1];
      ExactPassIds(p);
      if last.id !in Ids(p) {
        IdsSnoc(ExactPass(p), last);
      }
    }
  }

  /** The exact pass keeps each id once. */
  lemma {:induction false} ExactPassDistinctIds(jobs: seq<Job>)
    ensures DistinctIds(ExactPass(jobs))
    decreases |jobs|
  {
    if |jobs| > 0 {
      var p := jobs[..|jobs| - 1];
      var last := jobs[|jobs| - 1];
      ExactPassDistinctIds(p);
      ExactPassIds(p);
      if last.id !in Ids(p) {
        var e := ExactPass(p);
        IdsMember(e, last.id);
        assert forall k :: 0 <= k < |e| ==> e[k].id != last.id;
        var r := e + [last];
        assert forall i :: 0 <= i < |e| ==> r[i] == e[i];
      }
    }
  }

  lemma ExactPassSnoc(jobs: seq<Job>, j: Job)
    ensures ExactPass(jobs + [j]) == if j.id in Ids(jobs) then ExactPass(jobs) else ExactPass(jobs) + [j]
  {
    assert (jobs + [j])[..|jobs|] == jobs;
  }

  lemma ExactPassStep(jobs: seq<Job>, i: nat)
    requires i < |jobs|
    ensures Ids(jobs[..i + 1]) == Ids(jobs[..i]) + {jobs[i].id}
    ensures ExactPass(jobs[..i + 1]) ==
      if jobs[i].id in Ids(jobs[..i]) then ExactPass(jobs[..i]) else ExactPass(jobs[..i]) + [jobs[i]]
  {
    assert jobs[..i + 1] == jobs[..i] + [jobs[i]];
    ExactPassSnoc(jobs[..i], jobs[i]);
    IdsSnoc(jobs[..i], jobs[i]);
  }

  method RemoveExactDuplicates(jobs: seq<Job>) returns (unique: seq<Job>)
    ensures unique == ExactPass(jobs)
  {
    var seenIds: set<string> := {};
    unique := [];
    for i := 0 to |jobs|
      invariant seenIds == Ids(jobs[..i])
      invariant unique == ExactPass(jobs[..i])
    {
      var job := jobs[i];
      ExactPassStep(jobs, i);
      if job.id !in seenIds {
        seenIds := seenIds + {job.id};
        unique := unique + [job];
      }
    }
    assert jobs[..|jobs|] == jobs;
  }

  /** A list with distinct ids passes the exact pass unchanged. */
  lemma {:induction false} ExactPassDistinct(jobs: seq<Job>)
    requires DistinctIds(jobs)
    ensures ExactPass(jobs) == jobs
    decreases |jobs|
  {
    if |jobs| > 0 {
      var p := jobs[..|jobs| - 1];
      var last := jobs[|jobs| - 1];
      ExactPassDistinct(p);
      assert last.id !in Ids(p) by {
        IdsMember(p, last.id);
        assert forall k :: 0 <= k < |p| ==> p[k] == jobs[k];
      }
      SplitLast(jobs);
    }
  }

  lemma {:induction false} ExactPassSubseq(jobs: seq<Job>)
    ensures IsSubseq(ExactPass(jobs), jobs)
    decreases |jobs|
  {
    if |jobs| > 0 {
      var p := jobs[..|jobs| - 1];
      var last := jobs[|jobs| - 1];
      ExactPassSubseq(p);
      SplitLast(jobs);
      if last.id in Ids(p) {
        SubseqSnocRight(ExactPass(p), p, last);
      } else {
        SubseqSnocBoth(ExactPass(p), p, last);
      }
    }
  }

  /** Index of the first job of `jobs` with the given id. */
  function FirstWithId(jobs: seq<Job>, id: string): (k: nat)
    ensures k <= |jobs|
    ensures k < |jobs| ==> jobs[k].id == id
    ensures forall i :: 0 <= i < k ==> jobs[i].id != id
  {
    if |jobs| == 0 then 0
    else if jobs[0].id == id then 0
    else 1 + FirstWithId(jobs[1..], id)
  }

  lemma FirstWithIdSnoc(jobs: seq<Job>, j: Job, id: string)
    requires FirstWithId(jobs, id) < |jobs|
    ensures FirstWithId(jobs + [j], id) == FirstWithId(jobs, id)
  {
    var k := FirstWithId(jobs, id);
    var k' := FirstWithId(jobs + [j], id);
    assert (jobs + [j])[k] == jobs[k];
  }

  /** Every job the exact pass keeps is the first job of the input with its id. */
  lemma {:induction false} ExactPassKeepsFirst(jobs: seq<Job>)
    ensures forall k :: 0 <= k < |ExactPass(jobs)| ==>
      FirstWithId(jobs, ExactPass(jobs)[k].id) < |jobs|
      && ExactPass(jobs)[k] == jobs[FirstWithId(jobs, ExactPass(jobs)[k].id)]
    decreases |jobs|
  {
    if |jobs| > 0 {
      var p := jobs[..|jobs| - 1];
      var last := jobs[|jobs| - 1];
      ExactPassKeepsFirst(p);
      SplitLast(jobs);
      var r := ExactPass(jobs);
      forall k | 0 <= k < |r|
        ensures FirstWithId(jobs, r[k].id) < |jobs| && r[k] == jobs[FirstWithId(jobs, r[k].id)]
      {
        if k < |ExactPass(p)| {
          var e := ExactPass(p)[k];
          assert r[k] == e;
          FirstWithIdSnoc(p, last, e.id);
          assert jobs[FirstWithId(p, e.id)] == p[FirstWithId(p, e.id)];
        } else {
          assert r[k] == last && last.id !in Ids(p);
          IdsMember(p, last.id);
          assert forall i :: 0 <= i < |p| ==> jobs[i] == p[i];
        }
      }
    }
  }

  // ---------------------------------------------------------------------------
  // Fuzzy pass
  //
  // The specification functions of the fuzzy pass take the signature
  // function as a parameter `sig`; `remove_duplicates` and the methods use
  // `SignatureOf`. The properties below hold for every signature function.
  // ---------------------------------------------------------------------------

  /** `_calculate_signature_similarity`: 0.7 of the title ratio plus 0.3 of the company ratio. */
  function SignatureSimilarity(ratio: Ratio, a: Signature, b: Signature): real {
    0.7 * ratio(a.title, b.title) + 0.3 * ratio(a.company, b.company)
  }

  /** With ratios in [0, 1] the similarity is in [0, 1], and it is 1 only when both ratios are. */
  lemma SignatureSimilarityBounds(ratio: Ratio, a: Signature, b: Signature)
    requires 0.0 <= ratio(a.title, b.title) <= 1.0 && 0.0 <= ratio(a.company, b.company) <= 1.0
    ensures 0.0 <= SignatureSimilarity(ratio, a, b) <= 1.0
    ensures ratio(a.title, b.title) == 1.0 && ratio(a.company, b.company) == 1.0
            <==> SignatureSimilarity(ratio, a, b) == 1.0
  {
  }

  function Signatures(sig: Job -> Signature, jobs: seq<Job>): (r: seq<Signature>)
    ensures |r| == |jobs|
    ensures forall i :: 0 <= i < |jobs| ==> r[i] == sig(jobs[i])
  {
    seq(|jobs|, i requires 0 <= i < |jobs| => sig(jobs[i]))
  }

  lemma SignaturesSnoc(sig: Job -> Signature, jobs: seq<Job>, j: Job)
    ensures Signatures(sig, jobs + [j]) == Signatures(sig, jobs) + [sig(j)]
  {
  }

  /** Position of the first signature in `sigs` at least `threshold`-similar to `s`, `|sigs|` when none is. */
  function FirstSimilar(ratio: Ratio, threshold: real, s: Signature, sigs: seq<Signature>): (k: nat)
    ensures k <= |sigs|
    ensures k < |sigs| ==> SignatureSimilarity(ratio, s, sigs[k]) >= threshold
    ensures forall i :: 0 <= i < k ==> SignatureSimilarity(ratio, s, sigs[i]) < threshold
  {
    if |sigs| == 0 then 0
    else if SignatureSimilarity(ratio, s, sigs[0]) >= threshold then 0
    else 1 + FirstSimilar(ratio, threshold, s, sigs[1..])
  }

  /** Position of the first occurrence of `s` in `sigs`, `|sigs|` when it does not occur. */
  function FirstIndexOf(sigs: seq<Signature>, s: Signature): (m: nat)
    ensures m <= |sigs|
    ensures m < |sigs| ==> sigs[m] == s
    ensures forall i :: 0 <= i < m ==> sigs[i] != s
  {
    if |sigs| == 0 then 0
    else if sigs[0] == s then 0
    else 1 + FirstIndexOf(sigs[1..], s)
  }

  /**
   * Whether the fuzzy pass drops `job` given the jobs `kept` so far: the
   * first kept signature that reaches the title/company threshold decides.
   * Without descriptions it makes `job` a duplicate; with descriptions the
   * first kept job bearing that signature must also have a description at
   * least as similar as the description threshold. No signature reaching the
   * threshold keeps the job.
   */
  predicate IsDuplicate(d: Deduplicator, ratio: Ratio, sig: Job -> Signature, useDescription: bool,
                        kept: seq<Job>, job: Job)
  {
    var sigs := Signatures(sig, kept);
    var k := FirstSimilar(ratio, d.titleCompanyThreshold, sig(job), sigs);
    if k == |kept| then false
    else if !useDescription then true
    else
      var m := FirstIndexOf(sigs, sigs[k]);
      ratio(job.description, kept[m].description) >= d.descriptionThreshold
  }

  /** Without descriptions, a job is a duplicate exactly when some kept signature reaches the threshold. */
  lemma IsDuplicateWithoutDescription(d: Deduplicator, ratio: Ratio, sig: Job -> Signature, kept: seq<Job>, job: Job)
    ensures IsDuplicate(d, ratio, sig, false, kept, job) <==>
      exists i :: 0 <= i < |kept| && SignatureSimilarity(ratio, sig(job), sig(kept[i])) >= d.titleCompanyThreshold
  {
    var sigs := Signatures(sig, kept);
    var k := FirstSimilar(ratio, d.titleCompanyThreshold, sig(job), sigs);
    if k < |kept| {
      assert SignatureSimilarity(ratio, sig(job), sig(kept[k])) >= d.titleCompanyThreshold;
    }
  }

  /** Comparing descriptions can only keep more jobs: a duplicate with descriptions is one without them. */
  lemma DescriptionOnlyNarrows(d: Deduplicator, ratio: Ratio, sig: Job -> Signature, kept: seq<Job>, job: Job)
    ensures IsDuplicate(d, ratio, sig, true, kept, job) ==> IsDuplicate(d, ratio, sig, false, kept, job)
  {
  }

  /** What `_remove_similar_duplicates` returns. */
  function FuzzyPass(d: Deduplicator, ratio: Ratio, sig: Job -> Signature, useDescription: bool,
                     jobs: seq<Job>): seq<Job>
    decreases |jobs|
  {
    if |jobs| == 0 then []
    else
      var kept := FuzzyPass(d, ratio, sig, useDescription, jobs[..|jobs| - 1]);
      if IsDuplicate(d, ratio, sig, useDescription, kept, jobs[|jobs| - 1]) then kept
      else kept + [jobs[|jobs| - 1]]
  }

  lemma FuzzyPassSnoc(d: Deduplicator, ratio: Ratio, sig: Job -> Signature, useDescription: bool,
                      jobs: seq<Job>, j: Job)
    ensures FuzzyPass(d, ratio, sig, useDescription, jobs + [j]) ==
      var kept := FuzzyPass(d, ratio, sig, useDescription, jobs);
      if IsDuplicate(d, ratio, sig, useDescription, kept, j) then kept else kept + [j]
  {
    assert (jobs + [j])[..|jobs|] == jobs;
  }

  lemma FuzzyPassStep(d: Deduplicator, ratio: Ratio, sig: Job -> Signature, useDescription: bool,
                      jobs: seq<Job>, i: nat)
    requires i < |jobs|
    ensures FuzzyPass(d, ratio, sig, useDescription, jobs[..i + 1]) ==
      var kept := FuzzyPass(d, ratio, sig, useDescription, jobs[..i]);
      if IsDuplicate(d, ratio, sig, useDescription, kept, jobs[i]) then kept else kept + [jobs[i]]
  {
    assert jobs[..i + 1] == jobs[..i] + [jobs[i]];
    FuzzyPassSnoc(d, ratio, sig, useDescription, jobs[..i], jobs[i]);
  }

  lemma {:induction false} FirstSimilarAt(ratio: Ratio, threshold: real, s: Signature, sigs: seq<Signature>, k: nat)
    requires k <= |sigs|
    requires forall i :: 0 <= i < k ==> SignatureSimilarity(ratio, s, sigs[i]) < threshold
    requires k < |sigs| ==> SignatureSimilarity(ratio, s, sigs[k]) >= threshold
    ensures FirstSimilar(ratio, threshold, s, sigs) == k
  {
  }

  lemma {:induction false} FirstIndexOfAt(sigs: seq<Signature>, s: Signature, m: nat)
    requires m < |sigs| && sigs[m] == s
    requires forall i :: 0 <= i < m ==> sigs[i] != s
    ensures FirstIndexOf(sigs, s) == m
  {
  }

  /**
   * The scan of the kept signatures for one job (the inner loops of
   * `_remove_similar_duplicates`): stop at the first signature reaching the
   * threshold and, when descriptions are compared, at the first kept job
   * bearing that signature.
   */
  method ScanKept(d: Deduplicator, ratio: Ratio, sig: Job -> Signature, useDescription: bool,
                  unique: seq<Job>, seenSignatures: seq<Signature>, job: Job, signature: Signature)
    returns (isDuplicate: bool)
    requires seenSignatures == Signatures(sig, unique)
    requires signature == sig(job)
    ensures isDuplicate == IsDuplicate(d, ratio, sig, useDescription, unique, job)
  {
    isDuplicate := false;
    var s := 0;
    while s < |seenSignatures|
      invariant 0 <= s <= |seenSignatures|
      invariant forall x :: 0 <= x < s ==>
        SignatureSimilarity(ratio, signature, seenSignatures[x]) < d.titleCompanyThreshold
      invariant !isDuplicate
    {
      var similarity := SignatureSimilarity(ratio, signature, seenSignatures[s]);
      if similarity >= d.titleCompanyThreshold {
        FirstSimilarAt(ratio, d.titleCompanyThreshold, signature, seenSignatures, s);
        if useDescription {
          var u := 0;
          while u < |unique|
            invariant 0 <= u <= s
            invariant forall y :: 0 <= y < u ==> seenSignatures[y] != seenSignatures[s]
          {
            var uniqueSig := sig(unique[u]);
            if uniqueSig == seenSignatures[s] {
              FirstIndexOfAt(seenSignatures, seenSignatures[s], u);
              var descSimilarity := ratio(job.description, unique[u].description);
              if descSimilarity >= d.descriptionThreshold {
                isDuplicate := true;
              }
              return;
            }
            u := u + 1;
          }
        } else {
          isDuplicate := true;
        }
        return;
      }
      s := s + 1;
    }
    FirstSimilarAt(ratio, d.titleCompanyThreshold, signature, seenSignatures, s);
  }

  /** `_remove_similar_duplicates`, with `sig` computing each job's signature (`SignatureOf` in `RemoveDuplicates`). */
  method RemoveSimilarDuplicates(d: Deduplicator, ratio: Ratio, sig: Job -> Signature, jobs: seq<Job>,
                                 useDescription: bool)
    returns (unique: seq<Job>)
    ensures unique == FuzzyPass(d, ratio, sig, useDescription, jobs)
  {
    unique := [];
    var seenSignatures: seq<Signature> := [];
    for i := 0 to |jobs|
      invariant unique == FuzzyPass(d, ratio, sig, useDescription, jobs[..i])
      invariant seenSignatures == Signatures(sig, unique)
    {
      var job := jobs[i];
      var signature := sig(job);
      var isDuplicate := ScanKept(d, ratio, sig, useDescription, unique, seenSignatures, job, signature);
      FuzzyPassStep(d, ratio, sig, useDescription, jobs, i);
      SignaturesSnoc(sig, unique, job);
      if !isDuplicate {
        unique := unique + [job];
        seenSignatures := seenSignatures + [signature];
      }
    }
    assert jobs[..|jobs|] == jobs;
  }

  lemma {:induction false} FuzzyPassSubseq(d: Deduplicator, ratio: Ratio, sig: Job -> Signature,
                                           useDescription: bool, jobs: seq<Job>)
    ensures IsSubseq(FuzzyPass(d, ratio, sig, useDescription, jobs), jobs)
    decreases |jobs|
  {
    if |jobs| > 0 {
      var p := jobs[..|jobs| - 1];
      var last := jobs[|jobs| - 1];
      FuzzyPassSubseq(d, ratio, sig, useDescription, p);
      SplitLast(jobs);
      var kept := FuzzyPass(d, ratio, sig, useDescription, p);
      if IsDuplicate(d, ratio, sig, useDescription, kept, last) {
        SubseqSnocRight(kept, p, last);
      } else {
        SubseqSnocBoth(kept, p, last);
      }
    }
  }

  /** No job of `ys` is a duplicate of the jobs before it. */
  predicate Stable(d: Deduplicator, ratio: Ratio, sig: Job -> Signature, useDescription: bool, ys: seq<Job>) {
    forall j :: 0 <= j < |ys| ==> !IsDuplicate(d, ratio, sig, useDescription, ys[..j], ys[j])
  }

  lemma {:induction false} FuzzyPassStable(d: Deduplicator, ratio: Ratio, sig: Job -> Signature,
                                           useDescription: bool, jobs: seq<Job>)
    ensures Stable(d, ratio, sig, useDescription, FuzzyPass(d, ratio, sig, useDescription, jobs))
    decreases |jobs|
  {
    if |jobs| > 0 {
      var p := jobs[..|jobs| - 1];
      var last := jobs[|jobs| - 1];
      FuzzyPassStable(d, ratio, sig, useDescription, p);
      var kept := FuzzyPass(d, ratio, sig, useDescription, p);
      if !IsDuplicate(d, ratio, sig, useDescription, kept, last) {
        var ys := kept + [last];
        forall j | 0 <= j < |ys|
          ensures !IsDuplicate(d, ratio, sig, useDescription, ys[..j], ys[j])
        {
          if j < |kept| {
            assert ys[..j] == kept[..j] && ys[j] == kept[j];
          } else {
            assert ys[..j] == kept;
          }
        }
      }
    }
  }

  lemma {:induction false} StableFixed(d: Deduplicator, ratio: Ratio, sig: Job -> Signature,
                                       useDescription: bool, ys: seq<Job>)
    requires Stable(d, ratio, sig, useDescription, ys)
    ensures FuzzyPass(d, ratio, sig, useDescription, ys) == ys
    decreases |ys|
  {
    if |ys| > 0 {
      var p := ys[..|ys| - 1];
      var last := ys[|ys| - 1];
      forall j | 0 <= j < |p|
        ensures !IsDuplicate(d, ratio, sig, useDescription, p[..j], p[j])
      {
        assert p[..j] == ys[..j] && p[j] == ys[j];
      }
      StableFixed(d, ratio, sig, useDescription, p);
      assert !IsDuplicate(d, ratio, sig, useDescription, p, last);
      FuzzyPassKeepsLast(d, ratio, sig, useDescription, p, last);
      SplitLast(ys);
    }
  }

  lemma FuzzyPassKeepsLast(d: Deduplicator, ratio: Ratio, sig: Job -> Signature,
                           useDescription: bool, p: seq<Job>, last: Job)
    requires FuzzyPass(d, ratio, sig, useDescription, p) == p
    requires !IsDuplicate(d, ratio, sig, useDescription, p, last)
    ensures FuzzyPass(d, ratio, sig, useDescription, p + [last]) == p + [last]
  {
    FuzzyPassSnoc(d, ratio, sig, useDescription, p, last);
  }


  /** Running the fuzzy pass on its own output changes nothing. */
  lemma FuzzyPassIdempotent(d: Deduplicator, ratio: Ratio, sig: Job -> Signature, useDescription: bool, jobs: seq<Job>)
    ensures FuzzyPass(d, ratio, sig, useDescription, FuzzyPass(d, ratio, sig, useDescription, jobs))
            == FuzzyPass(d, ratio, sig, useDescription, jobs)
  {
    FuzzyPassStable(d, ratio, sig, useDescription, jobs);
    StableFixed(d, ratio, sig, useDescription, FuzzyPass(d, ratio, sig, useDescription, jobs));
  }

  /** Without descriptions, no kept job reaches the threshold against a job kept before it. */
  lemma FuzzyPassPairwise(d: Deduplicator, ratio: Ratio, sig: Job -> Signature, jobs: seq<Job>)
    ensures var r := FuzzyPass(d, ratio, sig, false, jobs);
      forall i, j :: 0 <= i < j < |r| ==>
        SignatureSimilarity(ratio, sig(r[j]), sig(r[i])) < d.titleCompanyThreshold
  {
    var r := FuzzyPass(d, ratio, sig, false, jobs);
    FuzzyPassStable(d, ratio, sig, false, jobs);
    forall i, j | 0 <= i < j < |r|
      ensures SignatureSimilarity(ratio, sig(r[j]), sig(r[i])) < d.titleCompanyThreshold
    {
      IsDuplicateWithoutDescription(d, ratio, sig, r[..j], r[j]);
      assert r[..j][i] == r[i];
    }
  }

  lemma {:induction false} FuzzyPassPrefix(d: Deduplicator, ratio: Ratio, sig: Job -> Signature,
                                           useDescription: bool, jobs: seq<Job>)
    requires |jobs| > 0
    ensures |FuzzyPass(d, ratio, sig, useDescription, jobs)| > 0
    ensures FuzzyPass(d, ratio, sig, useDescription, jobs)[0] == jobs[0]
    decreases |jobs|
  {
    if |jobs| == 1 {
      assert jobs[..0] == [];
    } else {
      FuzzyPassPrefix(d, ratio, sig, useDescription, jobs[..|jobs| - 1]);
    }
  }

  // ---------------------------------------------------------------------------
  // remove_duplicates
  // ---------------------------------------------------------------------------

  /** What `remove_duplicates` returns: the fuzzy pass over the exact pass. */
  function Deduplicated(d: Deduplicator, ratio: Ratio, useDescription: bool, jobs: seq<Job>): seq<Job> {
    FuzzyPass(d, ratio, SignatureOf, useDescription, ExactPass(jobs))
  }

  method RemoveDuplicates(d: Deduplicator, ratio: Ratio, jobs: seq<Job>, useDescription: bool)
    returns (unique: seq<Job>)
    ensures unique == Deduplicated(d, ratio, useDescription, jobs)
    ensures IsSubseq(unique, jobs) && DistinctIds(unique)
  {
    DeduplicatedProperties(d, ratio, useDescription, jobs);
    if |jobs| == 0 {
      return [];
    }
    unique := RemoveExactDuplicates(jobs);
    unique := RemoveSimilarDuplicates(d, ratio, SignatureOf, unique, useDescription);
  }

  lemma {:induction false} SubseqDistinctIds(a: seq<Job>, b: seq<Job>)
    requires IsSubseq(a, b) && DistinctIds(b)
    ensures DistinctIds(a)
    decreases |b|
  {
    if |a| > 0 {
      var pa, pb := a[..|a| - 1], b[..|b| - 1];
      assert DistinctIds(pb);
      if a[|a| - 1] == b[|b| - 1] && IsSubseq(pa, pb) {
        SubseqDistinctIds(pa, pb);
        forall i | 0 <= i < |pa|
          ensures pa[i].id != a[|a| - 1].id
        {
          assert pa[i] in pa;
          SubseqMember(pa, pb, pa[i]);
          var k :| 0 <= k < |pb| && pb[k] == pa[i];
          assert b[k] == pb[k];
        }
        assert a == pa + [a[|a| - 1]];
      } else {
        SubseqDistinctIds(a, pb);
      }
    }
  }

  /** The result is an order-preserving sub-list of the input, with distinct ids. */
  lemma DeduplicatedProperties(d: Deduplicator, ratio: Ratio, useDescription: bool, jobs: seq<Job>)
    ensures IsSubseq(Deduplicated(d, ratio, useDescription, jobs), jobs)
    ensures DistinctIds(Deduplicated(d, ratio, useDescription, jobs))
  {
    var e := ExactPass(jobs);
    var r := FuzzyPass(d, ratio, SignatureOf, useDescription, e);
    ExactPassSubseq(jobs);
    ExactPassDistinctIds(jobs);
    FuzzyPassSubseq(d, ratio, SignatureOf, useDescription, e);
    SubseqTrans(r, e, jobs);
    SubseqDistinctIds(r, e);
  }

  /** Deduplicating a deduplicated list changes nothing. */
  lemma DeduplicatedIdempotent(d: Deduplicator, ratio: Ratio, useDescription: bool, jobs: seq<Job>)
    ensures Deduplicated(d, ratio, useDescription, Deduplicated(d, ratio, useDescription, jobs))
            == Deduplicated(d, ratio, useDescription, jobs)
  {
    var r := Deduplicated(d, ratio, useDescription, jobs);
    DeduplicatedProperties(d, ratio, useDescription, jobs);
    ExactPassDistinct(r);
    FuzzyPassIdempotent(d, ratio, SignatureOf, useDescription, ExactPass(jobs));
  }

  /** The first job of a non-empty list is always kept, and kept first. */
  lemma DeduplicatedKeepsFirst(d: Deduplicator, ratio: Ratio, useDescription: bool, jobs: seq<Job>)
    requires |jobs| > 0
    ensures |Deduplicated(d, ratio, useDescription, jobs)| > 0
    ensures Deduplicated(d, ratio, useDescription, jobs)[0] == jobs[0]
  {
    ExactPassFirstIsFirst(jobs);
    FuzzyPassPrefix(d, ratio, SignatureOf, useDescription, ExactPass(jobs));
  }

  lemma {:induction false} ExactPassFirstIsFirst(jobs: seq<Job>)
    requires |jobs| > 0
    ensures |ExactPass(jobs)| > 0 && ExactPass(jobs)[0] == jobs[0]
    decreases |jobs|
  {
    if |jobs| == 1 {
      assert jobs[..0] == [];
    } else {
      var p := jobs[..|jobs| - 1];
      ExactPassFirstIsFirst(p);
    }
  }

  // ---------------------------------------------------------------------------
  // find_duplicates and get_deduplication_stats
  // ---------------------------------------------------------------------------

  /** One reported pair `(job1, job2, similarity)`. */
  datatype DuplicatePair = DuplicatePair(first: Job, second: Job, similarity: real)

  function PairAt(ratio: Ratio, sig: Job -> Signature, jobs: seq<Job>, i: nat, j: nat): DuplicatePair
    requires i < |jobs| && j < |jobs|
  {
    DuplicatePair(jobs[i], jobs[j], SignatureSimilarity(ratio, sig(jobs[i]), sig(jobs[j])))
  }

  /** The pairs `(jobs[i], jobs[j])` with `i < j < n` that reach `threshold`, by increasing `j`. */
  function Row(ratio: Ratio, sig: Job -> Signature, threshold: real, jobs: seq<Job>, i: nat, n: nat): seq<DuplicatePair>
    requires i < |jobs| && n <= |jobs|
    decreases n
  {
    if n <= i + 1 then []
    else
      Row(ratio, sig, threshold, jobs, i, n - 1)
      + (if PairAt(ratio, sig, jobs, i, n - 1).similarity >= threshold then [PairAt(ratio, sig, jobs, i, n - 1)] else [])
  }

  /** The rows of the first `m` jobs, one after another. */
  function Pairs(ratio: Ratio, sig: Job -> Signature, threshold: real, jobs: seq<Job>, m: nat): seq<DuplicatePair>
    requires m <= |jobs|
    decreases m
  {
    if m == 0 then [] else Pairs(ratio, sig, threshold, jobs, m - 1) + Row(ratio, sig, threshold, jobs, m - 1, |jobs|)
  }

  /** `threshold if threshold is not None else self.title_company_threshold`. */
  function ThresholdOr(d: Deduplicator, threshold: Option<real>): real {
    if threshold.Some? then threshold.value else d.titleCompanyThreshold
  }

  /** `find_duplicates`, with `sig` computing each job's signature (`SignatureOf` in `GetDeduplicationStats`). */
  method FindDuplicates(d: Deduplicator, ratio: Ratio, sig: Job -> Signature, jobs: seq<Job>, threshold: Option<real>)
    returns (duplicates: seq<DuplicatePair>)
    ensures duplicates == Pairs(ratio, sig, ThresholdOr(d, threshold), jobs, |jobs|)
  {
    var t := ThresholdOr(d, threshold);
    duplicates := [];
    for i := 0 to |jobs|
      invariant duplicates == Pairs(ratio, sig, t, jobs, i)
    {
      var row: seq<DuplicatePair> := [];
      for j := i + 1 to |jobs|
        invariant row == Row(ratio, sig, t, jobs, i, j)
      {
        var sig1 := sig(jobs[i]);
        var sig2 := sig(jobs[j]);
        var similarity := SignatureSimilarity(ratio, sig1, sig2);
        if similarity >= t {
          row := row + [DuplicatePair(jobs[i], jobs[j], similarity)];
        }
      }
      duplicates := duplicates + row;
    }
  }

  /** `p` is the pair of jobs `i < j` and their similarity reaches `threshold`. */
  predicate Reports(ratio: Ratio, sig: Job -> Signature, threshold: real, jobs: seq<Job>, i: nat, j: nat, p: DuplicatePair) {
    i < j < |jobs| && p == PairAt(ratio, sig, jobs, i, j) && p.similarity >= threshold
  }

  lemma {:induction false} RowMembers(ratio: Ratio, sig: Job -> Signature, threshold: real, jobs: seq<Job>,
                                      i: nat, n: nat, p: DuplicatePair)
    requires i < |jobs| && n <= |jobs|
    ensures p in Row(ratio, sig, threshold, jobs, i, n) <==> exists j: nat :: j < n && Reports(ratio, sig, threshold, jobs, i, j, p)
    decreases n
  {
    if n > i + 1 {
      var before := Row(ratio, sig, threshold, jobs, i, n - 1);
      RowMembers(ratio, sig, threshold, jobs, i, n - 1, p);
      if p in Row(ratio, sig, threshold, jobs, i, n) && p !in before {
        assert Reports(ratio, sig, threshold, jobs, i, n - 1, p);
      }
      if exists j: nat :: j < n && Reports(ratio, sig, threshold, jobs, i, j, p) {
        var j: nat :| j < n && Reports(ratio, sig, threshold, jobs, i, j, p);
        if j == n - 1 {
          assert p in Row(ratio, sig, threshold, jobs, i, n);
        } else {
          assert p in before;
        }
      }
    }
  }

  /**
   * `find_duplicates` reports exactly the pairs of positions `i < j` whose
   * signatures reach the threshold, each with its similarity.
   */
  lemma {:induction false} PairsMembers(ratio: Ratio, sig: Job -> Signature, threshold: real, jobs: seq<Job>,
                                        m: nat, p: DuplicatePair)
    requires m <= |jobs|
    ensures p in Pairs(ratio, sig, threshold, jobs, m) <==> exists i: nat, j: nat :: i < m && Reports(ratio, sig, threshold, jobs, i, j, p)
    decreases m
  {
    if m > 0 {
      var before := Pairs(ratio, sig, threshold, jobs, m - 1);
      var row := Row(ratio, sig, threshold, jobs, m - 1, |jobs|);
      assert Pairs(ratio, sig, threshold, jobs, m) == before + row;
      PairsMembers(ratio, sig, threshold, jobs, m - 1, p);
      RowMembers(ratio, sig, threshold, jobs, m - 1, |jobs|, p);
      if p in before {
        var i: nat, j: nat :| i < m - 1 && Reports(ratio, sig, threshold, jobs, i, j, p);
        assert i < m;
      } else if p in row {
        var j: nat :| j < |jobs| && Reports(ratio, sig, threshold, jobs, m - 1, j, p);
        assert m - 1 < m;
      }
      if exists i: nat, j: nat :: i < m && Reports(ratio, sig, threshold, jobs, i, j, p) {
        var i: nat, j: nat :| i < m && Reports(ratio, sig, threshold, jobs, i, j, p);
        if i < m - 1 {
          assert p in before;
        } else {
          assert p in row;
        }
      }
    }
  }

  /** The dictionary `get_deduplication_stats` returns. */
  datatype DedupStats = DedupStats(
    totalJobs: nat,
    exactDuplicates: nat,
    similarDuplicatePairs: nat,
    estimatedUnique: int,
    threshold: real)

  lemma IdsSnoc(jobs: seq<Job>, j: Job)
    ensures Ids(jobs + [j]) == Ids(jobs) + {j.id}
  {
    assert (jobs + [j])[..|jobs|] == jobs;
  }

  method GetDeduplicationStats(d: Deduplicator, ratio: Ratio, jobs: seq<Job>) returns (stats: DedupStats)
    ensures stats.totalJobs == |jobs|
    ensures stats.exactDuplicates == |jobs| - |Ids(jobs)|
    ensures stats.exactDuplicates == |jobs| - |ExactPass(jobs)|
    ensures stats.similarDuplicatePairs == |Pairs(ratio, SignatureOf, d.titleCompanyThreshold, jobs, |jobs|)|
    ensures stats.estimatedUnique == |jobs| - stats.exactDuplicates - stats.similarDuplicatePairs
    ensures stats.threshold == d.titleCompanyThreshold
  {
    var seenIds: set<string> := {};
    var exactDuplicates := 0;
    for i := 0 to |jobs|
      invariant seenIds == Ids(jobs[..i])
      invariant exactDuplicates == i - |seenIds|
    {
      assert jobs[..i + 1] == jobs[..i] + [jobs[i]];
      IdsSnoc(jobs[..i], jobs[i]);
      if jobs[i].id in seenIds {
        exactDuplicates := exactDuplicates + 1;
      } else {
        seenIds := seenIds + {jobs[i].id};
      }
    }
    assert jobs[..|jobs|] == jobs;
    ExactPassCount(jobs);
    var similarPairs := FindDuplicates(d, ratio, SignatureOf, jobs, None);
    stats := DedupStats(|jobs|, exactDuplicates, |similarPairs|,
                        |jobs| - exactDuplicates - |similarPairs|, d.titleCompanyThreshold);
  }

  /** The exact pass keeps one job per distinct id. */
  lemma ExactPassCount(jobs: seq<Job>)
    ensures |ExactPass(jobs)| == |Ids(jobs)|
  {
    ExactPassDistinctIds(jobs);
    ExactPassIds(jobs);
    DistinctIdsCount(ExactPass(jobs));
  }

  lemma {:induction false} DistinctIdsCount(r: seq<Job>)
    requires DistinctIds(r)
    ensures |Ids(r)| == |r|
    decreases |r|
  {
    if |r| > 0 {
      var p := r[..|r| - 1];
      DistinctIdsCount(p);
      IdsSnoc(p, r[|r| - 1]);
      assert r == p + [r[|r| - 1]];
      IdsMember(p, r[|r| - 1].id);
      assert forall k :: 0 <= k < |p| ==> p[k] == r[k];
    }
  }

  /**
   * `estimated_unique` counts a group of identical postings more than once:
   * three copies of one posting (same id, same signature) give 2 exact
   * duplicates and 3 similar pairs, so the estimate is 3 - 2 - 3 = -2.
   */
  lemma EstimatedUniqueCanBeNegative(j: Job)
    ensures var ratio: Ratio := (a: string, b: string) => if a == b then 1.0 else 0.0;
      var jobs := [j, j, j];
      |jobs| - (|jobs| - |Ids(jobs)|) - |Pairs(ratio, SignatureOf, DefaultDeduplicator.titleCompanyThreshold, jobs, 3)| == -2
  {
    var ratio: Ratio := (a: string, b: string) => if a == b then 1.0 else 0.0;
    var jobs := [j, j, j];
    assert Ids(jobs) == {j.id} by {
      assert Ids(jobs[..1]) == {j.id};
      assert Ids(jobs[..2]) == {j.id};
    }
    assert SignatureSimilarity(ratio, SignatureOf(j), SignatureOf(j)) == 1.0;
    var t := DefaultDeduplicator.titleCompanyThreshold;
    assert |Row(ratio, SignatureOf, t, jobs, 0, 3)| == 2;
    assert |Row(ratio, SignatureOf, t, jobs, 1, 3)| == 1;
    assert |Row(ratio, SignatureOf, t, jobs, 2, 3)| == 0;
  }
}
