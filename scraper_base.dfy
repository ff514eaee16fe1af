/**
 * `BaseScraper.normalize_remote_type`: the shared mapping of a free-text
 * remote description onto one of four labels.
 */
module ScraperBase {
  import opened Text

  const FullRemoteWords: seq<string> := ["full remote", "fully remote", "100% remote"]
  const HybridWords: seq<string> := ["hybrid", "partial"]

  const FullRemote := "Full Remote"
  const Hybrid := "Hybrid"
  const Remote := "Remote"
  const OnSite := "On-site"

  /**
   * On the lower-cased text, a full-remote phrase wins, then a hybrid word,
   * then "remote"; anything else is On-site.
   */
  function NormalizeRemoteType(text: string): (r: string)
    ensures r in {FullRemote, Hybrid, Remote, OnSite}
    ensures var t := Lower(text);
      (r == FullRemote <==> ContainsAny(t, FullRemoteWords))
      && (r == Hybrid <==> !ContainsAny(t, FullRemoteWords) && ContainsAny(t, HybridWords))
      && (r == Remote <==> !ContainsAny(t, FullRemoteWords) && !ContainsAny(t, HybridWords) && Contains(t, "remote"))
  {
    var t := Lower(text);
    if exists w :: w in FullRemoteWords && Contains(t, w) then FullRemote
    else if exists w :: w in HybridWords && Contains(t, w) then Hybrid
    else if Contains(t, "remote") then Remote
    else OnSite
  }

  /** Each full-remote phrase ends in "remote". */
  lemma FullRemoteWordHasRemote(w: string)
    requires w in FullRemoteWords
    ensures Contains(w, "remote")
  {
    assert OccursAt(w, "remote", |w| - 6);
    ContainsAt(w, "remote", |w| - 6);
  }

  /** Full Remote and Remote are only given to texts that say "remote" in some letter case. */
  lemma RemoteLabelsNeedRemote(text: string)
    ensures NormalizeRemoteType(text) in {FullRemote, Remote} ==> Contains(Lower(text), "remote")
  {
    var t := Lower(text);
    if ContainsAny(t, FullRemoteWords) {
      var w :| w in FullRemoteWords && Contains(t, w);
      FullRemoteWordHasRemote(w);
      ContainsTrans(t, w, "remote");
    }
  }

  /** A label normalises to itself, so normalising twice is normalising once. */
  lemma NormalizeRemoteTypeIdempotent(text: string)
    ensures NormalizeRemoteType(NormalizeRemoteType(text)) == NormalizeRemoteType(text)
  {
    FullRemoteFixed();
    HybridFixed();
    RemoteFixed();
    OnSiteFixed();
  }

  lemma FullRemoteFixed()
    ensures NormalizeRemoteType(FullRemote) == FullRemote
  {
    LowerLiteral(FullRemote, "full remote");
    ContainsSelf("full remote");
  }

  lemma HybridFixed()
    ensures NormalizeRemoteType(Hybrid) == Hybrid
  {
    LowerLiteral(Hybrid, "hybrid");
    ContainsSelf("hybrid");
    NotFullRemote("hybrid");
  }

  lemma RemoteFixed()
    ensures NormalizeRemoteType(Remote) == Remote
  {
    LowerLiteral(Remote, "remote");
    ContainsSelf("remote");
    NotFullRemote("remote");
    NotHybrid("remote");
  }

  lemma OnSiteFixed()
    ensures NormalizeRemoteType(OnSite) == OnSite
  {
    LowerLiteral(OnSite, "on-site");
    OnSiteIsNeither("on-site");
  }

  lemma OnSiteIsNeither(t: string)
    requires t == "on-site"
    ensures !ContainsAny(t, FullRemoteWords) && !ContainsAny(t, HybridWords) && !Contains(t, "remote")
  {
    NotFullRemote(t);
    NotHybrid(t);
    NeedleCharsOccur(t, "remote", 0);
  }

  /** A text lacking '1', and lacking 'f' or 'u', holds no full-remote phrase. */
  lemma NotFullRemote(t: string)
    requires ('f' !in t || 'u' !in t) && '1' !in t
    ensures !ContainsAny(t, FullRemoteWords)
  {
    var k := if 'f' !in t then 0 else 1;
    NeedleCharsOccur(t, "full remote", k);
    NeedleCharsOccur(t, "fully remote", k);
    NeedleCharsOccur(t, "100% remote", 0);
  }

  /** A text lacking 'h' and 'p' holds no hybrid word. */
  lemma NotHybrid(t: string)
    requires 'h' !in t && 'p' !in t
    ensures !ContainsAny(t, HybridWords)
  {
    NeedleCharsOccur(t, "hybrid", 0);
    NeedleCharsOccur(t, "partial", 0);
  }

  /** "Partial Remote" is Hybrid although it says remote; "100% remote" is Full Remote; "Office" is On-site. */
  lemma NormalizeRemoteTypeExamples()
    ensures NormalizeRemoteType("Partial Remote") == Hybrid
    ensures NormalizeRemoteType("100% remote") == FullRemote
    ensures NormalizeRemoteType("Fully Remote") == FullRemote
    ensures NormalizeRemoteType("Office") == OnSite
  {
    PartialRemoteIsHybrid();
    HundredPercentIsFullRemote();
    FullyRemoteIsFullRemote();
    OfficeIsOnSite();
  }

  /** A text whose lower-cased form is itself a full-remote phrase. */
  lemma SelfPhraseIsFullRemote(text: string, t: string)
    requires Lower(text) == t && t in FullRemoteWords
    ensures NormalizeRemoteType(text) == FullRemote
  {
    ContainsSelf(t);
  }

  lemma HundredPercentIsFullRemote()
    ensures NormalizeRemoteType("100% remote") == FullRemote
  {
    LowerHundredPercent();
    SelfPhraseIsFullRemote("100% remote", "100% remote");
  }

  lemma FullyRemoteIsFullRemote()
    ensures NormalizeRemoteType("Fully Remote") == FullRemote
  {
    LowerFullyRemote();
    SelfPhraseIsFullRemote("Fully Remote", "fully remote");
  }

  // Lower-cased forms of the example texts.
  lemma LowerHundredPercent() ensures Lower("100% remote") == "100% remote" { }
  lemma LowerFullyRemote() ensures Lower("Fully Remote") == "fully remote" { }
  lemma LowerPartialRemote() ensures Lower("Partial Remote") == "partial remote" { }
  lemma LowerOffice() ensures Lower("Office") == "office" { }

  lemma PartialRemoteIsHybrid()
    ensures NormalizeRemoteType("Partial Remote") == Hybrid
  {
    LowerPartialRemote();
    PartialRemoteFacts("partial remote");
  }

  lemma PartialRemoteFacts(t: string)
    requires t == "partial remote"
    ensures ContainsAny(t, HybridWords) && !ContainsAny(t, FullRemoteWords)
  {
    assert OccursAt(t, "partial", 0);
    ContainsAt(t, "partial", 0);
    assert "partial" in HybridWords;
    NotFullRemote(t);
  }

  lemma OfficeIsOnSite()
    ensures NormalizeRemoteType("Office") == OnSite
  {
    LowerOffice();
    OfficeIsNeither("office");
  }

  lemma OfficeIsNeither(t: string)
    requires t == "office"
    ensures !ContainsAny(t, FullRemoteWords) && !ContainsAny(t, HybridWords) && !Contains(t, "remote")
  {
    NotFullRemote(t);
    NotHybrid(t);
    NeedleCharsOccur(t, "remote", 0);
  }
}
