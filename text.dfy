/**
 * Python string primitives used throughout the job finder: `str.isspace`,
 * `str.lower` / `str.upper`, the `in` substring test, `str.strip`,
 * `str.split` (with and without a separator), `str.join` and `str.replace`.
 */
module Text {

  /** The characters for which Python's `str.isspace()` holds; `str.split()` and `\s` use the same set. */
  predicate IsSpace(c: char) {
    c == ' ' || ('\t' <= c <= '\r') || ('\U{1C}' <= c <= '\U{1F}') || c == '\U{85}' || c == '\U{A0}'
    || c == '\U{1680}' || ('\U{2000}' <= c <= '\U{200A}') || c == '\U{2028}' || c == '\U{2029}'
    || c == '\U{202F}' || c == '\U{205F}' || c == '\U{3000}'
  }

  /** Upper-case letters of ASCII and of the Latin-1 supplement (À to Þ, without ×). */
  predicate IsUpperLetter(c: char) {
    ('A' <= c <= 'Z') || ('\U{C0}' <= c <= '\U{DE}' && c != '\U{D7}')
  }

  /** Lower-case letters of ASCII and of the Latin-1 supplement that have a one-character upper case (à to þ, without ÷). */
  predicate IsLowerLetter(c: char) {
    ('a' <= c <= 'z') || ('\U{E0}' <= c <= '\U{FE}' && c != '\U{F7}')
  }

  function LowerChar(c: char): (r: char)
    ensures !IsUpperLetter(r)
    ensures !IsUpperLetter(c) ==> r == c
    ensures IsUpperLetter(c) ==> IsLowerLetter(r) && r as int == c as int + 32
    ensures IsSpace(r) <==> IsSpace(c)
  {
    if IsUpperLetter(c) then (c as int + 32) as char else c
  }

  function UpperChar(c: char): (r: char)
    ensures !IsLowerLetter(r)
    ensures !IsLowerLetter(c) ==> r == c
    ensures IsLowerLetter(c) ==> IsUpperLetter(r) && r as int + 32 == c as int
  {
    if IsLowerLetter(c) then (c as int - 32) as char else c
  }

  /** `s.lower()`. */
  function Lower(s: string): (r: string)
    ensures |r| == |s|
    ensures forall i :: 0 <= i < |s| ==> r[i] == LowerChar(s[i])
  {
    seq(|s|, i requires 0 <= i < |s| => LowerChar(s[i]))
  }

  /** Lower-casing compared character by character, for texts written out in full. */
  lemma LowerLiteral(s: string, t: string)
    requires |s| == |t| && forall i :: 0 <= i < |s| ==> LowerChar(s[i]) == t[i]
    ensures Lower(s) == t
  {
  }

  /** `s.upper()`. */
  function Upper(s: string): (r: string)
    ensures |r| == |s|
    ensures forall i :: 0 <= i < |s| ==> r[i] == UpperChar(s[i])
  {
    seq(|s|, i requires 0 <= i < |s| => UpperChar(s[i]))
  }

  /** `[x.lower() for x in ss]`. */
  function LowerAll(ss: seq<string>): (r: seq<string>)
    ensures |r| == |ss|
    ensures forall i :: 0 <= i < |ss| ==> r[i] == Lower(ss[i])
  {
    seq(|ss|, i requires 0 <= i < |ss| => Lower(ss[i]))
  }

  lemma LowerIdempotent(s: string)
    ensures Lower(Lower(s)) == Lower(s)
  {
  }

  lemma LowerConcat(a: string, b: string)
    ensures Lower(a + b) == Lower(a) + Lower(b)
  {
    assert forall i :: 0 <= i < |a + b| ==> Lower(a + b)[i] == (Lower(a) + Lower(b))[i];
  }

  /** Python's `p in s` for strings. */
  predicate Contains(s: string, p: string)
    decreases |s|
  {
    p <= s || (|s| > 0 && Contains(s[1..], p))
  }

  /** `p` occurs in `s` starting at position `i`. */
  predicate OccursAt(s: string, p: string, i: nat) {
    i + |p| <= |s| && s[i..i + |p|] == p
  }

  /** A slice of a suffix is the slice of the whole shifted by where the suffix starts. */
  lemma SliceOfSuffix<T>(s: seq<T>, j: nat, x: nat, y: nat)
    requires j <= |s| && x <= y <= |s| - j
    ensures s[j + x..j + y] == s[j..][x..y]
  {
  }

  lemma SuffixOfSuffix<T>(s: seq<T>, j: nat, x: nat)
    requires j + x <= |s|
    ensures s[j + x..] == s[j..][x..]
  {
  }

  /** An occurrence of `p` at position `i` of `s` makes `p in s` true. */
  lemma {:induction false} ContainsAt(s: string, p: string, i: nat)
    requires OccursAt(s, p, i)
    ensures Contains(s, p)
  {
    if i > 0 {
      assert s[1..][i - 1..i - 1 + |p|] == s[i..i + |p|];
      ContainsAt(s[1..], p, i - 1);
    } else {
      assert s[..|p|] == p;
    }
  }

  /** `p in s` is true only where `p` occurs at some position. */
  lemma {:induction false} ContainsWitness(s: string, p: string)
    requires Contains(s, p)
    ensures exists i: nat :: OccursAt(s, p, i)
  {
    if p <= s {
      assert OccursAt(s, p, 0);
    } else {
      ContainsWitness(s[1..], p);
      var i: nat :| OccursAt(s[1..], p, i);
      assert s[1..][i..i + |p|] == s[i + 1..i + 1 + |p|];
      assert OccursAt(s, p, i + 1);
    }
  }

  /** Every character of a needle found in `s` occurs in `s`; so a needle with a character missing from `s` is not in `s`. */
  lemma NeedleCharsOccur(s: string, p: string, k: nat)
    requires k < |p|
    ensures Contains(s, p) ==> p[k] in s
  {
    if Contains(s, p) {
      ContainsWitness(s, p);
      var i: nat :| OccursAt(s, p, i);
      assert s[i + k] == s[i..i + |p|][k];
    }
  }

  /** Text glued after or before another keeps every substring it had. */
  lemma ContainsConcat(a: string, b: string, p: string)
    requires Contains(a, p) || Contains(b, p)
    ensures Contains(a + b, p)
  {
    if Contains(a, p) {
      ContainsWitness(a, p);
      var i: nat :| OccursAt(a, p, i);
      assert (a + b)[i..i + |p|] == a[i..i + |p|];
      ContainsAt(a + b, p, i);
    } else {
      ContainsWitness(b, p);
      var i: nat :| OccursAt(b, p, i);
      assert (a + b)[|a| + i..|a| + i + |p|] == b[i..i + |p|];
      ContainsAt(a + b, p, |a| + i);
    }
  }

  /** A substring of the lower-cased left part is a substring of the lower-cased whole. */
  lemma LowerContainsLeft(a: string, b: string, p: string)
    requires Contains(Lower(a), p)
    ensures Contains(Lower(a + b), p)
  {
    LowerConcat(a, b);
    ContainsConcat(Lower(a), Lower(b), p);
  }

  /** A substring of the lower-cased right part is a substring of the lower-cased whole. */
  lemma LowerContainsRight(a: string, b: string, p: string)
    requires Contains(Lower(b), p)
    ensures Contains(Lower(a + b), p)
  {
    LowerConcat(a, b);
    ContainsConcat(Lower(a), Lower(b), p);
  }

  /** A substring of the lower-cased middle part is a substring of the lower-cased whole. */
  lemma LowerContainsInMiddle(a: string, b: string, c: string, p: string)
    requires Contains(Lower(b), p)
    ensures Contains(Lower(a + b + c), p)
  {
    LowerConcat(a, b);
    LowerConcat(a + b, c);
    ContainsConcat(Lower(a), Lower(b), p);
    ContainsConcat(Lower(a + b), Lower(c), p);
  }

  /** A substring of a substring is a substring, so a phrase found in `s` brings every part of it along. */
  lemma ContainsTrans(s: string, p: string, q: string)
    requires Contains(s, p) && Contains(p, q)
    ensures Contains(s, q)
  {
    ContainsWitness(s, p);
    var i: nat :| OccursAt(s, p, i);
    ContainsWitness(p, q);
    var j: nat :| OccursAt(p, q, j);
    forall k | 0 <= k < |q| ensures s[i + j..i + j + |q|][k] == q[k] {
      assert q[k] == p[j..j + |q|][k] == p[j + k];
      assert p[j + k] == s[i..i + |p|][j + k] == s[i + j + k];
    }
    assert s[i + j..i + j + |q|] == q;
    ContainsAt(s, q, i + j);
  }

  /** Every string contains itself. */
  lemma ContainsSelf(s: string)
    ensures Contains(s, s)
  {
    assert OccursAt(s, s, 0);
    ContainsAt(s, s, 0);
  }

  /** `any(p in s for p in ps)`. */
  predicate ContainsAny(s: string, ps: seq<string>) {
    exists p :: p in ps && Contains(s, p)
  }

  /** How many whitespace characters `s.lstrip()` removes. */
  function LeadingSpaces(s: string): (n: nat)
    ensures n <= |s|
    decreases |s|
  {
    if |s| > 0 && IsSpace(s[0]) then 1 + LeadingSpaces(s[1..]) else 0
  }

  /** How many whitespace characters `s.rstrip()` removes. */
  function TrailingSpaces(s: string): (n: nat)
    ensures n <= |s|
    decreases |s|
  {
    if |s| > 0 && IsSpace(s[|s| - 1]) then 1 + TrailingSpaces(s[..|s| - 1]) else 0
  }

  lemma {:induction false} LeadingSpacesSpec(s: string)
    ensures forall i :: 0 <= i < LeadingSpaces(s) ==> IsSpace(s[i])
    ensures LeadingSpaces(s) < |s| ==> !IsSpace(s[LeadingSpaces(s)])
    decreases |s|
  {
    if |s| > 0 && IsSpace(s[0]) {
      LeadingSpacesSpec(s[1..]);
    }
  }

  lemma {:induction false} TrailingSpacesSpec(s: string)
    ensures forall i :: |s| - TrailingSpaces(s) <= i < |s| ==> IsSpace(s[i])
    ensures TrailingSpaces(s) < |s| ==> !IsSpace(s[|s| - TrailingSpaces(s) - 1])
    decreases |s|
  {
    if |s| > 0 && IsSpace(s[|s| - 1]) {
      TrailingSpacesSpec(s[..|s| - 1]);
    }
  }

  /** `s.lstrip()`. */
  function TrimStart(s: string): string {
    s[LeadingSpaces(s)..]
  }

  /** `s.rstrip()`. */
  function TrimEnd(s: string): string {
    s[..|s| - TrailingSpaces(s)]
  }

  /** `s.strip()`. */
  function Strip(s: string): string {
    TrimEnd(TrimStart(s))
  }

  /**
   * `strip()` keeps one slice `s[a..b]` of its argument: everything before
   * `a` and from `b` on is whitespace, and the slice neither starts nor ends
   * with whitespace.
   */
  lemma StripSpec(s: string)
    ensures var r := Strip(s); var a := LeadingSpaces(s);
      a + |r| <= |s| && r == s[a..a + |r|]
      && (forall i :: 0 <= i < a ==> IsSpace(s[i]))
      && (forall i :: a + |r| <= i < |s| ==> IsSpace(s[i]))
      && (r == [] || (!IsSpace(r[0]) && !IsSpace(r[|r| - 1])))
  {
    LeadingSpacesSpec(s);
    StripSlice(s);
    StripTail(s);
    StripEnds(s);
  }

  lemma StripSlice(s: string)
    ensures LeadingSpaces(s) + |Strip(s)| <= |s| && Strip(s) == s[LeadingSpaces(s)..LeadingSpaces(s) + |Strip(s)|]
  {
    var t := TrimStart(s);
    var a := LeadingSpaces(s);
    var r := Strip(s);
    assert |t| == |s| - a && r == t[..|r|];
    SliceOfSuffix(s, a, 0, |r|);
  }

  lemma StripTail(s: string)
    ensures forall i :: LeadingSpaces(s) + |Strip(s)| <= i < |s| ==> IsSpace(s[i])
  {
    var t := TrimStart(s);
    var a := LeadingSpaces(s);
    TrailingSpacesSpec(t);
    forall i | a + |Strip(s)| <= i < |s| ensures IsSpace(s[i]) {
      assert s[i] == t[i - a];
    }
  }

  lemma StripEnds(s: string)
    ensures Strip(s) == [] || (!IsSpace(Strip(s)[0]) && !IsSpace(Strip(s)[|Strip(s)| - 1]))
  {
    var t := TrimStart(s);
    var a := LeadingSpaces(s);
    var r := Strip(s);
    LeadingSpacesSpec(s);
    TrailingSpacesSpec(t);
    if r != [] {
      assert r[0] == s[a] && r[|r| - 1] == t[|t| - TrailingSpaces(t) - 1];
    }
  }

  lemma StripIdempotent(s: string)
    ensures Strip(Strip(s)) == Strip(s)
  {
    StripSpec(s);
    StripUnchanged(Strip(s));
  }

  /** Text with no whitespace at either end is left alone by `strip()`. */
  lemma StripUnchanged(s: string)
    requires s == [] || (!IsSpace(s[0]) && !IsSpace(s[|s| - 1]))
    ensures Strip(s) == s
  {
  }

  /** `s.find(c)` as a position, `|s|` when `c` does not occur. */
  function FirstIndex(s: string, c: char): (r: nat)
    ensures r <= |s|
    ensures r < |s| ==> s[r] == c
    ensures forall j :: 0 <= j < r ==> s[j] != c
    ensures r == |s| <==> c !in s
    decreases |s|
  {
    if |s| == 0 then 0 else if s[0] == c then 0 else 1 + FirstIndex(s[1..], c)
  }

  /** `s.count(c)` for a single character. */
  function CountChar(s: string, c: char): (r: nat)
    ensures r <= |s|
    ensures r == 0 <==> c !in s
    decreases |s|
  {
    if |s| == 0 then 0 else (if s[0] == c then 1 else 0) + CountChar(s[1..], c)
  }

  /** Occurrences in a concatenation are the occurrences in each part. */
  lemma {:induction false} CountCharAppend(a: string, b: string, c: char)
    ensures CountChar(a + b, c) == CountChar(a, c) + CountChar(b, c)
    decreases |a|
  {
    if |a| == 0 {
      assert a + b == b;
    } else {
      assert (a + b)[1..] == a[1..] + b;
      CountCharAppend(a[1..], b, c);
    }
  }

  /** `s.split(sep)` for a non-empty separator: the leftmost non-overlapping occurrences cut the text. */
  function SplitOn(s: string, sep: string): (r: seq<string>)
    requires |sep| > 0
    ensures |r| >= 1
    decreases |s|
  {
    if sep <= s then [""] + SplitOn(s[|sep|..], sep)
    else if |s| == 0 then [""]
    else
      var rest := SplitOn(s[1..], sep);
      [[s[0]] + rest[0]] + rest[1..]
  }

  /** `sep.join(parts)`. */
  function Join(parts: seq<string>, sep: string): string
    decreases |parts|
  {
    if |parts| == 0 then ""
    else if |parts| == 1 then parts[0]
    else parts[0] + sep + Join(parts[1..], sep)
  }

  lemma JoinCons(a: string, b: string, t: seq<string>, sep: string)
    ensures Join([a + b] + t, sep) == a + Join([b] + t, sep)
  {
    assert ([a + b] + t)[1..] == t;
    assert ([b] + t)[1..] == t;
  }

  /** Joining the pieces of a split with the same separator gives the text back. */
  lemma {:induction false} SplitJoin(s: string, sep: string)
    requires |sep| > 0
    ensures Join(SplitOn(s, sep), sep) == s
    decreases |s|
  {
    if sep <= s {
      SplitJoin(s[|sep|..], sep);
      SplitJoinAtSep(s, sep);
    } else if |s| > 0 {
      SplitJoin(s[1..], sep);
      SplitJoinAtChar(s, sep);
    }
  }

  /** A text starting with the separator: an empty first piece, then the pieces of the rest. */
  lemma {:induction false} SplitJoinAtSep(s: string, sep: string)
    requires |sep| > 0 && sep <= s
    requires Join(SplitOn(s[|sep|..], sep), sep) == s[|sep|..]
    ensures Join(SplitOn(s, sep), sep) == s
  {
    var rest := SplitOn(s[|sep|..], sep);
    assert SplitOn(s, sep) == [""] + rest;
    JoinEmptyHead(rest, sep);
    PrefixThenRest(s, sep);
  }

  lemma JoinEmptyHead(rest: seq<string>, sep: string)
    requires |rest| >= 1
    ensures Join([""] + rest, sep) == sep + Join(rest, sep)
  {
    assert ([""] + rest)[1..] == rest;
  }

  lemma PrefixThenRest(s: string, p: string)
    requires p <= s
    ensures s == p + s[|p|..]
  {
  }

  /** A text not starting with the separator: its first character joins the first piece of the rest. */
  lemma {:induction false} SplitJoinAtChar(s: string, sep: string)
    requires |sep| > 0 && !(sep <= s) && |s| > 0
    requires Join(SplitOn(s[1..], sep), sep) == s[1..]
    ensures Join(SplitOn(s, sep), sep) == s
  {
    var rest := SplitOn(s[1..], sep);
    calc {
      Join(SplitOn(s, sep), sep);
      Join([[s[0]] + rest[0]] + rest[1..], sep);
      { JoinCons([s[0]], rest[0], rest[1..], sep); }
      [s[0]] + Join([rest[0]] + rest[1..], sep);
      { assert [rest[0]] + rest[1..] == rest; }
      [s[0]] + s[1..];
      s;
    }
  }

  /** Splitting on one character gives one more piece than the character occurs. */
  lemma {:induction false} SplitCount(s: string, c: char)
    ensures |SplitOn(s, [c])| == CountChar(s, c) + 1
    decreases |s|
  {
    if |s| > 0 {
      SplitCount(s[1..], c);
      if [c] <= s {
        assert s[|[c]|..] == s[1..];
      }
    }
  }

  /** `s.replace(pat, rep)` for a non-empty `pat`. */
  function ReplaceAll(s: string, pat: string, rep: string): string
    requires |pat| > 0
    decreases |s|
  {
    if pat <= s then rep + ReplaceAll(s[|pat|..], pat, rep)
    else if |s| == 0 then ""
    else [s[0]] + ReplaceAll(s[1..], pat, rep)
  }

  /** Replacing a substring that does not occur leaves the text unchanged. */
  lemma {:induction false} ReplaceAbsent(s: string, pat: string, rep: string)
    requires |pat| > 0 && !Contains(s, pat)
    ensures ReplaceAll(s, pat, rep) == s
    decreases |s|
  {
    if |s| > 0 {
      ReplaceAbsent(s[1..], pat, rep);
    }
  }

  /** After removing every occurrence of `pat`, replacing it again changes nothing when `pat` is one character. */
  lemma {:induction false} RemoveCharGone(s: string, c: char)
    ensures c !in ReplaceAll(s, [c], "")
    decreases |s|
  {
    if |s| > 0 {
      RemoveCharGone(s[1..], c);
      if [c] <= s {
        assert s[|[c]|..] == s[1..];
      }
    }
  }

  /** No whitespace character anywhere in `w`. */
  predicate NoSpace(w: string) {
    forall i :: 0 <= i < |w| ==> !IsSpace(w[i])
  }

  /** A token of `str.split()`: non-empty and free of whitespace. */
  predicate IsWord(w: string) {
    |w| > 0 && NoSpace(w)
  }

  /** Length of the longest whitespace-free prefix of `s`. */
  function WordLen(s: string): (n: nat)
    ensures n <= |s| && NoSpace(s[..n])
    ensures n < |s| ==> IsSpace(s[n])
    decreases |s|
  {
    if |s| == 0 || IsSpace(s[0]) then 0
    else
      var m := WordLen(s[1..]);
      assert s[..1 + m] == [s[0]] + s[1..][..m];
      1 + m
  }

  /** `s.split()`: the maximal whitespace-free runs of `s`, in order. */
  function Words(s: string): (r: seq<string>)
    ensures forall k :: 0 <= k < |r| ==> IsWord(r[k])
    decreases |s|
  {
    if |s| == 0 then []
    else if IsSpace(s[0]) then Words(s[1..])
    else
      var n := WordLen(s);
      [s[..n]] + Words(s[n..])
  }

  /** `{t.lower() for t in items}`. */
  function LowerSet(items: seq<string>): (r: set<string>)
    ensures forall t :: t in items ==> Lower(t) in r
    ensures forall u :: u in r ==> exists t :: t in items && Lower(t) == u
  {
    set t | t in items :: Lower(t)
  }

  lemma LowerSetSnoc(items: seq<string>, t: string)
    ensures LowerSet(items + [t]) == LowerSet(items) + {Lower(t)}
  {
    assert forall u :: u in items + [t] <==> u in items || u == t;
  }

  /** `[p.strip() for p in s.split(sep)]`. */
  function StrippedPieces(s: string, sep: string): (r: seq<string>)
    requires |sep| > 0
    ensures |r| == |SplitOn(s, sep)| && |r| >= 1
    ensures forall i :: 0 <= i < |r| ==> r[i] == Strip(SplitOn(s, sep)[i])
  {
    var pieces := SplitOn(s, sep);
    seq(|pieces|, i requires 0 <= i < |pieces| => Strip(pieces[i]))
  }

  /** `s.startswith(p)`. */
  predicate StartsWith(s: string, p: string) {
    p <= s
  }

  /** `s.endswith(p)`. */
  predicate EndsWith(s: string, p: string) {
    |p| <= |s| && s[|s| - |p|..] == p
  }

  /** Splitting at a character that `a` does not hold makes `a` the first piece. */
  lemma {:induction false} SplitOnCharHead(a: string, c: char, b: string)
    requires c !in a
    ensures SplitOn(a + [c] + b, [c]) == [a] + SplitOn(b, [c])
    decreases |a|
  {
    var s := a + [c] + b;
    if |a| == 0 {
      assert s == [c] + b;
      assert s[|[c]|..] == b;
    } else {
      assert s[0] == a[0];
      assert s[1..] == a[1..] + [c] + b;
      SplitOnCharHead(a[1..], c, b);
      assert [a[0]] + a[1..] == a;
    }
  }

  /** Text without the separator character is a single piece. */
  lemma {:induction false} SplitOnCharAbsent(a: string, c: char)
    requires c !in a
    ensures SplitOn(a, [c]) == [a]
    decreases |a|
  {
    if |a| > 0 {
      assert a[0] != c;
      SplitOnCharAbsent(a[1..], c);
      assert [a[0]] + a[1..] == a;
    }
  }

  /** Splitting at " - ": text without '-' before the first separator is the first piece. */
  lemma {:induction false} SplitOnDashHead(a: string, b: string)
    requires '-' !in a
    ensures SplitOn(a + " - " + b, " - ") == [a] + SplitOn(b, " - ")
    decreases |a|
  {
    var s := a + " - " + b;
    if |a| == 0 {
      assert s == " - " + b;
      assert s[|" - "|..] == b;
    } else {
      assert !(" - " <= s) by {
        if |a| == 1 {
          assert s[1] == ' ';
        } else {
          assert s[1] == a[1];
        }
      }
      assert s[1..] == a[1..] + " - " + b;
      SplitOnDashHead(a[1..], b);
      assert [a[0]] + a[1..] == a;
    }
  }

  /** Text without '-' is a single piece of a split at " - ". */
  lemma {:induction false} SplitOnDashAbsent(a: string)
    requires '-' !in a
    ensures SplitOn(a, " - ") == [a]
    decreases |a|
  {
    if |a| > 0 {
      assert !(" - " <= a) by {
        if |a| > 1 {
          assert a[1] != '-';
        }
      }
      SplitOnDashAbsent(a[1..]);
      assert [a[0]] + a[1..] == a;
    }
  }

  /** `s.replace(c, d)` for single characters: the same length, every `c` turned into `d`. */
  lemma {:induction false} ReplaceCharSpec(s: string, c: char, d: char)
    ensures |ReplaceAll(s, [c], [d])| == |s|
    ensures forall i :: 0 <= i < |s| ==> ReplaceAll(s, [c], [d])[i] == if s[i] == c then d else s[i]
    decreases |s|
  {
    if |s| > 0 {
      ReplaceCharSpec(s[1..], c, d);
      if [c] <= s {
        assert s[|[c]|..] == s[1..];
      }
    }
  }

  /** A pattern starting with " -" cannot begin inside text without '-', so the first replacement is right after it. */
  lemma {:induction false} ReplaceDashHead(a: string, pat: string, b: string, rep: string)
    requires |pat| >= 2 && pat[0] == ' ' && pat[1] == '-' && '-' !in a
    ensures ReplaceAll(a + pat + b, pat, rep) == a + rep + ReplaceAll(b, pat, rep)
    decreases |a|
  {
    if |a| == 0 {
      ReplaceAtFront(pat, b, rep);
      assert a + pat + b == pat + b;
    } else {
      ReplaceDashHead(a[1..], pat, b, rep);
      ReplaceDashStep(a, pat, b, rep);
    }
  }

  /** A pattern at the front is replaced first. */
  lemma ReplaceAtFront(pat: string, b: string, rep: string)
    requires |pat| > 0
    ensures ReplaceAll(pat + b, pat, rep) == rep + ReplaceAll(b, pat, rep)
  {
    assert (pat + b)[|pat|..] == b;
  }

  /** Text that does not start with the pattern keeps its first character. */
  lemma ReplaceKeepsFirst(s: string, pat: string, rep: string)
    requires |pat| > 0 && |s| > 0 && !(pat <= s)
    ensures ReplaceAll(s, pat, rep) == [s[0]] + ReplaceAll(s[1..], pat, rep)
  {
  }

  /** Text that starts with a character other than '-' cannot hold " -..." at its front. */
  lemma DashPatNotAtFront(a: string, pat: string, b: string)
    requires |pat| >= 2 && pat[0] == ' ' && pat[1] == '-' && '-' !in a && |a| > 0
    ensures !(pat <= a + pat + b)
  {
    var s := a + pat + b;
    assert s[1] != '-' by {
      if |a| == 1 {
        assert s[1] == pat[0];
      } else {
        assert s[1] == a[1];
      }
    }
    assert pat[1] == '-';
  }

  /** A non-empty text is its first character followed by the rest, whatever comes after. */
  lemma ConsTail(a: string, x: string, y: string)
    requires |a| > 0
    ensures [a[0]] + (a[1..] + x + y) == a + x + y
  {
    assert a == [a[0]] + a[1..];
  }

  /** Before a " -..." pattern, text without '-' is copied one character at a time. */
  lemma ReplaceDashFirst(a: string, pat: string, b: string, rep: string)
    requires |pat| >= 2 && pat[0] == ' ' && pat[1] == '-' && '-' !in a && |a| > 0
    ensures ReplaceAll(a + pat + b, pat, rep) == [a[0]] + ReplaceAll(a[1..] + pat + b, pat, rep)
  {
    var s := a + pat + b;
    DashPatNotAtFront(a, pat, b);
    ReplaceKeepsFirst(s, pat, rep);
    assert s[0] == a[0] && s[1..] == a[1..] + pat + b;
  }

  /** One character of `ReplaceDashHead`: the first character of `a` cannot start the pattern. */
  lemma ReplaceDashStep(a: string, pat: string, b: string, rep: string)
    requires |pat| >= 2 && pat[0] == ' ' && pat[1] == '-' && '-' !in a && |a| > 0
    requires ReplaceAll(a[1..] + pat + b, pat, rep) == a[1..] + rep + ReplaceAll(b, pat, rep)
    ensures ReplaceAll(a + pat + b, pat, rep) == a + rep + ReplaceAll(b, pat, rep)
  {
    ReplaceDashFirst(a, pat, b, rep);
    ConsTail(a, rep, ReplaceAll(b, pat, rep));
  }

  /** Text without '-' holds no pattern whose second character is '-'. */
  lemma ReplaceDashAbsent(a: string, pat: string, rep: string)
    requires |pat| >= 2 && pat[1] == '-' && '-' !in a
    ensures ReplaceAll(a, pat, rep) == a
  {
    NeedleCharsOccur(a, pat, 1);
    ReplaceAbsent(a, pat, rep);
  }
}
