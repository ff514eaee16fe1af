/**
 * `BaseExtractor.preprocess_text`: `' '.join(text.split())`, the text's
 * whitespace-separated tokens joined by single spaces.
 */
module Extractors {
  import opened Text

  /** `preprocess_text`. */
  function PreprocessText(text: string): string {
    Join(Words(text), " ")
  }

  /** Every whitespace character is a single space with a non-space character on each side. */
  predicate SingleSpaced(s: string) {
    forall i :: 0 <= i < |s| && IsSpace(s[i]) ==>
      s[i] == ' ' && 0 < i < |s| - 1 && !IsSpace(s[i - 1]) && !IsSpace(s[i + 1])
  }

  /** The characters of `s` that are not whitespace, in order. */
  function NonSpace(s: string): string
    decreases |s|
  {
    if |s| == 0 then ""
    else (if IsSpace(s[0]) then "" else [s[0]]) + NonSpace(s[1..])
  }

  /** The words glued together. */
  function Concat(ws: seq<string>): string
    decreases |ws|
  {
    if |ws| == 0 then "" else ws[0] + Concat(ws[1..])
  }

  lemma {:induction false} NonSpaceAppend(a: string, b: string)
    ensures NonSpace(a + b) == NonSpace(a) + NonSpace(b)
    decreases |a|
  {
    if |a| == 0 {
      assert a + b == b;
    } else {
      assert (a + b)[1..] == a[1..] + b;
      NonSpaceAppend(a[1..], b);
    }
  }

  lemma {:induction false} NonSpaceOfWord(w: string)
    requires NoSpace(w)
    ensures NonSpace(w) == w
    decreases |w|
  {
    if |w| > 0 {
      NonSpaceOfWord(w[1..]);
    }
  }

  /** A whitespace-free prefix followed by whitespace or the end is exactly the first word's length. */
  lemma {:induction false} WordLenOf(w: string, rest: string)
    requires NoSpace(w)
    requires |rest| == 0 || IsSpace(rest[0])
    ensures WordLen(w + rest) == |w|
    decreases |w|
  {
    if |w| > 0 {
      assert (w + rest)[1..] == w[1..] + rest;
      WordLenOf(w[1..], rest);
    } else {
      assert w + rest == rest;
    }
  }

  /** Joining words with single spaces and splitting again gives the words back. */
  lemma {:induction false} WordsOfJoin(ws: seq<string>)
    requires forall k :: 0 <= k < |ws| ==> IsWord(ws[k])
    ensures Words(Join(ws, " ")) == ws
    decreases |ws|
  {
    if |ws| == 1 {
      var w := ws[0];
      WordLenOf(w, "");
      assert w + "" == w;
      assert w[|w|..] == "";
    } else if |ws| > 1 {
      var w, j := ws[0], Join(ws[1..], " ");
      var s := w + " " + j;
      assert s == w + (" " + j);
      WordLenOf(w, " " + j);
      assert s[..|w|] == w;
      assert s[|w|..] == " " + j;
      assert (" " + j)[1..] == j;
      WordsOfJoin(ws[1..]);
      assert ws == [w] + ws[1..];
    }
  }

  /** Joining non-empty words with single spaces gives a single-spaced text, non-empty when there is a word. */
  lemma {:induction false} JoinSingleSpaced(ws: seq<string>)
    requires forall k :: 0 <= k < |ws| ==> IsWord(ws[k])
    ensures SingleSpaced(Join(ws, " "))
    ensures |ws| > 0 ==> |Join(ws, " ")| > 0
    decreases |ws|
  {
    if |ws| > 1 {
      var w, j := ws[0], Join(ws[1..], " ");
      JoinSingleSpaced(ws[1..]);
      var s := w + " " + j;
      assert !IsSpace(j[0]);
      forall i | 0 <= i < |s| && IsSpace(s[i])
        ensures s[i] == ' ' && 0 < i < |s| - 1 && !IsSpace(s[i - 1]) && !IsSpace(s[i + 1])
      {
        if i < |w| {
          assert false;
        } else if i == |w| {
          assert s[i + 1] == j[0] && s[i - 1] == w[|w| - 1];
        } else {
          assert s[i] == j[i - |w| - 1];
          if i - 1 == |w| {
          } else {
            assert s[i - 1] == j[i - |w| - 2];
          }
          assert s[i + 1] == j[i - |w|];
        }
      }
    }
  }

  /** Splitting and gluing drops exactly the whitespace. */
  lemma {:induction false} ConcatWords(s: string)
    ensures Concat(Words(s)) == NonSpace(s)
    decreases |s|
  {
    if |s| > 0 && !IsSpace(s[0]) {
      var n := WordLen(s);
      ConcatWords(s[n..]);
      NonSpaceOfWord(s[..n]);
      NonSpaceAppend(s[..n], s[n..]);
      assert s == s[..n] + s[n..];
      assert ([s[..n]] + Words(s[n..]))[1..] == Words(s[n..]);
    } else if |s| > 0 {
      ConcatWords(s[1..]);
    }
  }

  lemma {:induction false} NonSpaceJoin(ws: seq<string>)
    requires forall k :: 0 <= k < |ws| ==> IsWord(ws[k])
    ensures NonSpace(Join(ws, " ")) == Concat(ws)
    decreases |ws|
  {
    if |ws| == 1 {
      NonSpaceOfWord(ws[0]);
      assert ws[1..] == [];
    } else if |ws| > 1 {
      var w, j := ws[0], Join(ws[1..], " ");
      NonSpaceJoin(ws[1..]);
      NonSpaceAppend(w, " " + j);
      NonSpaceOfWord(w);
      assert (" " + j)[1..] == j;
      assert w + " " + j == w + (" " + j);
    }
  }

  lemma {:induction false} WordsEmpty(s: string)
    ensures Words(s) == [] <==> forall i :: 0 <= i < |s| ==> IsSpace(s[i])
    decreases |s|
  {
    if |s| > 0 && IsSpace(s[0]) {
      WordsEmpty(s[1..]);
      forall i | 0 < i < |s|
        ensures s[i] == s[1..][i - 1]
      {
      }
    }
  }

  /**
   * The result has no double spaces, tabs, newlines or leading or trailing
   * whitespace; it keeps the non-whitespace characters in order; it is
   * empty exactly when the input is all whitespace.
   */
  lemma PreprocessTextShape(text: string)
    ensures SingleSpaced(PreprocessText(text))
    ensures NonSpace(PreprocessText(text)) == NonSpace(text)
    ensures PreprocessText(text) == "" <==> forall i :: 0 <= i < |text| ==> IsSpace(text[i])
  {
    JoinSingleSpaced(Words(text));
    NonSpaceJoin(Words(text));
    ConcatWords(text);
    WordsEmpty(text);
  }

  /** Preprocessing twice is preprocessing once, and the tokens are unchanged. */
  lemma PreprocessTextIdempotent(text: string)
    ensures Words(PreprocessText(text)) == Words(text)
    ensures PreprocessText(PreprocessText(text)) == PreprocessText(text)
  {
    WordsOfJoin(Words(text));
  }
}
