/** Sequence helpers shared by the processors: list comprehensions with a
    condition, and the "is an order-preserving sub-list of" relation that
    every filtering stage of the pipeline keeps. */
module Lists {

  /** `[x for x in s if keep(x)]`, defined on the last element so that it
      matches loops that append. */
  function Filter<T(!new)>(s: seq<T>, keep: T -> bool): (r: seq<T>)
    ensures |r| <= |s|
    ensures forall x {:trigger x in r} :: x in r <==> x in s && keep(x)
    decreases |s|
  {
    if |s| == 0 then []
    else Filter(s[..|s| - 1], keep) + (if keep(s[|s| - 1]) then [s[|s| - 1]] else [])
  }

  /** A non-empty list is its front followed by its last element. */
  lemma SplitLast<T>(s: seq<T>)
    requires |s| > 0
    ensures s == s[..|s| - 1] + [s[|s| - 1]]
  {
  }

  lemma FilterSnoc<T(!new)>(s: seq<T>, x: T, keep: T -> bool)
    ensures Filter(s + [x], keep) == Filter(s, keep) + (if keep(x) then [x] else [])
  {
    assert (s + [x])[..|s|] == s;
  }

  /** Filtering keeps everything when every element passes. */
  lemma {:induction false} FilterAll<T(!new)>(s: seq<T>, keep: T -> bool)
    requires forall x :: x in s ==> keep(x)
    ensures Filter(s, keep) == s
    decreases |s|
  {
    if |s| > 0 {
      var init := s[..|s| - 1];
      forall x | x in init ensures keep(x) { assert x in s; }
      FilterAll(init, keep);
      assert s[|s| - 1] in s;
      FilterAllStep(s, keep);
    }
  }

  /** The last unfolding of `FilterAll`: a kept last element after a fully kept front. */
  lemma FilterAllStep<T(!new)>(s: seq<T>, keep: T -> bool)
    requires |s| > 0 && keep(s[|s| - 1])
    requires Filter(s[..|s| - 1], keep) == s[..|s| - 1]
    ensures Filter(s, keep) == s
  {
    SplitLast(s);
  }

  /** Filtering out every element leaves nothing. */
  lemma {:induction false} FilterNone<T(!new)>(s: seq<T>, keep: T -> bool)
    requires forall x :: x in s ==> !keep(x)
    ensures Filter(s, keep) == []
    decreases |s|
  {
    if |s| > 0 {
      assert s[|s| - 1] in s;
      FilterNone(s[..|s| - 1], keep);
    }
  }

  /** One step of a loop that appends the elements it keeps. */
  lemma FilterStep<T(!new)>(s: seq<T>, i: nat, keep: T -> bool)
    requires i < |s|
    ensures Filter(s[..i + 1], keep) == Filter(s[..i], keep) + (if keep(s[i]) then [s[i]] else [])
  {
    assert s[..i + 1] == s[..i] + [s[i]];
    FilterSnoc(s[..i], s[i], keep);
  }

  /** Keeping the elements that satisfy a condition and keeping those that do not split the list. */
  lemma {:induction false} FilterPartition<T(!new)>(s: seq<T>, keep: T -> bool, drop: T -> bool)
    requires forall x :: drop(x) == !keep(x)
    ensures |Filter(s, keep)| + |Filter(s, drop)| == |s|
    decreases |s|
  {
    if |s| > 0 {
      FilterPartition(s[..|s| - 1], keep, drop);
    }
  }

  /** `s` filtered by `keep` when `active`, otherwise `s` unchanged: one optional stage of a pipeline. */
  function FilterIf<T(!new)>(s: seq<T>, active: bool, keep: T -> bool): (r: seq<T>)
    ensures |r| <= |s|
  {
    if active then Filter(s, keep) else s
  }

  lemma FilterIfMembers<T(!new)>(s: seq<T>, active: bool, keep: T -> bool)
    ensures forall x :: x in FilterIf(s, active, keep) <==> x in s && (active ==> keep(x))
  {
  }

  lemma FilterIfMember<T(!new)>(s: seq<T>, active: bool, keep: T -> bool, x: T)
    ensures x in FilterIf(s, active, keep) <==> x in s && (active ==> keep(x))
  {
    FilterIfMembers(s, active, keep);
  }

  lemma FilterIfSubseq<T(!new)>(s: seq<T>, active: bool, keep: T -> bool)
    ensures IsSubseq(FilterIf(s, active, keep), s)
  {
    if active { FilterSubseq(s, keep); } else { SubseqRefl(s); }
  }

  /** A stage whose condition every element meets changes nothing. */
  lemma FilterIfAll<T(!new)>(s: seq<T>, active: bool, keep: T -> bool)
    requires active ==> forall x :: x in s ==> keep(x)
    ensures FilterIf(s, active, keep) == s
  {
    if active { FilterAll(s, keep); }
  }

  /** Filtering twice with the same condition changes nothing the second time. */
  lemma FilterIdempotent<T(!new)>(s: seq<T>, keep: T -> bool)
    ensures Filter(Filter(s, keep), keep) == Filter(s, keep)
  {
    FilterAll(Filter(s, keep), keep);
  }

  /** `a` is `b` with some elements removed and the rest in their order. */
  predicate IsSubseq<T(==)>(a: seq<T>, b: seq<T>)
    decreases |b|
  {
    if |a| == 0 then true
    else if |b| == 0 then false
    else (a[|a| - 1] == b[|b| - 1] && IsSubseq(a[..|a| - 1], b[..|b| - 1]))
         || IsSubseq(a, b[..|b| - 1])
  }

  lemma SubseqSnocRight<T>(a: seq<T>, b: seq<T>, x: T)
    requires IsSubseq(a, b)
    ensures IsSubseq(a, b + [x])
  {
    assert (b + [x])[..|b|] == b;
  }

  lemma SubseqSnocBoth<T>(a: seq<T>, b: seq<T>, x: T)
    requires IsSubseq(a, b)
    ensures IsSubseq(a + [x], b + [x])
  {
    assert (b + [x])[..|b|] == b;
    assert (a + [x])[..|a|] == a;
  }

  lemma {:induction false} SubseqRefl<T>(a: seq<T>)
    ensures IsSubseq(a, a)
    decreases |a|
  {
    if |a| > 0 {
      SubseqRefl(a[..|a| - 1]);
    }
  }

  lemma {:induction false} SubseqLength<T>(a: seq<T>, b: seq<T>)
    requires IsSubseq(a, b)
    ensures |a| <= |b|
    decreases |b|
  {
    if |a| > 0 {
      if a[|a| - 1] == b[|b| - 1] && IsSubseq(a[..|a| - 1], b[..|b| - 1]) {
        SubseqLength(a[..|a| - 1], b[..|b| - 1]);
      } else {
        SubseqLength(a, b[..|b| - 1]);
      }
    }
  }

  /** Nothing appears in a sub-list that was not in the list. */
  lemma {:induction false} SubseqMember<T>(a: seq<T>, b: seq<T>, x: T)
    requires IsSubseq(a, b) && x in a
    ensures x in b
    decreases |b|
  {
    var pa, pb := a[..|a| - 1], b[..|b| - 1];
    assert a == pa + [a[|a| - 1]];
    assert b == pb + [b[|b| - 1]];
    if a[|a| - 1] == b[|b| - 1] && IsSubseq(pa, pb) {
      if x != a[|a| - 1] {
        SubseqMember(pa, pb, x);
      }
    } else {
      SubseqMember(a, pb, x);
    }
  }

  lemma {:induction false} SubseqTrans<T>(a: seq<T>, b: seq<T>, c: seq<T>)
    requires IsSubseq(a, b) && IsSubseq(b, c)
    ensures IsSubseq(a, c)
    decreases |c|
  {
    if |a| == 0 {
    } else {
      assert |b| > 0;
      var pb, pc := b[..|b| - 1], c[..|c| - 1];
      if b[|b| - 1] == c[|c| - 1] && IsSubseq(pb, pc) {
        var pa := a[..|a| - 1];
        if a[|a| - 1] == b[|b| - 1] && IsSubseq(pa, pb) {
          SubseqTrans(pa, pb, pc);
        } else {
          SubseqTrans(a, pb, pc);
        }
      } else {
        SubseqTrans(a, b, pc);
      }
    }
  }

  /** Every filtered list is a sub-list of its input. */
  lemma SubseqSnocMaybe<T>(a: seq<T>, b: seq<T>, x: T, kept: bool)
    requires IsSubseq(a, b)
    ensures IsSubseq(a + (if kept then [x] else []), b + [x])
  {
    if kept {
      SubseqSnocBoth(a, b, x);
    } else {
      assert a + [] == a;
      SubseqSnocRight(a, b, x);
    }
  }

  lemma FilterSubseqLast<T(!new)>(s: seq<T>, keep: T -> bool)
    requires |s| > 0 && IsSubseq(Filter(s[..|s| - 1], keep), s[..|s| - 1])
    ensures IsSubseq(Filter(s, keep), s)
  {
    var p, x := s[..|s| - 1], s[|s| - 1];
    SplitLast(s);
    FilterSnoc(p, x, keep);
    SubseqSnocMaybe(Filter(p, keep), p, x, keep(x));
  }

  lemma {:induction false} FilterSubseq<T(!new)>(s: seq<T>, keep: T -> bool)
    ensures IsSubseq(Filter(s, keep), s)
    decreases |s|
  {
    if |s| > 0 {
      FilterSubseq(s[..|s| - 1], keep);
      FilterSubseqLast(s, keep);
    }
  }

  /** Python's `s[:n]`, where a negative `n` counts from the end. */
  function Take<T>(s: seq<T>, n: int): (r: seq<T>)
    ensures n >= 0 ==> |r| == if n < |s| then n else |s|
    ensures n < 0 ==> |r| == if -n < |s| then |s| + n else 0
    ensures forall i :: 0 <= i < |r| ==> r[i] == s[i]
  {
    if n >= 0 then (if n < |s| then s[..n] else s)
    else if -n < |s| then s[..|s| + n]
    else []
  }

  lemma TakePrefixSubseq<T>(s: seq<T>, n: int)
    ensures IsSubseq(Take(s, n), s)
  {
    var r := Take(s, n);
    PrefixSubseq(s, |r|);
    assert s[..|r|] == r;
  }

  lemma {:induction false} PrefixSubseq<T>(s: seq<T>, k: nat)
    requires k <= |s|
    ensures IsSubseq(s[..k], s)
    decreases |s|
  {
    if k == |s| {
      assert s[..k] == s;
      SubseqRefl(s);
    } else {
      var p := s[..|s| - 1];
      PrefixSubseq(p, k);
      assert p[..k] == s[..k];
      assert s == p + [s[|s| - 1]];
      SubseqSnocRight(s[..k], p, s[|s| - 1]);
    }
  }
}
