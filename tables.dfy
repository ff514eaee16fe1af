/**
 * Python dictionaries as insertion-ordered sequences of entries. Assigning
 * `d[k] = v` overwrites the value in place when `k` is present and appends
 * a new entry otherwise, so iteration order is first-insertion order.
 */
module Tables {
  import opened Wrappers

  datatype Entry<K, V> = Entry(key: K, value: V)

  function Keys<K, V>(t: seq<Entry<K, V>>): (r: seq<K>)
    ensures |r| == |t|
    ensures forall i :: 0 <= i < |t| ==> r[i] == t[i].key
  {
    seq(|t|, i requires 0 <= i < |t| => t[i].key)
  }

  function Values<K, V>(t: seq<Entry<K, V>>): (r: seq<V>)
    ensures |r| == |t|
    ensures forall i :: 0 <= i < |t| ==> r[i] == t[i].value
  {
    seq(|t|, i requires 0 <= i < |t| => t[i].value)
  }

  /** No key is stored twice, as in every Python dict. */
  predicate DistinctKeys<K(==), V>(t: seq<Entry<K, V>>) {
    forall i, j :: 0 <= i < j < |t| ==> t[i].key != t[j].key
  }

  /** `d.get(k)`. */
  function Get<K(==), V>(t: seq<Entry<K, V>>, k: K): (r: Option<V>)
    ensures r.Some? <==> k in Keys(t)
    ensures r.Some? ==> Entry(k, r.value) in t
    decreases |t|
  {
    if |t| == 0 then None
    else if t[0].key == k then Some(t[0].value)
    else
      assert Keys(t) == [t[0].key] + Keys(t[1..]);
      Get(t[1..], k)
  }

  /** `d[k] = v`. */
  function Put<K(==), V>(t: seq<Entry<K, V>>, k: K, v: V): (r: seq<Entry<K, V>>)
    ensures |r| == if k in Keys(t) then |t| else |t| + 1
    decreases |t|
  {
    if |t| == 0 then [Entry(k, v)]
    else if t[0].key == k then [Entry(k, v)] + t[1..]
    else
      assert Keys(t) == [t[0].key] + Keys(t[1..]);
      [t[0]] + Put(t[1..], k, v)
  }

  /** After `d[k] = v`, `d[k]` is `v`. */
  lemma {:induction false} GetPutSame<K, V>(t: seq<Entry<K, V>>, k: K, v: V)
    ensures Get(Put(t, k, v), k) == Some(v)
    decreases |t|
  {
    if |t| > 0 && t[0].key != k {
      GetPutSame(t[1..], k, v);
      assert ([t[0]] + Put(t[1..], k, v))[1..] == Put(t[1..], k, v);
    }
  }

  /** After `d[k] = v`, every other key reads as before. */
  lemma {:induction false} GetPutOther<K, V>(t: seq<Entry<K, V>>, k: K, v: V, k2: K)
    requires k2 != k
    ensures Get(Put(t, k, v), k2) == Get(t, k2)
    decreases |t|
  {
    if |t| == 0 {
    } else if t[0].key == k {
      assert ([Entry(k, v)] + t[1..])[1..] == t[1..];
    } else {
      GetPutOther(t[1..], k, v, k2);
      assert ([t[0]] + Put(t[1..], k, v))[1..] == Put(t[1..], k, v);
    }
  }

  /** `d[k] = v` keeps the key order, appending `k` only when it is new. */
  lemma {:induction false} KeysPut<K, V>(t: seq<Entry<K, V>>, k: K, v: V)
    ensures Keys(Put(t, k, v)) == if k in Keys(t) then Keys(t) else Keys(t) + [k]
    decreases |t|
  {
    if |t| == 0 {
    } else if t[0].key == k {
      assert Keys([Entry(k, v)] + t[1..]) == Keys(t);
    } else {
      KeysPut(t[1..], k, v);
      assert Keys(t) == [t[0].key] + Keys(t[1..]);
      assert Keys([t[0]] + Put(t[1..], k, v)) == [t[0].key] + Keys(Put(t[1..], k, v));
    }
  }

  /** `d[k] = v` keeps a dict's keys distinct. */
  lemma PutDistinct<K, V>(t: seq<Entry<K, V>>, k: K, v: V)
    requires DistinctKeys(t)
    ensures DistinctKeys(Put(t, k, v))
  {
    KeysPut(t, k, v);
    var r := Put(t, k, v);
    assert forall i :: 0 <= i < |r| ==> r[i].key == Keys(r)[i];
    assert forall i :: 0 <= i < |t| ==> t[i].key == Keys(t)[i];
  }

  /** The value stored last for `k` among `es`, if any entry has that key. */
  function LastValue<K(==), V>(es: seq<Entry<K, V>>, k: K): Option<V>
    decreases |es|
  {
    if |es| == 0 then None
    else if es[|es| - 1].key == k then Some(es[|es| - 1].value)
    else LastValue(es[..|es| - 1], k)
  }

  /** A key assigned anywhere in `es` has a last value, and that value was assigned to it. */
  lemma {:induction false} LastValueAssigned<K, V>(es: seq<Entry<K, V>>, k: K)
    ensures LastValue(es, k).Some? <==> exists v :: Entry(k, v) in es
    ensures LastValue(es, k).Some? ==> Entry(k, LastValue(es, k).value) in es
    decreases |es|
  {
    if |es| > 0 {
      var init := es[..|es| - 1];
      LastValueAssigned(init, k);
      assert es == init + [es[|es| - 1]];
      if es[|es| - 1].key != k {
        assert forall v :: Entry(k, v) in es ==> Entry(k, v) in init;
      }
    }
  }

  /** Assigning the entries of `es` one after another, starting from `t`. */
  function PutAll<K(==), V>(t: seq<Entry<K, V>>, es: seq<Entry<K, V>>): seq<Entry<K, V>>
    decreases |es|
  {
    if |es| == 0 then t
    else Put(PutAll(t, es[..|es| - 1]), es[|es| - 1].key, es[|es| - 1].value)
  }

  /** After a run of assignments a key holds the value assigned to it last, or its old value when it was never assigned. */
  lemma {:induction false} GetPutAll<K, V>(t: seq<Entry<K, V>>, es: seq<Entry<K, V>>, k: K)
    ensures Get(PutAll(t, es), k) == if LastValue(es, k).Some? then LastValue(es, k) else Get(t, k)
    decreases |es|
  {
    if |es| > 0 {
      var last := es[|es| - 1];
      GetPutAll(t, es[..|es| - 1], k);
      if last.key == k {
        GetPutSame(PutAll(t, es[..|es| - 1]), k, last.value);
      } else {
        GetPutOther(PutAll(t, es[..|es| - 1]), last.key, last.value, k);
      }
    }
  }

  lemma {:induction false} PutAllDistinct<K, V>(t: seq<Entry<K, V>>, es: seq<Entry<K, V>>)
    requires DistinctKeys(t)
    ensures DistinctKeys(PutAll(t, es))
    decreases |es|
  {
    if |es| > 0 {
      PutAllDistinct(t, es[..|es| - 1]);
      PutDistinct(PutAll(t, es[..|es| - 1]), es[|es| - 1].key, es[|es| - 1].value);
    }
  }

  /** One more assignment extends the run by one entry. */
  lemma PutAllSnoc<K, V>(t: seq<Entry<K, V>>, es: seq<Entry<K, V>>, e: Entry<K, V>)
    ensures PutAll(t, es + [e]) == Put(PutAll(t, es), e.key, e.value)
  {
    assert (es + [e])[..|es|] == es;
  }

  /** Two runs of assignments one after the other are one run over both. */
  lemma {:induction false} PutAllAppend<K, V>(t: seq<Entry<K, V>>, a: seq<Entry<K, V>>, b: seq<Entry<K, V>>)
    ensures PutAll(t, a + b) == PutAll(PutAll(t, a), b)
    decreases |b|
  {
    if |b| == 0 {
      assert a + b == a;
    } else {
      assert (a + b)[..|a + b| - 1] == a + b[..|b| - 1];
      PutAllAppend(t, a, b[..|b| - 1]);
    }
  }

  /** The last assignment to a key among `a + b` is in `b` when `b` assigns the key at all. */
  lemma {:induction false} LastValueAppend<K, V>(a: seq<Entry<K, V>>, b: seq<Entry<K, V>>, k: K)
    ensures LastValue(a + b, k) == if LastValue(b, k).Some? then LastValue(b, k) else LastValue(a, k)
    decreases |b|
  {
    if |b| == 0 {
      assert a + b == a;
    } else {
      assert (a + b)[..|a + b| - 1] == a + b[..|b| - 1];
      LastValueAppend(a, b[..|b| - 1], k);
    }
  }

  /** Assigning a key the dict does not hold appends it. */
  lemma {:induction false} PutAbsent<K, V>(t: seq<Entry<K, V>>, k: K, v: V)
    requires k !in Keys(t)
    ensures Put(t, k, v) == t + [Entry(k, v)]
    decreases |t|
  {
    if |t| > 0 {
      assert Keys(t) == [t[0].key] + Keys(t[1..]);
      PutAbsent(t[1..], k, v);
      assert [t[0]] + (t[1..] + [Entry(k, v)]) == t + [Entry(k, v)];
    }
  }

  /** Filling an empty dict from entries with distinct keys gives exactly those entries, in order. */
  lemma {:induction false} PutAllFresh<K, V>(es: seq<Entry<K, V>>)
    requires DistinctKeys(es)
    ensures PutAll([], es) == es
    decreases |es|
  {
    if |es| > 0 {
      var init, last := es[..|es| - 1], es[|es| - 1];
      assert DistinctKeys(init);
      PutAllFresh(init);
      assert last.key !in Keys(init) by {
        forall i | 0 <= i < |init| ensures Keys(init)[i] != last.key {
          assert init[i] == es[i];
        }
      }
      PutAbsent(init, last.key, last.value);
      assert init + [last] == es;
    }
  }
}
