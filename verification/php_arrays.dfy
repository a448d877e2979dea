/**
 PHP's ordered arrays as sequences of key/value entries, with the lookup,
 assignment and `array_merge` that the chart builders use on their options.
 */
module PhpArrays {
  import opened PhpValues

  /** Index of the last entry of `a` whose key is `k`, or -1 when none is. */
  function Find(a: seq<Entry>, k: Key): (i: int)
    ensures -1 <= i < |a|
    ensures 0 <= i ==> a[i].key == k
    ensures forall j | i < j < |a| :: a[j].key != k
    decreases |a|
  {
    if |a| == 0 then -1
    else if a[|a| - 1].key == k then |a| - 1
    else Find(a[..|a| - 1], k)
  }

  /** `$a[$k]`, None when the key is absent. */
  function Get(a: seq<Entry>, k: Key): Option<Value>
  {
    var i := Find(a, k);
    if i < 0 then None else Some(a[i].val)
  }

  /** `$a[$k] = $v`: replaces the value in place, or appends a new entry. */
  function Put(a: seq<Entry>, k: Key, v: Value): seq<Entry>
  {
    var i := Find(a, k);
    if i < 0 then a + [Entry(k, v)] else a[i := Entry(k, v)]
  }

  /** The values stored under integer keys, in array order. */
  function ListPart(a: seq<Entry>): seq<Value>
    decreases |a|
  {
    if |a| == 0 then []
    else if a[|a| - 1].key.IntKey? then ListPart(a[..|a| - 1]) + [a[|a| - 1].val]
    else ListPart(a[..|a| - 1])
  }

  /** `array('x', 'y', …)`: the values under keys 0, 1, … */
  function List(vs: seq<Value>): seq<Entry>
  {
    Shifted(0, vs)
  }

  predicate DistinctKeys(a: seq<Entry>)
  {
    forall i, j | 0 <= i < j < |a| :: a[i].key != a[j].key
  }

  predicate StringKeyed(a: seq<Entry>)
  {
    forall i | 0 <= i < |a| :: a[i].key.StrKey?
  }

  /** The shape of every array `array_merge` returns: keys are distinct and
      the integer keys are 0, 1, 2, … in array order. */
  predicate Normalized(a: seq<Entry>)
  {
    && DistinctKeys(a)
    && forall i | 0 <= i < |a| && a[i].key.IntKey? :: a[i].key.n == |ListPart(a[..i])|
  }

  /** The loop of `array_merge` over the entries of its arguments, in order:
      a string key is assigned (overwriting an earlier entry with that key in
      place), an integer key is dropped and its value appended under the next
      free index, counting from 0. */
  function Fold(src: seq<Entry>): seq<Entry>
    decreases |src|
  {
    if |src| == 0 then []
    else
      var init := src[..|src| - 1];
      var e := src[|src| - 1];
      var acc := Fold(init);
      if e.key.IntKey? then acc + [Entry(IntKey(|ListPart(init)|), e.val)]
      else Put(acc, e.key, e.val)
  }

  /** `array_merge($a, $b)`. The result is normalized, lists the integer-keyed
      values of `a` and then those of `b`, and under each string key holds
      `b`'s value when `b` has the key and `a`'s otherwise. */
  function ArrayMerge(a: seq<Entry>, b: seq<Entry>): (r: seq<Entry>)
    ensures Normalized(r)
    ensures ListPart(r) == ListPart(a) + ListPart(b)
    ensures forall s: string :: Get(r, StrKey(s)) ==
              (if Get(b, StrKey(s)).Some? then Get(b, StrKey(s)) else Get(a, StrKey(s)))
  {
    FoldCanonical(a + b);
    ListPartConcat(a, b);
    GetConcat(a, b);
    Fold(a + b)
  }

  // ---------------------------------------------------------------- lemmas

  /** Find depends only on where the key `k` sits. */
  lemma FindSameKeyPositions(a: seq<Entry>, b: seq<Entry>, k: Key)
    requires |a| == |b|
    requires forall j | 0 <= j < |a| :: (a[j].key == k) == (b[j].key == k)
    ensures Find(a, k) == Find(b, k)
  {
  }

  lemma GetAppend(a: seq<Entry>, e: Entry)
    ensures forall k :: Get(a + [e], k) == (if e.key == k then Some(e.val) else Get(a, k))
  {
    assert (a + [e])[..|a|] == a;
  }

  /** The last occurrence wins: a key of `b` hides the same key in `a`. */
  lemma {:induction false} GetConcat(a: seq<Entry>, b: seq<Entry>)
    ensures forall k :: Get(a + b, k) == (if Get(b, k).Some? then Get(b, k) else Get(a, k))
    decreases |b|
  {
    if |b| == 0 {
      assert a + b == a;
    } else {
      var b' := b[..|b| - 1];
      var e := b[|b| - 1];
      assert b == b' + [e];
      assert a + b == (a + b') + [e];
      GetConcat(a, b');
      GetAppend(a + b', e);
      GetAppend(b', e);
    }
  }

  lemma ListPartAppend(a: seq<Entry>, e: Entry)
    ensures ListPart(a + [e]) == ListPart(a) + (if e.key.IntKey? then [e.val] else [])
  {
    assert (a + [e])[..|a|] == a;
  }

  lemma {:induction false} ListPartConcat(a: seq<Entry>, b: seq<Entry>)
    ensures ListPart(a + b) == ListPart(a) + ListPart(b)
    decreases |b|
  {
    if |b| == 0 {
      assert a + b == a;
    } else {
      var b' := b[..|b| - 1];
      var e := b[|b| - 1];
      assert b == b' + [e];
      assert a + b == (a + b') + [e];
      ListPartConcat(a, b');
      ListPartAppend(a + b', e);
      ListPartAppend(b', e);
    }
  }

  /** Overwriting a string-keyed entry leaves the integer-keyed values alone. */
  lemma {:induction false} ListPartUpdate(a: seq<Entry>, i: int, e: Entry)
    requires 0 <= i < |a| && a[i].key.StrKey? && e.key.StrKey?
    ensures ListPart(a[i := e]) == ListPart(a)
    decreases |a|
  {
    var a' := a[i := e];
    if i < |a| - 1 {
      assert a'[..|a| - 1] == a[..|a| - 1][i := e];
      ListPartUpdate(a[..|a| - 1], i, e);
    } else {
      assert a'[..|a| - 1] == a[..|a| - 1];
    }
  }

  lemma PutGet(a: seq<Entry>, k: Key, v: Value)
    ensures forall k' :: Get(Put(a, k, v), k') == (if k' == k then Some(v) else Get(a, k'))
  {
    var i := Find(a, k);
    if i < 0 {
      GetAppend(a, Entry(k, v));
    } else {
      var a' := a[i := Entry(k, v)];
      forall k' ensures Get(a', k') == (if k' == k then Some(v) else Get(a, k')) {
        FindSameKeyPositions(a, a', k');
      }
    }
  }

  /** Assigning a string key keeps an array normalized. */
  lemma PutNormalized(a: seq<Entry>, k: Key, v: Value)
    requires Normalized(a) && k.StrKey?
    ensures Normalized(Put(a, k, v))
    ensures ListPart(Put(a, k, v)) == ListPart(a)
  {
    var i := Find(a, k);
    var r := Put(a, k, v);
    if i < 0 {
      ListPartAppend(a, Entry(k, v));
      forall j | 0 <= j < |r| && r[j].key.IntKey?
        ensures r[j].key.n == |ListPart(r[..j])|
      {
        assert r[..j] == a[..j];
      }
    } else {
      ListPartUpdate(a, i, Entry(k, v));
      forall j | 0 <= j < |r| && r[j].key.IntKey?
        ensures r[j].key.n == |ListPart(r[..j])|
      {
        if j <= i {
          assert r[..j] == a[..j];
        } else {
          assert r[..j] == a[..j][i := Entry(k, v)];
          ListPartUpdate(a[..j], i, Entry(k, v));
        }
      }
    }
  }

  /** In a normalized array every integer key is below the number of
      integer-keyed entries. */
  lemma IntKeysBelowCount(a: seq<Entry>, j: int)
    requires Normalized(a) && 0 <= j < |a| && a[j].key.IntKey?
    ensures a[j].key.n < |ListPart(a)|
  {
    assert a[j].key.n == |ListPart(a[..j])|;
    assert a[..j + 1] == a[..j] + [a[j]];
    ListPartAppend(a[..j], a[j]);
    assert a == a[..j + 1] + a[j + 1..];
    ListPartConcat(a[..j + 1], a[j + 1..]);
  }

  /** Appending under the next free index keeps an array normalized. */
  lemma AppendNormalized(a: seq<Entry>, v: Value)
    requires Normalized(a)
    ensures Normalized(a + [Entry(IntKey(|ListPart(a)|), v)])
  {
    var e := Entry(IntKey(|ListPart(a)|), v);
    var r := a + [e];
    forall i, j | 0 <= i < j < |r| ensures r[i].key != r[j].key {
      if j == |a| && r[i].key.IntKey? {
        IntKeysBelowCount(a, i);
      }
    }
    forall j | 0 <= j < |r| && r[j].key.IntKey?
      ensures r[j].key.n == |ListPart(r[..j])|
    {
      assert r[..j] == a[..j] || j == |a|;
      assert r[..|a|] == a;
    }
  }

  /** What `array_merge` computes, independently of how: the fold of the
      concatenated entries is normalized, lists the same integer-keyed values
      and holds, under each string key, the last value given for it. */
  lemma {:induction false} FoldCanonical(src: seq<Entry>)
    ensures Normalized(Fold(src))
    ensures ListPart(Fold(src)) == ListPart(src)
    ensures forall s: string :: Get(Fold(src), StrKey(s)) == Get(src, StrKey(s))
    decreases |src|
  {
    if |src| > 0 {
      var init := src[..|src| - 1];
      var e := src[|src| - 1];
      assert src == init + [e];
      FoldCanonical(init);
      var acc := Fold(init);
      GetAppend(init, e);
      ListPartAppend(init, e);
      if e.key.IntKey? {
        AppendNormalized(acc, e.val);
        ListPartAppend(acc, Entry(IntKey(|ListPart(init)|), e.val));
        GetAppend(acc, Entry(IntKey(|ListPart(init)|), e.val));
      } else {
        PutNormalized(acc, e.key, e.val);
        PutGet(acc, e.key, e.val);
      }
    }
  }

  lemma NormalizedPrefix(a: seq<Entry>, k: int)
    requires Normalized(a) && 0 <= k <= |a|
    ensures Normalized(a[..k])
  {
    forall i | 0 <= i < k && a[..k][i].key.IntKey?
      ensures a[..k][i].key.n == |ListPart(a[..k][..i])|
    {
      assert a[..k][..i] == a[..i];
    }
  }

  /** In a normalized array the integer keys are exactly the positions of
      its list part. */
  lemma {:induction false} NormalizedIntGet(a: seq<Entry>)
    requires Normalized(a)
    ensures forall n: int :: Get(a, IntKey(n)) ==
              (if 0 <= n < |ListPart(a)| then Some(ListPart(a)[n]) else None)
    decreases |a|
  {
    if |a| > 0 {
      var init := a[..|a| - 1];
      var e := a[|a| - 1];
      assert a == init + [e];
      NormalizedPrefix(a, |a| - 1);
      NormalizedIntGet(init);
      GetAppend(init, e);
      ListPartAppend(init, e);
      if e.key.IntKey? {
        assert e.key.n == |ListPart(init)|;
      }
    }
  }

  /** `array_merge` leaves an array it already produced as it is. */
  lemma {:induction false} FoldCopiesNormalized(a: seq<Entry>)
    requires Normalized(a)
    ensures Fold(a) == a
    decreases |a|
  {
    if |a| > 0 {
      var init := a[..|a| - 1];
      var e := a[|a| - 1];
      assert a == init + [e];
      NormalizedPrefix(a, |a| - 1);
      FoldCopiesNormalized(init);
      if e.key.StrKey? {
        assert Find(init, e.key) == -1;
      }
    }
  }

  /** Assigning a key the value it already holds changes nothing. */
  lemma PutExisting(a: seq<Entry>, k: Key, v: Value)
    requires Get(a, k) == Some(v)
    ensures Put(a, k, v) == a
  {
  }

  /** Folding further string-keyed entries whose values are already in place
      changes nothing. */
  lemma {:induction false} FoldAbsorbs(x: seq<Entry>, y: seq<Entry>)
    requires StringKeyed(y)
    requires forall j | 0 <= j < |y| :: Get(Fold(x), y[j].key) == Some(y[j].val)
    ensures Fold(x + y) == Fold(x)
    decreases |y|
  {
    if |y| == 0 {
      assert x + y == x;
    } else {
      var y' := y[..|y| - 1];
      var e := y[|y| - 1];
      assert x + y == (x + y') + [e];
      assert (x + y)[..|x + y| - 1] == x + y';
      FoldAbsorbs(x, y');
      PutExisting(Fold(x), e.key, e.val);
    }
  }

  /** Under distinct keys, the lookup of an entry's key finds that entry. */
  lemma GetOwnEntry(b: seq<Entry>, j: int)
    requires DistinctKeys(b) && 0 <= j < |b|
    ensures Get(b, b[j].key) == Some(b[j].val)
  {
    var i := Find(b, b[j].key);
    assert i >= j;
  }

  /** Merging string-keyed entries leaves every key they do not mention
      untouched, integer keys included, and gives every key they mention the
      value they carry. */
  lemma MergeStringKeyed(a: seq<Entry>, b: seq<Entry>)
    requires Normalized(a) && StringKeyed(b)
    ensures forall k :: Get(ArrayMerge(a, b), k) ==
              (if Get(b, k).Some? then Get(b, k) else Get(a, k))
  {
    var r := ArrayMerge(a, b);
    assert ListPart(b) == [] by {
      NoListPart(b);
    }
    NormalizedIntGet(a);
    NormalizedIntGet(r);
    forall k ensures Get(r, k) == (if Get(b, k).Some? then Get(b, k) else Get(a, k)) {
      if k.IntKey? {
        assert Find(b, k) == -1;
      }
    }
  }

  lemma {:induction false} NoListPart(b: seq<Entry>)
    requires StringKeyed(b)
    ensures ListPart(b) == []
    decreases |b|
  {
    if |b| > 0 {
      NoListPart(b[..|b| - 1]);
    }
  }

  /** Merging the same string-keyed array twice is merging it once. */
  lemma MergeIdempotent(a: seq<Entry>, b: seq<Entry>)
    requires Normalized(a) && StringKeyed(b) && DistinctKeys(b)
    ensures ArrayMerge(ArrayMerge(a, b), b) == ArrayMerge(a, b)
  {
    var r := ArrayMerge(a, b);
    FoldCopiesNormalized(r);
    MergeStringKeyed(a, b);
    forall j | 0 <= j < |b| ensures Get(Fold(r), b[j].key) == Some(b[j].val) {
      GetOwnEntry(b, j);
    }
    FoldAbsorbs(r, b);
  }

  /** The values `vs` under the keys n, n + 1, … */
  function Shifted(n: int, vs: seq<Value>): (a: seq<Entry>)
    ensures |a| == |vs|
    decreases |vs|
  {
    if |vs| == 0 then []
    else Shifted(n, vs[..|vs| - 1]) + [Entry(IntKey(n + |vs| - 1), vs[|vs| - 1])]
  }

  /** Folding further integer-keyed entries appends their values under the
      next indices. */
  lemma {:induction false} FoldList(x: seq<Entry>, vs: seq<Value>)
    ensures Fold(x + List(vs)) == Fold(x) + Shifted(|ListPart(x)|, vs)
    decreases |vs|
  {
    var n := |ListPart(x)|;
    if |vs| == 0 {
      assert x + List(vs) == x;
      assert Fold(x) + Shifted(n, vs) == Fold(x);
    } else {
      var vs' := vs[..|vs| - 1];
      var e := Entry(IntKey(|vs'|), vs[|vs| - 1]);
      assert x + List(vs) == (x + List(vs')) + [e] by {
        ShiftedSnoc(0, vs);
      }
      assert |ListPart(x + List(vs'))| == n + |vs'| by {
        ListPartConcat(x, List(vs'));
        ListOfList(vs');
      }
      calc {
        Fold(x + List(vs));
        Fold((x + List(vs')) + [e]);
        { FoldSnocInt(x + List(vs'), e); }
        Fold(x + List(vs')) + [Entry(IntKey(n + |vs'|), e.val)];
        { FoldList(x, vs'); }
        (Fold(x) + Shifted(n, vs')) + [Entry(IntKey(n + |vs'|), e.val)];
        Fold(x) + (Shifted(n, vs') + [Entry(IntKey(n + |vs'|), e.val)]);
        { ShiftedSnoc(n, vs); }
        Fold(x) + Shifted(n, vs);
      }
    }
  }

  lemma FoldSnocInt(x: seq<Entry>, e: Entry)
    requires e.key.IntKey?
    ensures Fold(x + [e]) == Fold(x) + [Entry(IntKey(|ListPart(x)|), e.val)]
  {
    assert (x + [e])[..|x|] == x;
  }

  lemma ShiftedSnoc(n: int, vs: seq<Value>)
    requires |vs| > 0
    ensures Shifted(n, vs[..|vs| - 1]) + [Entry(IntKey(n + |vs| - 1), vs[|vs| - 1])] == Shifted(n, vs)
  {
  }

  /** Merging a list onto a normalized array keeps the array as it is and
      appends the list's values under the next indices. */
  lemma MergeAppendsList(a: seq<Entry>, vs: seq<Value>)
    requires Normalized(a)
    ensures ArrayMerge(a, List(vs)) == a + Shifted(|ListPart(a)|, vs)
  {
    FoldList(a, vs);
    FoldCopiesNormalized(a);
  }

  lemma {:induction false} ListOfList(vs: seq<Value>)
    ensures ListPart(List(vs)) == vs
    decreases |vs|
  {
    if |vs| > 0 {
      var vs' := vs[..|vs| - 1];
      ListOfList(vs');
      ListPartAppend(List(vs'), Entry(IntKey(|vs| - 1), vs[|vs| - 1]));
      assert vs == vs' + [vs[|vs| - 1]];
    }
  }
}
