/** Python's `sorted(xs, key=...)`: a stable sort by a numeric key.

    `Sort` is an insertion sort in ascending key order that places an
    earlier element before every later element with the same key.  A sort
    with `reverse=True` keeps that stability too, so it is `Sort` on the
    negated key.  The lemmas below establish that `Sort` returns an ordered
    permutation of its input that keeps every group of equal keys in input
    order, that these three facts determine the result uniquely, and that
    its first and last elements are the first minimum and the last maximum
    of the input. */
module StableSort {

  /** `s` is in ascending order of `key`. */
  ghost predicate SortedBy<T>(s: seq<T>, key: T -> real)
  {
    forall i, j :: 0 <= i < j < |s| ==> key(s[i]) <= key(s[j])
  }

  /** Inserts `x`, which comes before all of `s` in input order, into the
      ascending `s`: after every smaller key, before every equal or larger one. */
  function Insert<T>(x: T, s: seq<T>, key: T -> real): (r: seq<T>)
    ensures |r| == |s| + 1
    ensures multiset(r) == multiset(s) + multiset{x}
  {
    if s == [] || key(x) <= key(s[0]) then [x] + s
    else
      assert s == [s[0]] + s[1..];
      [s[0]] + Insert(x, s[1..], key)
  }

  /** The stable ascending sort of `s` by `key`. */
  function Sort<T>(s: seq<T>, key: T -> real): (r: seq<T>)
    ensures |r| == |s|
    ensures multiset(r) == multiset(s)
  {
    if s == [] then []
    else
      assert s == [s[0]] + s[1..];
      Insert(s[0], Sort(s[1..], key), key)
  }

  /** The elements of `s` whose key is `k`, in the order of `s`. */
  function Having<T>(s: seq<T>, key: T -> real, k: real): seq<T>
  {
    if s == [] then []
    else (if key(s[0]) == k then [s[0]] else []) + Having(s[1..], key, k)
  }

  /** The position of the first minimum of `s`: no later element is
      smaller, every earlier element is strictly larger. */
  function FirstMinIndex<T>(s: seq<T>, key: T -> real): (i: nat)
    requires |s| > 0
    ensures i < |s|
    ensures forall j :: 0 <= j < |s| ==> key(s[i]) <= key(s[j])
    ensures forall j :: 0 <= j < i ==> key(s[i]) < key(s[j])
  {
    if |s| == 1 then 0
    else
      var m := FirstMinIndex(s[1..], key) + 1;
      if key(s[0]) <= key(s[m]) then 0 else m
  }

  /** The position of the last maximum of `s`: no element is larger, every
      later element is strictly smaller. */
  function LastMaxIndex<T>(s: seq<T>, key: T -> real): (i: nat)
    requires |s| > 0
    ensures i < |s|
    ensures forall j :: 0 <= j < |s| ==> key(s[j]) <= key(s[i])
    ensures forall j :: i < j < |s| ==> key(s[j]) < key(s[i])
  {
    if |s| == 1 then 0
    else
      var m := LastMaxIndex(s[..|s| - 1], key);
      if key(s[m]) <= key(s[|s| - 1]) then |s| - 1 else m
  }

  lemma {:induction false} HavingConcat<T>(a: seq<T>, b: seq<T>, key: T -> real, k: real)
    ensures Having(a + b, key, k) == Having(a, key, k) + Having(b, key, k)
  {
    if a == [] {
      assert a + b == b;
    } else {
      var h0 := if key(a[0]) == k then [a[0]] else [];
      assert (a + b)[0] == a[0] && (a + b)[1..] == a[1..] + b;
      assert Having(a + b, key, k) == h0 + Having(a[1..] + b, key, k);
      assert Having(a, key, k) == h0 + Having(a[1..], key, k);
      HavingConcat(a[1..], b, key, k);
      assert h0 + (Having(a[1..], key, k) + Having(b, key, k)) == (h0 + Having(a[1..], key, k)) + Having(b, key, k);
    }
  }

  lemma HavingSingle<T>(x: T, key: T -> real, k: real)
    ensures Having([x], key, k) == if key(x) == k then [x] else []
  {
    assert [x][1..] == [];
  }

  /** If no element of `s` has key `k`, none is kept. */
  lemma {:induction false} HavingNone<T>(s: seq<T>, key: T -> real, k: real)
    requires forall j :: 0 <= j < |s| ==> key(s[j]) != k
    ensures Having(s, key, k) == []
  {
    if s != [] {
      HavingNone(s[1..], key, k);
    }
  }

  /** The first element with key `k` heads the elements with key `k`. */
  lemma {:induction false} HavingFirst<T>(s: seq<T>, key: T -> real, k: real, i: nat)
    requires i < |s| && key(s[i]) == k
    requires forall j :: 0 <= j < i ==> key(s[j]) != k
    ensures Having(s, key, k) != [] && Having(s, key, k)[0] == s[i]
  {
    if i > 0 {
      HavingFirst(s[1..], key, k, i - 1);
    }
  }

  /** The last element with key `k` ends the elements with key `k`. */
  lemma HavingLast<T>(s: seq<T>, key: T -> real, k: real, i: nat)
    requires i < |s| && key(s[i]) == k
    requires forall j :: i < j < |s| ==> key(s[j]) != k
    ensures var h := Having(s, key, k); h != [] && h[|h| - 1] == s[i]
  {
    assert s == s[..i] + [s[i]] + s[i + 1..];
    HavingConcat(s[..i] + [s[i]], s[i + 1..], key, k);
    HavingConcat(s[..i], [s[i]], key, k);
    HavingNone(s[i + 1..], key, k);
    assert Having([s[i]], key, k) == [s[i]];
  }

  /** Taking the elements with key `k` commutes with taking a prefix. */
  lemma HavingPrefix<T>(s: seq<T>, n: nat, key: T -> real, k: real)
    requires n <= |s|
    ensures Having(s[..n], key, k) <= Having(s, key, k)
  {
    assert s == s[..n] + s[n..];
    HavingConcat(s[..n], s[n..], key, k);
  }

  /** In a sorted sequence, everything after the first `n` items has a key
      at least as large as each of the first `n`. */
  lemma SortedPrefixBest<T>(s: seq<T>, n: nat, key: T -> real)
    requires SortedBy(s, key) && n <= |s|
    ensures multiset(s[..n]) <= multiset(s)
    ensures forall o :: o in multiset(s) - multiset(s[..n]) ==>
      forall i :: 0 <= i < n ==> key(s[i]) <= key(o)
  {
    assert s == s[..n] + s[n..];
    assert multiset(s) == multiset(s[..n]) + multiset(s[n..]);
    forall o | o in multiset(s) - multiset(s[..n])
      ensures forall i :: 0 <= i < n ==> key(s[i]) <= key(o)
    {
      assert o in s[n..];
      var m :| n <= m < |s| && s[m] == o;
    }
  }

  lemma {:induction false} InsertSorted<T>(x: T, s: seq<T>, key: T -> real)
    requires SortedBy(s, key)
    ensures SortedBy(Insert(x, s, key), key)
  {
    if s != [] && key(s[0]) < key(x) {
      var t := Insert(x, s[1..], key);
      InsertSorted(x, s[1..], key);
      forall j | 0 <= j < |t|
        ensures key(s[0]) <= key(t[j])
      {
        assert t[j] in multiset(t);
        if t[j] != x {
          assert t[j] in multiset(s[1..]);
          var m :| 0 <= m < |s[1..]| && s[1..][m] == t[j];
          assert s[m + 1] == t[j];
        }
      }
      assert Insert(x, s, key) == [s[0]] + t;
    }
  }

  /** Inserting `x` keeps it ahead of every element with the same key. */
  lemma {:induction false} InsertKeepsTies<T>(x: T, s: seq<T>, key: T -> real, k: real)
    ensures Having(Insert(x, s, key), key, k) == Having([x] + s, key, k)
  {
    if s != [] && key(s[0]) < key(x) {
      var t := Insert(x, s[1..], key);
      var hx, h0, rest := Having([x], key, k), Having([s[0]], key, k), Having(s[1..], key, k);
      calc {
        Having(Insert(x, s, key), key, k);
        { assert Insert(x, s, key) == [s[0]] + t; }
        Having([s[0]] + t, key, k);
        { HavingConcat([s[0]], t, key, k); }
        h0 + Having(t, key, k);
        { InsertKeepsTies(x, s[1..], key, k); HavingConcat([x], s[1..], key, k); }
        h0 + (hx + rest);
        { HavingSingle(x, key, k); HavingSingle(s[0], key, k); Commute(h0, hx, rest); }
        hx + (h0 + rest);
        { assert s == [s[0]] + s[1..]; HavingConcat([s[0]], s[1..], key, k); }
        hx + Having(s, key, k);
        { HavingConcat([x], s, key, k); }
        Having([x] + s, key, k);
      }
    }
  }

  /** Two groups of which at most one is non-empty commute. */
  lemma Commute<T>(a: seq<T>, b: seq<T>, rest: seq<T>)
    requires a == [] || b == []
    ensures a + (b + rest) == b + (a + rest)
  {
    if a == [] {
      assert a + (b + rest) == b + rest;
      assert a + rest == rest;
    } else {
      assert b + rest == rest;
      assert b + (a + rest) == a + rest;
    }
  }

  lemma {:induction false} SortSorted<T>(s: seq<T>, key: T -> real)
    ensures SortedBy(Sort(s, key), key)
  {
    if s != [] {
      SortSorted(s[1..], key);
      InsertSorted(s[0], Sort(s[1..], key), key);
    }
  }

  /** Stability: for every key, the elements with that key keep their input order. */
  lemma {:induction false} SortStable<T>(s: seq<T>, key: T -> real, k: real)
    ensures Having(Sort(s, key), key, k) == Having(s, key, k)
  {
    if s != [] {
      var t := Sort(s[1..], key);
      InsertKeepsTies(s[0], t, key, k);
      SortStable(s[1..], key, k);
      assert ([s[0]] + t)[1..] == t;
    }
  }

  /** An ordered sequence with the same groups of equal keys as `s` is
      exactly `Sort(s)`: the tie-breaking of `Sort` is fully determined. */
  lemma {:induction false} SortUnique<T>(s: seq<T>, r: seq<T>, key: T -> real)
    requires SortedBy(r, key)
    requires forall k :: Having(r, key, k) == Having(s, key, k)
    ensures r == Sort(s, key)
  {
    var t := Sort(s, key);
    SortSorted(s, key);
    forall k ensures Having(r, key, k) == Having(t, key, k) {
      SortStable(s, key, k);
    }
    SortedSameGroupsEqual(r, t, key);
  }

  lemma {:induction false} SortedSameGroupsEqual<T>(a: seq<T>, b: seq<T>, key: T -> real)
    requires SortedBy(a, key) && SortedBy(b, key)
    requires forall k :: Having(a, key, k) == Having(b, key, k)
    ensures a == b
    decreases |a| + |b|
  {
    if a == [] && b == [] {
    } else if a == [] {
      assert false;
    } else if b == [] {
      GroupMember(a, key, key(a[0]), 0);
      assert false;
    } else {
      var ka, kb := key(a[0]), key(b[0]);
      // The smaller head key occurs in both, hence both heads share it.
      if ka < kb {
        GroupMember(a, key, ka, 0);
        assert Having(b, key, ka) != [];
        HeadKeyBound(b, key, ka);
        assert false;
      } else if kb < ka {
        GroupMember(b, key, kb, 0);
        assert Having(a, key, kb) != [];
        HeadKeyBound(a, key, kb);
        assert false;
      }
      HavingFirst(a, key, ka, 0);
      HavingFirst(b, key, kb, 0);
      assert a[0] == b[0];
      forall k ensures Having(a[1..], key, k) == Having(b[1..], key, k) {
        var p := if key(a[0]) == k then [a[0]] else [];
        assert Having(a, key, k) == p + Having(a[1..], key, k);
        assert Having(b, key, k) == p + Having(b[1..], key, k);
        assert Having(a[1..], key, k) == (p + Having(a[1..], key, k))[|p|..];
        assert Having(b[1..], key, k) == (p + Having(b[1..], key, k))[|p|..];
      }
      SortedSameGroupsEqual(a[1..], b[1..], key);
      assert a == [a[0]] + a[1..] && b == [b[0]] + b[1..];
    }
  }

  /** An element with key `k` makes the group of `k` non-empty. */
  lemma {:induction false} GroupMember<T>(s: seq<T>, key: T -> real, k: real, i: nat)
    requires i < |s| && key(s[i]) == k
    ensures Having(s, key, k) != []
  {
    if i > 0 && key(s[0]) != k {
      GroupMember(s[1..], key, k, i - 1);
    }
  }

  /** A non-empty group of `k` in an ordered `s` means the head key is at most `k`. */
  lemma {:induction false} HeadKeyBound<T>(s: seq<T>, key: T -> real, k: real)
    requires SortedBy(s, key) && Having(s, key, k) != []
    ensures key(s[0]) <= k
  {
    if key(s[0]) != k {
      assert Having(s[1..], key, k) != [];
      HeadKeyBound(s[1..], key, k);
      assert key(s[0]) <= key(s[1]);
    }
  }

  /** Sorting keeps exactly the elements of the input. */
  lemma SortMembers<T>(s: seq<T>, key: T -> real)
    ensures forall x :: x in Sort(s, key) <==> x in s
  {
    var r := Sort(s, key);
    forall x ensures x in r <==> x in s {
      assert x in r <==> x in multiset(r);
      assert x in s <==> x in multiset(s);
    }
  }

  /** An ordered rearrangement of `s` starts with the smallest key of `s`. */
  lemma OrderedHeadKey<T>(s: seq<T>, r: seq<T>, key: T -> real)
    requires |s| > 0 && |r| == |s| && SortedBy(r, key)
    requires forall x :: x in r <==> x in s
    ensures key(r[0]) == key(s[FirstMinIndex(s, key)])
  {
    var lo := FirstMinIndex(s, key);
    assert r[0] in s;
    var a :| 0 <= a < |s| && s[a] == r[0];
    assert s[lo] in r;
    var c :| 0 <= c < |r| && r[c] == s[lo];
  }

  /** An ordered rearrangement of `s` ends with the largest key of `s`. */
  lemma OrderedLastKey<T>(s: seq<T>, r: seq<T>, key: T -> real)
    requires |s| > 0 && |r| == |s| && SortedBy(r, key)
    requires forall x :: x in r <==> x in s
    ensures key(r[|r| - 1]) == key(s[LastMaxIndex(s, key)])
  {
    var hi := LastMaxIndex(s, key);
    assert r[|r| - 1] in s;
    var b :| 0 <= b < |s| && s[b] == r[|r| - 1];
    assert s[hi] in r;
    var d :| 0 <= d < |r| && r[d] == s[hi];
  }

  /** The first element of the sorted sequence is the first minimum of the input. */
  lemma SortFirstIsFirstMin<T>(s: seq<T>, key: T -> real)
    requires |s| > 0
    ensures Sort(s, key)[0] == s[FirstMinIndex(s, key)]
  {
    var r := Sort(s, key);
    var i := FirstMinIndex(s, key);
    var m := key(s[i]);
    SortSorted(s, key);
    SortMembers(s, key);
    OrderedHeadKey(s, r, key);
    SortStable(s, key, m);
    HavingFirst(r, key, m, 0);
    HavingFirst(s, key, m, i);
  }

  /** The last element of the sorted sequence is the last maximum of the input. */
  lemma SortLastIsLastMax<T>(s: seq<T>, key: T -> real)
    requires |s| > 0
    ensures Sort(s, key)[|s| - 1] == s[LastMaxIndex(s, key)]
  {
    var r := Sort(s, key);
    var n := |s| - 1;
    var i := LastMaxIndex(s, key);
    var m := key(s[i]);
    SortSorted(s, key);
    SortMembers(s, key);
    OrderedLastKey(s, r, key);
    SortStable(s, key, m);
    HavingLast(r, key, m, n);
    HavingLast(s, key, m, i);
  }

  /** What `sorted(...)[0]` and `sorted(...)[-1]` pick. */
  lemma SortEnds<T>(s: seq<T>, key: T -> real)
    requires |s| > 0
    ensures |Sort(s, key)| == |s|
    ensures Sort(s, key)[0] == s[FirstMinIndex(s, key)]
    ensures Sort(s, key)[|s| - 1] == s[LastMaxIndex(s, key)]
    ensures key(s[FirstMinIndex(s, key)]) <= key(s[LastMaxIndex(s, key)])
  {
    SortFirstIsFirstMin(s, key);
    SortLastIsLastMax(s, key);
  }
}
