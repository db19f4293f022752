/** The comparison sorts of the routes and components, on a numeric sort
    key (the number a comparator subtracts). JavaScript's
    `Array.prototype.sort` is stable, and so is this insertion sort: the
    elements of any one key come out in their input order (`SortDesc_Stable`). */
module Sorting {
  /** Non-increasing by `key`. */
  predicate SortedDesc<T>(s: seq<T>, key: T -> real) {
    forall i, j :: 0 <= i < j < |s| ==> key(s[i]) >= key(s[j])
  }

  /** Places `x` after every element whose key is at least its own. */
  function Insert<T>(x: T, s: seq<T>, key: T -> real): (r: seq<T>)
    ensures |r| == |s| + 1
  {
    if s == [] then [x]
    else if key(s[0]) >= key(x) then [s[0]] + Insert(x, s[1..], key)
    else [x] + s
  }

  /** A head no smaller than the first key of a sorted tail keeps it sorted. */
  lemma SortedDesc_Cons<T>(a: T, rest: seq<T>, key: T -> real)
    requires SortedDesc(rest, key) && (rest != [] ==> key(a) >= key(rest[0]))
    ensures SortedDesc([a] + rest, key)
  {
    var r := [a] + rest;
    forall i, j | 0 <= i < j < |r| ensures key(r[i]) >= key(r[j]) {
      if i == 0 && j > 1 {
        assert r[j] == rest[j - 1] && rest[0] == r[1];
      }
    }
  }

  /** Inserting adds exactly `x`, puts either `x` or the old head first, and
      keeps a sorted sequence sorted. */
  lemma {:induction false} Insert_Props<T>(x: T, s: seq<T>, key: T -> real)
    ensures multiset(Insert(x, s, key)) == multiset(s) + multiset{x}
    ensures Insert(x, s, key)[0] == x || (s != [] && Insert(x, s, key)[0] == s[0])
    ensures SortedDesc(s, key) ==> SortedDesc(Insert(x, s, key), key)
  {
    if s == [] {
    } else if key(s[0]) >= key(x) {
      var tail := s[1..];
      Insert_Props(x, tail, key);
      assert s == [s[0]] + tail;
      if SortedDesc(s, key) {
        forall i, j | 0 <= i < j < |tail| ensures key(tail[i]) >= key(tail[j]) {
          assert tail[i] == s[i + 1] && tail[j] == s[j + 1];
        }
        if tail != [] {
          assert key(s[0]) >= key(s[1]);
        }
        SortedDesc_Cons(s[0], Insert(x, tail, key), key);
      }
    } else {
      if SortedDesc(s, key) {
        SortedDesc_Cons(x, s, key);
      }
    }
  }

  /** `s.sort((a, b) => key(b) - key(a))`. */
  function SortDesc<T>(s: seq<T>, key: T -> real): (r: seq<T>)
    ensures multiset(r) == multiset(s) && |r| == |s|
    ensures SortedDesc(r, key)
  {
    if s == [] then []
    else
      var init := s[..|s| - 1];
      assert s == init + [s[|s| - 1]];
      Insert_Props(s[|s| - 1], SortDesc(init, key), key);
      Insert(s[|s| - 1], SortDesc(init, key), key)
  }

  /** The elements of `s` whose key is `k`, in order. */
  function Keyed<T>(s: seq<T>, key: T -> real, k: real): (r: seq<T>)
    ensures |r| <= |s|
  {
    if s == [] then []
    else (if key(s[0]) == k then [s[0]] else []) + Keyed(s[1..], key, k)
  }

  /** Selecting by key distributes over concatenation. */
  lemma {:induction false} Keyed_Append<T>(a: seq<T>, b: seq<T>, key: T -> real, k: real)
    ensures Keyed(a + b, key, k) == Keyed(a, key, k) + Keyed(b, key, k)
  {
    if a != [] {
      Keyed_Append(a[1..], b, key, k);
      assert (a + b)[1..] == a[1..] + b;
    } else {
      assert a + b == b;
    }
  }

  /** No element of a sorted sequence whose head is below `k` has key `k`. */
  lemma {:induction false} Keyed_Below<T>(s: seq<T>, key: T -> real, k: real)
    requires SortedDesc(s, key) && s != [] && key(s[0]) < k
    ensures Keyed(s, key, k) == []
  {
    if |s| > 1 {
      SortedDesc_Tail(s, key);
      assert key(s[1]) <= key(s[0]);
      Keyed_Below(s[1..], key, k);
    }
  }

  /** The tail of a sorted sequence is sorted. */
  lemma SortedDesc_Tail<T>(s: seq<T>, key: T -> real)
    requires s != [] && SortedDesc(s, key)
    ensures SortedDesc(s[1..], key)
  {
    var t := s[1..];
    forall i, j | 0 <= i < j < |t| ensures key(t[i]) >= key(t[j]) {
      assert t[i] == s[i + 1] && t[j] == s[j + 1];
    }
  }

  /** Inserting into a sorted sequence puts `x` after every element of
      its own key. */
  lemma {:induction false} Insert_Stable<T>(x: T, s: seq<T>, key: T -> real, k: real)
    requires SortedDesc(s, key)
    ensures Keyed(Insert(x, s, key), key, k) == Keyed(s, key, k) + Keyed([x], key, k)
  {
    assert Keyed([x], key, k) == (if key(x) == k then [x] else []) + Keyed([], key, k);
    if s == [] {
    } else if key(s[0]) >= key(x) {
      SortedDesc_Tail(s, key);
      Insert_Stable(x, s[1..], key, k);
      var head := if key(s[0]) == k then [s[0]] else [];
      assert Insert(x, s, key) == [s[0]] + Insert(x, s[1..], key);
      assert Keyed(Insert(x, s, key), key, k) == head + Keyed(Insert(x, s[1..], key), key, k);
      assert Keyed(s, key, k) == head + Keyed(s[1..], key, k);
    } else {
      assert Insert(x, s, key) == [x] + s;
      assert ([x] + s)[1..] == s;
      if key(x) == k {
        Keyed_Below(s, key, k);
      }
    }
  }

  /** The sort is stable: the elements of every key keep their input
      order. */
  lemma {:induction false} SortDesc_Stable<T>(s: seq<T>, key: T -> real, k: real)
    ensures Keyed(SortDesc(s, key), key, k) == Keyed(s, key, k)
  {
    if s != [] {
      var init := s[..|s| - 1];
      var last := s[|s| - 1];
      SortDesc_Stable(init, key, k);
      Insert_Stable(last, SortDesc(init, key), key, k);
      assert s == init + [last];
      Keyed_Append(init, [last], key, k);
    }
  }

  /** Sorting keeps exactly the elements it was given. */
  lemma SortDesc_Mem<T>(s: seq<T>, key: T -> real, x: T)
    ensures x in SortDesc(s, key) <==> x in s
  {
    assert x in SortDesc(s, key) <==> x in multiset(SortDesc(s, key));
  }

  /** An already sorted sequence is left as it is. */
  lemma {:induction false} SortDesc_Sorted<T>(s: seq<T>, key: T -> real)
    requires SortedDesc(s, key)
    ensures SortDesc(s, key) == s
  {
    if s != [] {
      var init := s[..|s| - 1];
      var last := s[|s| - 1];
      SortedDesc_Init(s, key);
      SortDesc_Sorted(init, key);
      forall i | 0 <= i < |init| ensures key(init[i]) >= key(last) {
        assert init[i] == s[i];
      }
      Insert_Last(last, init, key);
      assert SortDesc(s, key) == Insert(last, SortDesc(init, key), key);
      assert s == init + [last];
    }
  }

  /** Dropping the last element of a sorted sequence keeps it sorted, and
      that element is no greater than any other. */
  lemma SortedDesc_Init<T>(s: seq<T>, key: T -> real)
    requires s != [] && SortedDesc(s, key)
    ensures SortedDesc(s[..|s| - 1], key)
    ensures forall i :: 0 <= i < |s| - 1 ==> key(s[i]) >= key(s[|s| - 1])
  {
    var init := s[..|s| - 1];
    forall i, j | 0 <= i < j < |init| ensures key(init[i]) >= key(init[j]) {
      assert init[i] == s[i] && init[j] == s[j];
    }
  }

  /** Inserting an element no greater than every key appends it. */
  lemma {:induction false} Insert_Last<T>(x: T, s: seq<T>, key: T -> real)
    requires forall i :: 0 <= i < |s| ==> key(s[i]) >= key(x)
    ensures Insert(x, s, key) == s + [x]
  {
    if s != [] {
      Insert_Last(x, s[1..], key);
      assert s == [s[0]] + s[1..];
    }
  }
}
