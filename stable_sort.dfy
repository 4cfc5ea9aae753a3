/**
 * `Array.prototype.sort` with the comparator `(a, b) => key(a) - key(b)`, as the sidebar
 * compiler uses it on sections and on links. The sort is stable (ECMAScript 2019 onwards),
 * so elements with equal keys keep their relative order.
 */
module StableSort {

  /** Ascending by key. */
  ghost predicate SortedBy<T>(s: seq<T>, key: T -> int) {
    forall i, j :: 0 <= i < j < |s| ==> key(s[i]) <= key(s[j])
  }

  /** `s.filter(x => key(x) === k)`: the elements sharing one key, in their order in `s`. */
  function WithKey<T>(s: seq<T>, key: T -> int, k: int): (r: seq<T>)
    ensures |r| <= |s|
  {
    if s == [] then [] else (if key(s[0]) == k then [s[0]] else []) + WithKey(s[1..], key, k)
  }

  /** Places `x` before the first element whose key is not smaller than its own. */
  function Insert<T>(x: T, s: seq<T>, key: T -> int): (r: seq<T>)
    ensures |r| == |s| + 1
  {
    if s == [] then [x]
    else if key(x) <= key(s[0]) then [x] + s
    else [s[0]] + Insert(x, s[1..], key)
  }

  /** The stable sort: each element is inserted in front of the equal keys of the elements after it. */
  function SortBy<T>(s: seq<T>, key: T -> int): (r: seq<T>)
    ensures |r| == |s|
  {
    if s == [] then [] else Insert(s[0], SortBy(s[1..], key), key)
  }

  /** Inserting adds exactly the one element. */
  lemma {:induction false} InsertPermutes<T>(x: T, s: seq<T>, key: T -> int)
    ensures multiset(Insert(x, s, key)) == multiset(s) + multiset{x}
  {
    if s != [] && key(x) > key(s[0]) {
      InsertPermutes(x, s[1..], key);
      assert s == [s[0]] + s[1..];
    }
  }

  /** Sorting rearranges the input: the result is a permutation of it. */
  lemma {:induction false} SortByPermutes<T>(s: seq<T>, key: T -> int)
    ensures multiset(SortBy(s, key)) == multiset(s)
  {
    if s != [] {
      SortByPermutes(s[1..], key);
      InsertPermutes(s[0], SortBy(s[1..], key), key);
      assert s == [s[0]] + s[1..];
    }
  }

  lemma {:induction false} InsertSorted<T>(x: T, s: seq<T>, key: T -> int)
    requires SortedBy(s, key)
    ensures SortedBy(Insert(x, s, key), key)
    ensures Insert(x, s, key)[0] == x || (s != [] && Insert(x, s, key)[0] == s[0])
  {
    if s != [] && key(x) > key(s[0]) {
      var t := Insert(x, s[1..], key);
      assert SortedBy(s[1..], key) by {
        forall i, j | 0 <= i < j < |s[1..]| ensures key(s[1..][i]) <= key(s[1..][j]) {
          assert s[1..][i] == s[i + 1] && s[1..][j] == s[j + 1];
        }
      }
      InsertSorted(x, s[1..], key);
      assert key(s[0]) <= key(t[0]) by {
        if t[0] != x {
          assert t[0] == s[1..][0] == s[1];
        }
      }
      var r := [s[0]] + t;
      assert Insert(x, s, key) == r;
      forall i, j | 0 <= i < j < |r| ensures key(r[i]) <= key(r[j]) {
        assert r[j] == t[j - 1];
        if i > 0 {
          assert r[i] == t[i - 1];
        } else if j > 1 {
          assert key(t[0]) <= key(t[j - 1]);
        }
      }
    }
  }

  /** The elements of one key in a sequence that starts with `y`. */
  lemma WithKeyCons<T>(y: T, r: seq<T>, key: T -> int, k: int)
    ensures WithKey([y] + r, key, k) == (if key(y) == k then [y] else []) + WithKey(r, key, k)
  {
    assert ([y] + r)[0] == y;
    assert ([y] + r)[1..] == r;
  }

  lemma {:induction false} InsertWithKey<T>(x: T, s: seq<T>, key: T -> int, k: int)
    ensures WithKey(Insert(x, s, key), key, k) == WithKey([x] + s, key, k)
  {
    if s != [] && key(x) > key(s[0]) {
      var t := Insert(x, s[1..], key);
      var hx := if key(x) == k then [x] else [];
      var hs := if key(s[0]) == k then [s[0]] else [];
      var rest := WithKey(s[1..], key, k);
      InsertWithKey(x, s[1..], key, k);
      assert Insert(x, s, key) == [s[0]] + t;
      WithKeyCons(s[0], t, key, k);
      WithKeyCons(x, s[1..], key, k);
      WithKeyCons(x, s, key, k);
      assert WithKey(s, key, k) == hs + rest;
      SwapHeads(hs, hx, rest);
    }
  }

  /** Two heads commute in front of a tail when one of them is empty. */
  lemma SwapHeads<T>(a: seq<T>, b: seq<T>, rest: seq<T>)
    requires a == [] || b == []
    ensures a + (b + rest) == b + (a + rest)
  {
    if a == [] {
      assert a + (b + rest) == b + rest;
      assert a + rest == rest;
    } else {
      assert b + (a + rest) == a + rest;
      assert b + rest == rest;
    }
  }

  /**
   * The sort's specification: the result is ascending by key, a permutation of the input, and
   * every group of equal keys keeps the order it had in the input (stability).
   */
  lemma {:induction false} SortBySpec<T>(s: seq<T>, key: T -> int)
    ensures SortedBy(SortBy(s, key), key)
    ensures multiset(SortBy(s, key)) == multiset(s)
    ensures forall k :: WithKey(SortBy(s, key), key, k) == WithKey(s, key, k)
  {
    SortByPermutes(s, key);
    if s != [] {
      var rest := SortBy(s[1..], key);
      SortBySpec(s[1..], key);
      InsertSorted(s[0], rest, key);
      forall k ensures WithKey(SortBy(s, key), key, k) == WithKey(s, key, k) {
        InsertWithKey(s[0], rest, key, k);
        WithKeyCons(s[0], rest, key, k);
      }
    }
  }

  /** Where an element with key `k` stands among the elements with key `k`. */
  lemma {:induction false} WithKeyIndex<T>(s: seq<T>, key: T -> int, k: int, j: nat) returns (c: nat)
    requires j < |s| && key(s[j]) == k
    ensures c < |WithKey(s, key, k)| && WithKey(s, key, k)[c] == s[j]
  {
    var w := WithKey(s[1..], key, k);
    if j == 0 {
      c := 0;
    } else {
      var c' := WithKeyIndex(s[1..], key, k, j - 1);
      if key(s[0]) == k {
        c := c' + 1;
      } else {
        assert WithKey(s, key, k) == [] + w;
        c := c';
      }
    }
  }

  /** Two elements with key `k` keep their relative order among the elements with key `k`. */
  lemma {:induction false} WithKeyOrder<T>(s: seq<T>, key: T -> int, k: int, i: nat, j: nat) returns (a: nat, b: nat)
    requires i < j < |s| && key(s[i]) == k && key(s[j]) == k
    ensures a < b < |WithKey(s, key, k)| && WithKey(s, key, k)[a] == s[i] && WithKey(s, key, k)[b] == s[j]
  {
    var w := WithKey(s[1..], key, k);
    if i == 0 {
      var c := WithKeyIndex(s[1..], key, k, j - 1);
      a, b := 0, c + 1;
    } else {
      var a', b' := WithKeyOrder(s[1..], key, k, i - 1, j - 1);
      if key(s[0]) == k {
        a, b := a' + 1, b' + 1;
      } else {
        assert WithKey(s, key, k) == [] + w;
        a, b := a', b';
      }
    }
  }

  /** Every element with key `k` comes from some place in `s`. */
  lemma {:induction false} WithKeySource<T>(s: seq<T>, key: T -> int, k: int, c: nat) returns (p: nat)
    requires c < |WithKey(s, key, k)|
    ensures p < |s| && s[p] == WithKey(s, key, k)[c]
  {
    var w := WithKey(s[1..], key, k);
    if key(s[0]) == k {
      if c == 0 {
        p := 0;
      } else {
        var p' := WithKeySource(s[1..], key, k, c - 1);
        p := p' + 1;
      }
    } else {
      assert WithKey(s, key, k) == [] + w;
      var p' := WithKeySource(s[1..], key, k, c);
      p := p' + 1;
    }
  }

  /** Two elements with key `k`, in order among those with key `k`, come from places in `s` in the same order. */
  lemma {:induction false} WithKeyOrigin<T>(s: seq<T>, key: T -> int, k: int, a: nat, b: nat) returns (p: nat, q: nat)
    requires a < b < |WithKey(s, key, k)|
    ensures p < q < |s| && s[p] == WithKey(s, key, k)[a] && s[q] == WithKey(s, key, k)[b]
  {
    var w := WithKey(s[1..], key, k);
    if key(s[0]) == k {
      if a == 0 {
        var q' := WithKeySource(s[1..], key, k, b - 1);
        p, q := 0, q' + 1;
      } else {
        var p', q' := WithKeyOrigin(s[1..], key, k, a - 1, b - 1);
        p, q := p' + 1, q' + 1;
      }
    } else {
      assert WithKey(s, key, k) == [] + w;
      var p', q' := WithKeyOrigin(s[1..], key, k, a, b);
      p, q := p' + 1, q' + 1;
    }
  }

  /** Where two elements with equal keys came from in the input, in the order they are in the output. */
  lemma SortByStableAt<T>(s: seq<T>, key: T -> int, i: nat, j: nat) returns (p: nat, q: nat)
    requires i < j < |SortBy(s, key)| && key(SortBy(s, key)[i]) == key(SortBy(s, key)[j])
    ensures p < q < |s| && s[p] == SortBy(s, key)[i] && s[q] == SortBy(s, key)[j]
  {
    var r := SortBy(s, key);
    var k := key(r[i]);
    SortBySpec(s, key);
    var a, b := WithKeyOrder(r, key, k, i, j);
    assert WithKey(r, key, k) == WithKey(s, key, k);
    p, q := WithKeyOrigin(s, key, k, a, b);
  }

  /**
   * Stability stated by position: two elements with equal keys stand in the sorted result in
   * the order in which they stood in the input.
   */
  lemma SortByStable<T>(s: seq<T>, key: T -> int)
    ensures var r := SortBy(s, key);
            forall i, j :: 0 <= i < j < |r| && key(r[i]) == key(r[j]) ==>
              exists p, q :: 0 <= p < q < |s| && s[p] == r[i] && s[q] == r[j]
  {
    var r := SortBy(s, key);
    forall i, j | 0 <= i < j < |r| && key(r[i]) == key(r[j])
      ensures exists p, q :: 0 <= p < q < |s| && s[p] == r[i] && s[q] == r[j]
    {
      var p, q := SortByStableAt(s, key, i, j);
    }
  }

  /** Sorting an input that is already in order changes nothing. */
  lemma {:induction false} SortByOfSorted<T>(s: seq<T>, key: T -> int)
    requires SortedBy(s, key)
    ensures SortBy(s, key) == s
  {
    if s != [] {
      SortByOfSorted(s[1..], key);
      assert [s[0]] + s[1..] == s;
    }
  }

  /** No two positions hold the same element. */
  ghost predicate Distinct<T>(s: seq<T>) {
    forall i, j :: 0 <= i < j < |s| ==> s[i] != s[j]
  }

  lemma {:induction false} InsertDistinct<T>(x: T, s: seq<T>, key: T -> int)
    requires Distinct(s) && x !in s
    ensures Distinct(Insert(x, s, key))
  {
    if s != [] && key(x) > key(s[0]) {
      InsertDistinct(x, s[1..], key);
      var t := Insert(x, s[1..], key);
      InsertPermutes(x, s[1..], key);
      forall j | 0 <= j < |t| ensures t[j] != s[0] {
        assert t[j] in multiset(t);
        assert s[0] !in s[1..];
        assert s[0] != x;
      }
      assert forall j :: 0 < j < |[s[0]] + t| ==> ([s[0]] + t)[j] == t[j - 1];
    } else if s != [] {
      assert forall j :: 0 < j < |[x] + s| ==> ([x] + s)[j] == s[j - 1];
    }
  }

  /** Sorting never puts one element in two places. */
  lemma {:induction false} SortByDistinct<T>(s: seq<T>, key: T -> int)
    requires Distinct(s)
    ensures Distinct(SortBy(s, key))
  {
    if s != [] {
      SortByDistinct(s[1..], key);
      SortByPermutes(s[1..], key);
      assert s[0] !in multiset(s[1..]);
      InsertDistinct(s[0], SortBy(s[1..], key), key);
    }
  }
}
