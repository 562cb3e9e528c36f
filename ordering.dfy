/** The ordering and limiting that queries ask the backend for
    (`order(column, { ascending: false })`, `limit(n)`), stated on values. */
module Ordering {

  /** Newest first: the key never increases along the sequence. */
  predicate SortedDesc<T>(s: seq<T>, key: T -> int) {
    forall i, j :: 0 <= i < j < |s| ==> key(s[i]) >= key(s[j])
  }

  /** Places `x` in a newest-first sequence after every row with a larger key. */
  function InsertDesc<T>(x: T, s: seq<T>, key: T -> int): (r: seq<T>)
    ensures |r| == |s| + 1
    ensures r[0] == x || (s != [] && r[0] == s[0])
  {
    if s == [] then [x]
    else if key(x) >= key(s[0]) then [x] + s
    else [s[0]] + InsertDesc(x, s[1..], key)
  }

  /** Inserting keeps a newest-first sequence newest first. */
  lemma {:induction false} InsertDescSorted<T>(x: T, s: seq<T>, key: T -> int)
    requires SortedDesc(s, key)
    ensures SortedDesc(InsertDesc(x, s, key), key)
  {
    var r := InsertDesc(x, s, key);
    if s == [] {
    } else if key(x) >= key(s[0]) {
      forall i, j | 0 <= i < j < |r| ensures key(r[i]) >= key(r[j]) {
        if i > 0 { assert r[i] == s[i-1]; }
        assert r[j] == s[j-1];
      }
    } else {
      var rest := InsertDesc(x, s[1..], key);
      assert SortedDesc(s[1..], key) by {
        forall i, j | 0 <= i < j < |s[1..]| ensures key(s[1..][i]) >= key(s[1..][j]) {
          assert s[1..][i] == s[i+1] && s[1..][j] == s[j+1];
        }
      }
      InsertDescSorted(x, s[1..], key);
      assert key(s[0]) >= key(rest[0]) by {
        if |s| > 1 { assert s[1..][0] == s[1]; }
      }
      assert r == [s[0]] + rest;
      forall i, j | 0 <= i < j < |r| ensures key(r[i]) >= key(r[j]) {
        assert r[j] == rest[j-1];
        if i > 0 { assert r[i] == rest[i-1]; }
        else if j > 1 { assert key(rest[0]) >= key(rest[j-1]); }
      }
    }
  }

  /** Inserting adds exactly `x` to the rows. */
  lemma {:induction false} InsertDescRows<T>(x: T, s: seq<T>, key: T -> int)
    ensures multiset(InsertDesc(x, s, key)) == multiset(s) + multiset{x}
  {
    if s != [] && key(x) < key(s[0]) {
      InsertDescRows(x, s[1..], key);
      assert s == [s[0]] + s[1..];
    }
  }

  /** Inserting adds `x` and keeps every other row. */
  lemma {:induction false} InsertDescMembers<T(!new)>(x: T, s: seq<T>, key: T -> int)
    ensures forall y :: y in InsertDesc(x, s, key) <==> y == x || y in s
  {
    if s != [] && key(x) < key(s[0]) {
      InsertDescMembers(x, s[1..], key);
      assert s == [s[0]] + s[1..];
    }
  }

  /** The rows of `s` ordered by `key`, largest first. */
  function SortDesc<T(!new)>(s: seq<T>, key: T -> int): (r: seq<T>)
    ensures SortedDesc(r, key)
    ensures multiset(r) == multiset(s)
    ensures |r| == |s|
    ensures forall y :: y in r <==> y in s
  {
    if s == [] then []
    else
      var sorted := SortDesc(s[1..], key);
      InsertDescSorted(s[0], sorted, key);
      InsertDescRows(s[0], sorted, key);
      InsertDescMembers(s[0], sorted, key);
      assert s == [s[0]] + s[1..];
      InsertDesc(s[0], sorted, key)
  }

  /** `limit(n)`: the first `n` rows, or all of them when there are fewer. */
  function Take<T>(s: seq<T>, n: nat): (r: seq<T>)
    ensures |r| <= n && |r| <= |s|
    ensures |r| == n || r == s
    ensures r == s[..|r|]
  {
    if n < |s| then s[..n] else s
  }

  /** Keeping a prefix of a newest-first sequence keeps it newest first. */
  lemma TakeSorted<T>(s: seq<T>, n: nat, key: T -> int)
    requires SortedDesc(s, key)
    ensures SortedDesc(Take(s, n), key)
  {
  }

  /** A prefix of a newest-first sequence keeps its newest rows: the prefix is
      part of the rows, and no row left out is newer than a row kept. */
  lemma TakeNewest<T>(s: seq<T>, n: nat, key: T -> int)
    requires SortedDesc(s, key)
    ensures multiset(Take(s, n)) <= multiset(s)
    ensures forall i, y :: 0 <= i < |Take(s, n)| && y in multiset(s) - multiset(Take(s, n)) ==>
      key(y) <= key(Take(s, n)[i])
  {
    var top := Take(s, n);
    var k := |top|;
    assert s == top + s[k..];
    assert multiset(s) == multiset(top) + multiset(s[k..]);
    forall i, y | 0 <= i < k && y in multiset(s) - multiset(top) ensures key(y) <= key(top[i]) {
      assert y in s[k..];
      var j :| 0 <= j < |s[k..]| && s[k..][j] == y;
      assert s[k + j] == y && s[i] == top[i];
    }
  }
}
