/** Shared vocabulary of the model: optional values, the outcome of one
    backend round trip, and the row-level query operations (filter, the
    "exactly one row" lookup) that every service applies to its tables. */
module Common {

  /** Row identifiers are the backend's opaque string ids. */
  type Id = string

  /** Timestamps are opaque instants, represented by their order only. */
  type Timestamp = nat

  datatype Option<+T> = None | Some(value: T) {
    function GetOr(default: T): T {
      match this
      case Some(v) => v
      case None => default
    }
  }

  /** A service call's `{ data, error }` answer: the data, or the error's message. */
  datatype Result<+T> = Ok(value: T) | Err(message: string)

  /** The outcome of one request to the hosted backend: it either succeeds or
      comes back with an error carrying a (possibly empty) message. */
  datatype Step = Succeeds | FailsWith(message: string)

  /** The error every service call reports when no user is signed in. */
  const NotAuthenticated := "Not authenticated"

  /** The backend's error when `.single()` finds no row or several. */
  const NotSingleRow := "JSON object requested, multiple (or no) rows returned"

  /** JavaScript truthiness of an optional string: null, undefined and "" are falsy. */
  predicate Truthy(o: Option<string>) {
    o.Some? && o.value != ""
  }

  /** `o || d` for an optional string. */
  function OrDefault(o: Option<string>, d: string): (r: string)
    ensures Truthy(o) ==> r == o.value
    ensures !Truthy(o) ==> r == d
  {
    if Truthy(o) then o.value else d
  }

  /** The rows of a table that satisfy a query's filter, in table order. */
  function Filter<T(==,!new)>(s: seq<T>, keep: T -> bool): (r: seq<T>)
    ensures |r| <= |s|
    ensures forall x :: x in r <==> x in s && keep(x)
    ensures forall i :: 0 <= i < |r| ==> keep(r[i])
  {
    if s == [] then []
    else if keep(s[0]) then [s[0]] + Filter(s[1..], keep)
    else Filter(s[1..], keep)
  }

  /** The backend's `.single()`: data only when exactly one row matched. */
  function Single<T>(rows: seq<T>): (r: Option<T>)
    ensures r.Some? <==> |rows| == 1
    ensures r.Some? ==> r.value == rows[0]
  {
    if |rows| == 1 then Some(rows[0]) else None
  }

  /** `a` can be obtained from `b` by deleting elements (order is kept). */
  predicate IsSubsequence<T(==)>(a: seq<T>, b: seq<T>)
    decreases |b|
  {
    if a == [] then true
    else if b == [] then false
    else if a[0] == b[0] then IsSubsequence(a[1..], b[1..])
    else IsSubsequence(a, b[1..])
  }

  /** A filter never reorders: its result is a subsequence of its input. */
  lemma {:induction false} FilterIsSubsequence<T(!new)>(s: seq<T>, keep: T -> bool)
    ensures IsSubsequence(Filter(s, keep), s)
  {
    if s != [] {
      FilterIsSubsequence(s[1..], keep);
      var r := Filter(s, keep);
      if keep(s[0]) {
        assert r == [s[0]] + Filter(s[1..], keep);
        assert r[1..] == Filter(s[1..], keep);
      } else {
        assert r == Filter(s[1..], keep);
        if r != [] {
          assert keep(r[0]);
          assert r[0] != s[0];
        }
      }
    }
  }

  /** The number of rows of a table that satisfy a predicate. */
  function Count<T(==,!new)>(s: seq<T>, keep: T -> bool): (n: nat)
    ensures n <= |s|
  {
    |Filter(s, keep)|
  }
}
