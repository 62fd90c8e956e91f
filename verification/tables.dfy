/**
 * The table operations the SQL statements perform, on a table held as a
 * sequence of rows: `WHERE` lookup, `UPDATE ... WHERE`, `DELETE ... WHERE`,
 * and the primary-key invariant.
 */
module Tables {
  import opened Optional

  /** The position of the first row satisfying `p`, if any. */
  function FirstIndex<T>(s: seq<T>, p: T -> bool): (r: Option<nat>)
    ensures r.Some? ==> r.value < |s| && p(s[r.value])
    ensures r.Some? ==> forall j :: 0 <= j < r.value ==> !p(s[j])
    ensures r.None? ==> forall j :: 0 <= j < |s| ==> !p(s[j])
  {
    if |s| == 0 then None
    else if p(s[0]) then Some(0)
    else match FirstIndex(s[1..], p)
      case None => None
      case Some(k) => Some(k + 1)
  }

  /** `UPDATE ... WHERE p`: every row satisfying `p` is replaced by `f` of it, in place. */
  function Update<T>(s: seq<T>, p: T -> bool, f: T -> T): (r: seq<T>)
    ensures |r| == |s|
    ensures forall i :: 0 <= i < |s| ==> r[i] == (if p(s[i]) then f(s[i]) else s[i])
  {
    if |s| == 0 then [] else [if p(s[0]) then f(s[0]) else s[0]] + Update(s[1..], p, f)
  }

  /** The rows satisfying `keep`, in their order: `DELETE ... WHERE NOT keep` or a `WHERE keep` selection. */
  function Filter<T(!new)>(s: seq<T>, keep: T -> bool): (r: seq<T>)
    ensures forall x :: x in r ==> x in s && keep(x)
    ensures forall x :: keep(x) ==> multiset(r)[x] == multiset(s)[x]
    ensures (forall i :: 0 <= i < |s| ==> keep(s[i])) ==> r == s
  {
    if |s| == 0 then []
    else
      var rest := Filter(s[1..], keep);
      var head := if keep(s[0]) then [s[0]] else [];
      assert s == [s[0]] + s[1..];
      assert multiset(head + rest) == multiset(head) + multiset(rest);
      assert (forall i :: 0 <= i < |s| ==> keep(s[i])) ==> forall i :: 0 <= i < |s[1..]| ==> keep(s[1..][i]);
      head + rest
  }

  /** No two rows share a key. */
  ghost predicate UniqueKeys<T, K>(s: seq<T>, key: T -> K) {
    forall i, j :: 0 <= i < j < |s| ==> key(s[i]) != key(s[j])
  }

  /** Deleting rows keeps the keys of the remaining rows distinct. */
  lemma {:induction false} FilterKeepsUnique<T(!new), K>(s: seq<T>, keep: T -> bool, key: T -> K)
    requires UniqueKeys(s, key)
    ensures UniqueKeys(Filter(s, keep), key)
  {
    if |s| > 0 {
      var rest := Filter(s[1..], keep);
      TailUnique(s, key);
      FilterKeepsUnique(s[1..], keep, key);
      if keep(s[0]) {
        forall y | y in rest ensures key(s[0]) != key(y) {
          HeadKeyIsNew(s, key, y);
        }
        ConsUnique(s[0], rest, key);
        assert Filter(s, keep) == [s[0]] + rest;
      } else {
        assert Filter(s, keep) == rest;
      }
    }
  }

  /** Dropping the first row keeps the keys distinct. */
  lemma TailUnique<T, K>(s: seq<T>, key: T -> K)
    requires |s| > 0 && UniqueKeys(s, key)
    ensures UniqueKeys(s[1..], key)
  {
    forall i, j | 0 <= i < j < |s[1..]| ensures key(s[1..][i]) != key(s[1..][j]) {
      assert s[1..][i] == s[i + 1] && s[1..][j] == s[j + 1];
    }
  }

  /** The first row's key is used by no later row. */
  lemma HeadKeyIsNew<T, K>(s: seq<T>, key: T -> K, y: T)
    requires |s| > 0 && UniqueKeys(s, key) && y in s[1..]
    ensures key(s[0]) != key(y)
  {
    var k :| 0 <= k < |s[1..]| && s[1..][k] == y;
    assert s[k + 1] == y;
  }

  /** Prepending a row whose key is new keeps the keys distinct. */
  lemma ConsUnique<T, K>(x: T, t: seq<T>, key: T -> K)
    requires UniqueKeys(t, key) && forall y :: y in t ==> key(x) != key(y)
    ensures UniqueKeys([x] + t, key)
  {
    var r := [x] + t;
    forall i, j | 0 <= i < j < |r| ensures key(r[i]) != key(r[j]) {
      assert r[j] == t[j - 1];
      if i > 0 {
        assert r[i] == t[i - 1];
      }
    }
  }

  /** With distinct keys, a row occurs in the table exactly once. */
  lemma {:induction false} UniqueOccursOnce<T, K>(s: seq<T>, key: T -> K, x: T)
    requires UniqueKeys(s, key) && x in s
    ensures multiset(s)[x] == 1
  {
    assert s == [s[0]] + s[1..];
    if s[0] == x {
      forall k | 0 <= k < |s[1..]| ensures s[1..][k] != x {
        assert key(s[0]) != key(s[k + 1]);
      }
    } else {
      TailUnique(s, key);
      UniqueOccursOnce(s[1..], key, x);
    }
  }
}
