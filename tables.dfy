/** Sequence operations the data-frame steps are built from: boolean-mask filtering and the set of observed keys. */
module Tables {
  import opened Wrappers

  /** Boolean-mask selection `data[mask]`: keeps, in order, the rows `p` accepts. */
  function Filter<T(!new)>(s: seq<T>, p: T -> bool): (r: seq<T>)
    ensures |r| <= |s|
    ensures forall x :: x in r <==> x in s && p(x)
  {
    if s == [] then [] else (if p(s[0]) then [s[0]] else []) + Filter(s[1..], p)
  }

  /** The mask keeps every accepted row as many times as it occurs, and no rejected row. */
  lemma {:induction false} FilterCounts<T(!new)>(s: seq<T>, p: T -> bool)
    ensures forall x :: multiset(Filter(s, p))[x] == if p(x) then multiset(s)[x] else 0
  {
    if s != [] {
      FilterCounts(s[1..], p);
      assert s == [s[0]] + s[1..];
    }
  }

  lemma {:induction false} FilterConcat<T(!new)>(a: seq<T>, b: seq<T>, p: T -> bool)
    ensures Filter(a + b, p) == Filter(a, p) + Filter(b, p)
  {
    if a == [] {
      assert a + b == b;
    } else {
      var ab := a + b;
      var head := if p(a[0]) then [a[0]] else [];
      assert ab[0] == a[0];
      assert ab[1..] == a[1..] + b;
      assert Filter(ab, p) == head + Filter(a[1..] + b, p);
      FilterConcat(a[1..], b, p);
      assert Filter(a, p) == head + Filter(a[1..], p);
      assert head + (Filter(a[1..], p) + Filter(b, p)) == (head + Filter(a[1..], p)) + Filter(b, p);
    }
  }

  lemma {:induction false} FilterKeepsAll<T(!new)>(s: seq<T>, p: T -> bool)
    requires forall x :: x in s ==> p(x)
    ensures Filter(s, p) == s
  {
    if s != [] {
      FilterKeepsAll(s[1..], p);
    }
  }

  /** No key occurs twice. */
  predicate Distinct<K(==)>(ks: seq<K>) {
    forall i, j :: 0 <= i < j < |ks| ==> ks[i] != ks[j]
  }

  /**
   * The distinct non-missing values of a column, in order of first appearance:
   * the categories `astype('category')` finds, and the groups `groupby` forms
   * (both leave missing values out).
   */
  function ObservedKeys<T, K(==,!new)>(rows: seq<T>, key: T -> Option<K>): (ks: seq<K>)
    ensures Distinct(ks)
    ensures forall k :: k in ks <==> exists i :: 0 <= i < |rows| && key(rows[i]) == Some(k)
  {
    if rows == [] then []
    else
      var prefix := rows[..|rows| - 1];
      var prev := ObservedKeys(prefix, key);
      assert forall i :: 0 <= i < |prefix| ==> prefix[i] == rows[i];
      match key(rows[|rows| - 1])
      case None => prev
      case Some(k) => if k in prev then prev else prev + [k]
  }
}
