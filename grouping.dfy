/**
 * `groupby(key).agg(sum)` over the cleaned table, for any key column: the rows of a
 * group, the totals per group, and the identity that the group totals add up to the
 * totals of the rows that have a key.
 */
module Grouping {
  import opened Wrappers
  import opened Posts
  import opened Tables
  import opened Kpis

  /** The rows of one group: those whose key is `k`, in table order. */
  function PostsWithKey<K(==)>(posts: seq<CleanPost>, key: CleanPost -> Option<K>, k: K): (g: seq<CleanPost>)
    ensures forall c :: c in g <==> c in posts && key(c) == Some(k)
  {
    if posts == [] then []
    else if key(posts[0]) == Some(k) then [posts[0]] + PostsWithKey(posts[1..], key, k)
    else PostsWithKey(posts[1..], key, k)
  }

  /** A group holds each row with its key as many times as the table does, and no other row. */
  lemma {:induction false} GroupCounts<K>(posts: seq<CleanPost>, key: CleanPost -> Option<K>, k: K)
    ensures forall c :: multiset(PostsWithKey(posts, key, k))[c] == if key(c) == Some(k) then multiset(posts)[c] else 0
  {
    if posts != [] {
      GroupCounts(posts[1..], key, k);
      assert posts == [posts[0]] + posts[1..];
    }
  }

  /** The rows whose key is one of `ks`. */
  function PostsKeyedIn<K(==)>(posts: seq<CleanPost>, key: CleanPost -> Option<K>, ks: seq<K>): seq<CleanPost> {
    if posts == [] then []
    else if key(posts[0]).Some? && key(posts[0]).value in ks then [posts[0]] + PostsKeyedIn(posts[1..], key, ks)
    else PostsKeyedIn(posts[1..], key, ks)
  }

  /** The rows whose key is present; `groupby` leaves the others out of every group. */
  function PostsWithAnyKey<K(==)>(posts: seq<CleanPost>, key: CleanPost -> Option<K>): seq<CleanPost> {
    if posts == [] then []
    else if key(posts[0]).Some? then [posts[0]] + PostsWithAnyKey(posts[1..], key)
    else PostsWithAnyKey(posts[1..], key)
  }

  /** The totals of each group, one per key of `ks`, in the order of `ks`. */
  function GroupTotals<K(==)>(posts: seq<CleanPost>, key: CleanPost -> Option<K>, ks: seq<K>): (ts: seq<Totals>)
    ensures |ts| == |ks|
    ensures forall i :: 0 <= i < |ks| ==> ts[i] == TotalOf(PostsWithKey(posts, key, ks[i]))
  {
    if ks == [] then [] else [TotalOf(PostsWithKey(posts, key, ks[0]))] + GroupTotals(posts, key, ks[1..])
  }

  /** Column-wise sum of a sequence of totals (summing a column of a grouped table). */
  function Sum(ts: seq<Totals>): Totals {
    if ts == [] then Zero() else ts[0].Plus(Sum(ts[1..]))
  }

  /** One row less: how the three sides of `SplitOffKey` unfold on the first row. */
  lemma UnfoldFirst<K>(posts: seq<CleanPost>, key: CleanPost -> Option<K>, k: K, ks: seq<K>)
    requires posts != [] && k !in ks
    ensures var c, tail := posts[0], posts[1..];
      && TotalOf(PostsKeyedIn(posts, key, [k] + ks)) ==
         (if key(c).Some? && key(c).value in [k] + ks then Contribution(c).Plus(TotalOf(PostsKeyedIn(tail, key, [k] + ks)))
          else TotalOf(PostsKeyedIn(tail, key, [k] + ks)))
      && TotalOf(PostsWithKey(posts, key, k)) ==
         (if key(c) == Some(k) then Contribution(c).Plus(TotalOf(PostsWithKey(tail, key, k)))
          else TotalOf(PostsWithKey(tail, key, k)))
      && TotalOf(PostsKeyedIn(posts, key, ks)) ==
         (if key(c).Some? && key(c).value in ks then Contribution(c).Plus(TotalOf(PostsKeyedIn(tail, key, ks)))
          else TotalOf(PostsKeyedIn(tail, key, ks)))
  {
    var c, tail := posts[0], posts[1..];
    var both := PostsKeyedIn(tail, key, [k] + ks);
    var one := PostsWithKey(tail, key, k);
    var others := PostsKeyedIn(tail, key, ks);
    assert ([c] + both)[1..] == both;
    assert ([c] + one)[1..] == one;
    assert ([c] + others)[1..] == others;
  }

  /** Two totals with the same five sums are the same totals. */
  lemma SameSums(x: Totals, y: Totals)
    requires x.comments == y.comments && x.likes == y.likes && x.plays == y.plays
    requires x.views == y.views && x.posts == y.posts
    ensures x == y
  {
  }

  lemma {:induction false} SplitOffKeyBySum<K>(posts: seq<CleanPost>, key: CleanPost -> Option<K>, k: K, ks: seq<K>)
    requires k !in ks
    ensures var all, one, others := TotalOf(PostsKeyedIn(posts, key, [k] + ks)), TotalOf(PostsWithKey(posts, key, k)),
                                    TotalOf(PostsKeyedIn(posts, key, ks));
      && all.comments == one.comments + others.comments && all.likes == one.likes + others.likes
      && all.plays == one.plays + others.plays && all.views == one.views + others.views
      && all.posts == one.posts + others.posts
  {
    if posts != [] {
      SplitOffKeyBySum(posts[1..], key, k, ks);
      UnfoldFirst(posts, key, k, ks);
    }
  }

  lemma SplitOffKey<K>(posts: seq<CleanPost>, key: CleanPost -> Option<K>, k: K, ks: seq<K>)
    requires k !in ks
    ensures TotalOf(PostsKeyedIn(posts, key, [k] + ks))
            == TotalOf(PostsWithKey(posts, key, k)).Plus(TotalOf(PostsKeyedIn(posts, key, ks)))
  {
    SplitOffKeyBySum(posts, key, k, ks);
    SameSums(TotalOf(PostsKeyedIn(posts, key, [k] + ks)),
             TotalOf(PostsWithKey(posts, key, k)).Plus(TotalOf(PostsKeyedIn(posts, key, ks))));
  }

  lemma {:induction false} NoKeysNoRows<K>(posts: seq<CleanPost>, key: CleanPost -> Option<K>)
    ensures PostsKeyedIn(posts, key, []) == []
  {
    if posts != [] {
      NoKeysNoRows(posts[1..], key);
    }
  }

  /** With distinct keys, the group totals add up to the totals of the rows keyed by one of them. */
  lemma {:induction false} GroupTotalsAddUp<K>(posts: seq<CleanPost>, key: CleanPost -> Option<K>, ks: seq<K>)
    requires Distinct(ks)
    ensures Sum(GroupTotals(posts, key, ks)) == TotalOf(PostsKeyedIn(posts, key, ks))
  {
    if ks == [] {
      NoKeysNoRows(posts, key);
    } else {
      var rest := ks[1..];
      assert Distinct(rest);
      assert ks == [ks[0]] + rest;
      GroupTotalsAddUp(posts, key, rest);
      SplitOffKey(posts, key, ks[0], rest);
    }
  }

  /** When every present key is one of `ks`, keying by `ks` loses only the rows without a key. */
  lemma {:induction false} KeyedInCoversKeyed<K>(posts: seq<CleanPost>, key: CleanPost -> Option<K>, ks: seq<K>)
    requires forall c :: c in posts && key(c).Some? ==> key(c).value in ks
    ensures PostsKeyedIn(posts, key, ks) == PostsWithAnyKey(posts, key)
  {
    if posts != [] {
      KeyedInCoversKeyed(posts[1..], key, ks);
    }
  }

  /** When every row has a key, no row is left out of the groups. */
  lemma {:induction false} AllKeyed<K>(posts: seq<CleanPost>, key: CleanPost -> Option<K>)
    requires forall c :: c in posts ==> key(c).Some?
    ensures PostsWithAnyKey(posts, key) == posts
  {
    if posts != [] {
      AllKeyed(posts[1..], key);
      assert posts == [posts[0]] + posts[1..];
    }
  }
}
