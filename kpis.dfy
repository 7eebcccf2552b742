/** Column sums over the cleaned table, the engagement rate, and `total_kpis`. */
module Kpis {
  import opened Wrappers
  import opened Posts
  import opened Tables
  import Cleaning

  /** The summed columns of a set of rows: Comments, Likes, Plays, Views, and the count of Post IDs. */
  datatype Totals = Totals(comments: int, likes: int, plays: int, views: int, posts: nat) {
    function Plus(o: Totals): Totals {
      Totals(comments + o.comments, likes + o.likes, plays + o.plays, views + o.views, posts + o.posts)
    }
  }

  function Zero(): Totals { Totals(0, 0, 0, 0, 0) }

  /** One row's share of the sums; `'Post ID': 'count'` counts only ids that are present. */
  function Contribution(c: CleanPost): Totals {
    Totals(c.comments, c.likes, c.plays, c.views, if c.postId.Some? then 1 else 0)
  }

  /** The column sums over a sequence of rows. */
  function TotalOf(posts: seq<CleanPost>): (t: Totals)
    ensures t.posts <= |posts|
  {
    if posts == [] then Zero() else Contribution(posts[0]).Plus(TotalOf(posts[1..]))
  }

  lemma PlusAssociative(x: Totals, y: Totals, z: Totals)
    ensures x.Plus(y).Plus(z) == x.Plus(y.Plus(z))
  {
  }

  lemma {:induction false} TotalOfConcat(a: seq<CleanPost>, b: seq<CleanPost>)
    ensures TotalOf(a + b) == TotalOf(a).Plus(TotalOf(b))
  {
    if a == [] {
      assert a + b == b;
    } else {
      var ab := a + b;
      assert ab != [];
      assert ab[0] == a[0];
      assert ab[1..] == a[1..] + b;
      assert TotalOf(ab) == Contribution(a[0]).Plus(TotalOf(ab[1..]));
      TotalOfConcat(a[1..], b);
      PlusAssociative(Contribution(a[0]), TotalOf(a[1..]), TotalOf(b));
    }
  }

  /** If every row has a Post ID, the Post ID count is the number of rows. */
  lemma {:induction false} PostCountIsRowCount(posts: seq<CleanPost>)
    requires forall c :: c in posts ==> c.postId.Some?
    ensures TotalOf(posts).posts == |posts|
  {
    if posts != [] {
      PostCountIsRowCount(posts[1..]);
    }
  }

  /** Neither Likes nor Comments was filled in. */
  predicate BothKnown(c: CleanPost) {
    !c.unknownLikes && !c.unknownComments
  }

  /** The known subset: the rows whose Likes and Comments were both present in the input. */
  function KnownSubset(posts: seq<CleanPost>): (known: seq<CleanPost>)
    ensures forall c :: c in known <==> c in posts && !c.unknownLikes && !c.unknownComments
  {
    Filter(posts, BothKnown)
  }

  /**
   * (Comments + Likes) / Views over the summed rows. The source divides without a guard;
   * here a zero Views sum gives no rate instead of an infinite or NaN one.
   */
  function EngagementRate(t: Totals): (rate: Option<real>)
    ensures rate.None? <==> t.views == 0
    ensures rate.Some? ==> rate.value * (t.views as real) == (t.comments + t.likes) as real
  {
    if t.views == 0 then None else Some((t.comments + t.likes) as real / t.views as real)
  }

  /** The result of `total_kpis`. */
  datatype Kpis = Kpis(totalComments: int, totalLikes: int, totalPlays: int, totalViews: int,
                       engagementRate: Option<real>)

  function TotalKpis(posts: seq<CleanPost>): (k: Kpis)
    ensures k.engagementRate.None? <==> TotalOf(KnownSubset(posts)).views == 0
    ensures var t := TotalOf(KnownSubset(posts));
      k.engagementRate.Some? ==> k.engagementRate.value * t.views as real == (t.comments + t.likes) as real
  {
    var all := TotalOf(posts);
    Kpis(all.comments, all.likes, all.plays, all.views, EngagementRate(TotalOf(KnownSubset(posts))))
  }

  /**
   * Sums taken directly over the input rows that cleaning retains, of the values that were
   * present there; with `knownOnly`, only over the rows where both Comments and Likes were present.
   */
  function RetainedSums(raw: seq<RawPost>, knownOnly: bool): Totals {
    if raw == [] then Zero()
    else
      var r := raw[0];
      if Cleaning.Retained(r) && (!knownOnly || (r.comments.Some? && r.likes.Some?)) then
        Totals(if r.comments.Some? then r.comments.value else 0,
               if r.likes.Some? then r.likes.value else 0,
               r.plays.value, r.views.value,
               if r.postId.Some? then 1 else 0).Plus(RetainedSums(raw[1..], knownOnly))
      else RetainedSums(raw[1..], knownOnly)
  }

  lemma {:induction false} CleanSumsAreRetainedSums(raw: seq<RawPost>)
    ensures TotalOf(Cleaning.CleanPosts(raw)) == RetainedSums(raw, false)
  {
    if raw != [] {
      CleanSumsAreRetainedSums(raw[1..]);
      var head := if Cleaning.Retained(raw[0]) then [Cleaning.Impute(Cleaning.Encode(raw[0]))] else [];
      var rest := Cleaning.CleanPosts(raw[1..]);
      assert Cleaning.CleanPosts(raw) == head + rest;
      TotalOfConcat(head, rest);
      if head != [] {
        assert head[1..] == [];
      }
    }
  }

  lemma {:induction false} KnownSumsAreRetainedSums(raw: seq<RawPost>)
    ensures TotalOf(KnownSubset(Cleaning.CleanPosts(raw))) == RetainedSums(raw, true)
  {
    if raw != [] {
      KnownSumsAreRetainedSums(raw[1..]);
      var rest := Cleaning.CleanPosts(raw[1..]);
      var known := Filter(rest, BothKnown);
      if Cleaning.Retained(raw[0]) {
        var c := Cleaning.Impute(Cleaning.Encode(raw[0]));
        assert Cleaning.CleanPosts(raw) == [c] + rest;
        assert ([c] + rest)[1..] == rest;
        if BothKnown(c) {
          assert Filter([c] + rest, BothKnown) == [c] + known;
          assert ([c] + known)[1..] == known;
        } else {
          assert Filter([c] + rest, BothKnown) == known;
        }
      } else {
        assert Cleaning.CleanPosts(raw) == rest;
      }
    }
  }

  /**
   * `total_kpis` in terms of the input: each total is the sum of the values present in the
   * retained rows (a filled-in 0 adds nothing), and the engagement rate is taken over the
   * retained rows whose Comments and Likes were both present, and over no other row.
   */
  lemma KpisOfCleanedInput(raw: seq<RawPost>)
    ensures var k := TotalKpis(Cleaning.CleanPosts(raw));
      var all := RetainedSums(raw, false);
      && k.totalComments == all.comments && k.totalLikes == all.likes
      && k.totalPlays == all.plays && k.totalViews == all.views
      && k.engagementRate == EngagementRate(RetainedSums(raw, true))
  {
    CleanSumsAreRetainedSums(raw);
    KnownSumsAreRetainedSums(raw);
  }

  /** A row with a filled-in Likes or Comments changes the totals but never the engagement rate. */
  lemma RateIgnoresImputedPost(a: seq<CleanPost>, u: CleanPost, b: seq<CleanPost>)
    requires u.unknownLikes || u.unknownComments
    ensures TotalKpis(a + [u] + b).engagementRate == TotalKpis(a + b).engagementRate
    ensures TotalKpis(a + [u] + b).totalViews == TotalKpis(a + b).totalViews + u.views
  {
    var au := a + [u];
    FilterConcat(au, b, BothKnown);
    FilterConcat(a, [u], BothKnown);
    FilterConcat(a, b, BothKnown);
    assert [u][1..] == [];
    assert Filter([u], BothKnown) == [];
    assert Filter(au, BothKnown) == Filter(a, BothKnown);
    assert KnownSubset(au + b) == KnownSubset(a + b);
    TotalOfConcat(au, b);
    TotalOfConcat(a, [u]);
    TotalOfConcat(a, b);
    assert TotalOf([u]) == Contribution(u).Plus(TotalOf([u][1..]));
  }

  /** On a table without filled-in values, the rate is (ΣComments + ΣLikes) / ΣViews over all of it. */
  lemma RateWhenAllKnown(posts: seq<CleanPost>)
    requires forall c :: c in posts ==> !c.unknownLikes && !c.unknownComments
    requires TotalOf(posts).views != 0
    ensures TotalKpis(posts).engagementRate ==
            Some((TotalOf(posts).comments + TotalOf(posts).likes) as real / TotalOf(posts).views as real)
  {
    FilterKeepsAll(posts, BothKnown);
  }
}
