/**
 * Worked single-input cases of the pipeline: a filled-in Comments value, the two
 * filters that discard a row, and a per-influencer engagement rate over the known subset.
 */
module Scenarios {
  import opened Wrappers
  import opened Posts
  import opened Kpis
  import opened Grouping
  import opened Views
  import Tables
  import Cleaning

  /** A raw row with the given counts and duration, for influencer x1 of type A, posted in December 2022. */
  function Row(comments: Option<int>, likes: Option<int>, plays: int, views: int, duration: real, postId: string): RawPost {
    RawPost(comments, Some("A"), likes, Some(plays), Some(views), "12 2022", "Reel", "Instagram",
            Some(duration), Some("x1"), Some(postId), None)
  }

  /** A row with a missing Comments value is kept, with Comments 0 and the flag set. */
  lemma MissingCommentsAreFilled()
    ensures var out := Cleaning.Clean([Row(None, Some(5), 100, 90, 30.0, "p1")]).posts;
      && |out| == 1
      && out[0].comments == 0 && out[0].unknownComments
      && out[0].likes == 5 && !out[0].unknownLikes
      && out[0].date == Some(Dec2022)
  {
  }

  /** A row longer than three minutes is discarded, and so is absent from every view. */
  lemma LongVideoIsDropped()
    ensures Cleaning.Clean([Row(Some(1), Some(5), 100, 90, 200.0, "p1")]).posts == []
  {
  }

  /** A row with more Views than Plays is discarded. */
  lemma ViewsAbovePlaysIsDropped()
    ensures Cleaning.Clean([Row(Some(1), Some(5), 100, 150, 30.0, "p1")]).posts == []
  {
  }

  /** The two input rows of influencer x1: Likes 10 and missing, Views 50 and 60. */
  function PartlyKnownRows(): seq<RawPost> {
    [Row(Some(0), Some(10), 80, 50, 30.0, "p1"), Row(Some(0), None, 80, 60, 30.0, "p2")]
  }

  /**
   * Both rows survive cleaning; the second has its Likes filled in and flagged, so only the
   * first is in the known subset, and the rate of that row alone is 10 / 50. By
   * `EngagementOfTwoRows`, that is x1's rate in 'Engagement per Influencer', while its
   * Views total in 'Total Values per Influencer' is 50 + 60.
   */
  lemma PartlyKnownRowsAreKept()
    ensures var posts := Cleaning.Clean(PartlyKnownRows()).posts;
      && |posts| == 2
      && posts[0].influencerId == Some("x1") && posts[1].influencerId == Some("x1")
      && posts[0].postId.Some? && posts[1].postId.Some?
      && BothKnown(posts[0]) && !BothKnown(posts[1])
      && posts[0].comments == 0 && posts[0].likes == 10 && posts[0].plays == 80 && posts[0].views == 50
      && posts[1].views == 60
      && EngagementRate(Contribution(posts[0])) == Some(0.2)
  {
    var raw := PartlyKnownRows();
    assert raw[1..][1..] == [];
    var rate := EngagementRate(Totals(0, 10, 80, 50, 1));
    assert rate.Some? && rate.value * 50.0 == 10.0;
  }

  /**
   * Two cleaned rows of one influencer, the first with Likes and Comments known and the
   * second with one of them filled in: the stats row sums both, the engagement row only the
   * first, and the influencer's engagement rate is that of the first row alone.
   */
  lemma EngagementOfTwoRows(posts: seq<CleanPost>, id: string)
    requires |posts| == 2
    requires posts[0].influencerId == Some(id) && posts[1].influencerId == Some(id)
    requires BothKnown(posts[0]) && !BothKnown(posts[1])
    ensures var tables := GroupedDataInfluencer(posts);
      && |tables.stats| == 1 && tables.stats[0].totals.views == posts[0].views + posts[1].views
      && |tables.engagement| == 1 && tables.engagement[0].influencerId == id
      && tables.engagement[0].totals == Contribution(posts[0])
      && tables.engagement[0].engagementRate == EngagementRate(Contribution(posts[0]))
  {
    var c1, c2 := posts[0], posts[1];
    assert posts == [c1, c2];
    assert posts[..1] == [c1] && [c1][..0] == [];
    assert posts[1..] == [c2] && [c2][1..] == [] && [c1][1..] == [];
    assert Tables.Filter([c2], BothKnown) == [];
    assert KnownSubset(posts) == [c1];
    assert Tables.ObservedKeys([c1], IdOf) == [id];
    assert Tables.ObservedKeys(posts, IdOf) == [id];
    assert PostsWithKey([], IdOf, id) == [];
    assert PostsOf([c2], id) == [c2];
    assert PostsOf(posts, id) == [c1, c2];
    assert TotalOf([c2]).views == c2.views;
    assert PostsOf([c1], id) == [c1];
    var tables := GroupedDataInfluencer(posts);
    assert tables.stats[0] == StatsOf(posts, id);
    assert tables.engagement[0] == EngagementOf([c1], id);
  }
}
