/**
 * The three grouped views: `grouped_data_brand`, `grouped_data_date` and
 * `grouped_data_influencer` (its per-influencer totals and averages, and its
 * per-influencer engagement table over the known subset).
 */
module Views {
  import opened Wrappers
  import opened Posts
  import opened Tables
  import opened Kpis
  import opened Grouping
  import Cleaning

  function TypeOf(c: CleanPost): Option<string> { c.influencerType }
  function MonthOfPost(c: CleanPost): Option<Month> { c.date }
  function IdOf(c: CleanPost): Option<string> { c.influencerId }

  /** A row of a grouped table: the key, the four summed columns and 'Total number of posts'. */
  datatype Group<K> = Group(key: K, totals: Totals)

  function Label<K>(ks: seq<K>, ts: seq<Totals>): seq<Group<K>>
    requires |ks| == |ts|
  {
    seq(|ks|, i requires 0 <= i < |ks| => Group(ks[i], ts[i]))
  }

  /** The summed columns of a grouped table, row by row. */
  function TotalsColumn<K>(gs: seq<Group<K>>): seq<Totals> {
    seq(|gs|, i requires 0 <= i < |gs| => gs[i].totals)
  }

  // ---------------------------------------------------------------- brand

  /**
   * `grouped_data_brand`: one row per Influencer Type category. The categories were fixed
   * before filtering, so a category whose rows were all filtered out still gets a row, with zeros.
   */
  function GroupedDataBrand(t: CleanTable): (g: seq<Group<string>>)
    ensures |g| == |t.influencerTypes|
    ensures forall i :: 0 <= i < |g| ==>
              g[i].key == t.influencerTypes[i] && g[i].totals == TotalOf(PostsWithKey(t.posts, TypeOf, g[i].key))
  {
    Label(t.influencerTypes, GroupTotals(t.posts, TypeOf, t.influencerTypes))
  }

  /**
   * The brand rows add up to the totals of the cleaned rows that have an Influencer Type;
   * when every row has one, to the `total_kpis` figures, and the post counts to the row count.
   */
  lemma BrandTotalsAddUp(raw: seq<RawPost>)
    ensures var t := Cleaning.Clean(raw);
      var s := Sum(TotalsColumn(GroupedDataBrand(t)));
      && s == TotalOf(PostsWithAnyKey(t.posts, TypeOf))
      && ((forall c :: c in t.posts ==> c.influencerType.Some?) ==>
            var k := TotalKpis(t.posts);
            && s.comments == k.totalComments && s.likes == k.totalLikes
            && s.plays == k.totalPlays && s.views == k.totalViews)
      && ((forall c :: c in t.posts ==> c.influencerType.Some? && c.postId.Some?) ==> s.posts == |t.posts|)
  {
    var t := Cleaning.Clean(raw);
    var ks := t.influencerTypes;
    var ts := GroupTotals(t.posts, TypeOf, ks);
    assert TotalsColumn(GroupedDataBrand(t)) == ts;
    GroupTotalsAddUp(t.posts, TypeOf, ks);
    Cleaning.TypesAreCategories(raw);
    KeyedInCoversKeyed(t.posts, TypeOf, ks);
    if forall c :: c in t.posts ==> c.influencerType.Some? {
      AllKeyed(t.posts, TypeOf);
      if forall c :: c in t.posts ==> c.postId.Some? {
        PostCountIsRowCount(t.posts);
      }
    }
  }

  // ---------------------------------------------------------------- date

  /** The Date categories in their declared order. */
  const DateCategories: seq<Month> := [Dec2022, Jan2023]

  /** `grouped_data_date`: one row per Date category, in the declared order, both always present. */
  function GroupedDataDate(posts: seq<CleanPost>): (g: seq<Group<Month>>)
    ensures |g| == 2 && g[0].key == Dec2022 && g[1].key == Jan2023
    ensures forall i :: 0 <= i < |g| ==> g[i].totals == TotalOf(PostsWithKey(posts, MonthOfPost, g[i].key))
  {
    Label(DateCategories, GroupTotals(posts, MonthOfPost, DateCategories))
  }

  /** The two date rows together hold the totals of the rows with a Date bucket. */
  lemma DatedRowsAddUp(posts: seq<CleanPost>)
    ensures Sum(TotalsColumn(GroupedDataDate(posts))) == TotalOf(PostsWithAnyKey(posts, MonthOfPost))
  {
    var ts := GroupTotals(posts, MonthOfPost, DateCategories);
    assert TotalsColumn(GroupedDataDate(posts)) == ts;
    GroupTotalsAddUp(posts, MonthOfPost, DateCategories);
    forall c | c in posts && MonthOfPost(c).Some? ensures MonthOfPost(c).value in DateCategories {
      match c.date.value
      case Dec2022 => assert DateCategories[0] == Dec2022;
      case Jan2023 => assert DateCategories[1] == Jan2023;
    }
    KeyedInCoversKeyed(posts, MonthOfPost, DateCategories);
  }

  /**
   * The date rows add up to the totals of the cleaned rows with a Date bucket (a row whose
   * Date was neither label has none and is in no group); when every row has one, to the
   * `total_kpis` figures, and the post counts to the row count.
   */
  lemma DateTotalsAddUp(posts: seq<CleanPost>)
    ensures var s := Sum(TotalsColumn(GroupedDataDate(posts)));
      && s == TotalOf(PostsWithAnyKey(posts, MonthOfPost))
      && ((forall c :: c in posts ==> c.date.Some?) ==>
            var k := TotalKpis(posts);
            && s.comments == k.totalComments && s.likes == k.totalLikes
            && s.plays == k.totalPlays && s.views == k.totalViews)
      && ((forall c :: c in posts ==> c.date.Some? && c.postId.Some?) ==> s.posts == |posts|)
  {
    DatedRowsAddUp(posts);
    if forall c :: c in posts ==> c.date.Some? {
      AllKeyed(posts, MonthOfPost);
      if forall c :: c in posts ==> c.postId.Some? {
        PostCountIsRowCount(posts);
      }
    }
  }

  // ---------------------------------------------------------------- influencer

  /** A row of 'Total Values per Influencer' (the follower mean and deviation are not modelled). */
  datatype InfluencerStats = InfluencerStats(
    influencerId: string,
    totals: Totals,
    averageComments: real,
    averageLikes: real,
    averagePlays: real,
    averageViews: real,
    influencerType: Option<string>,
    averageVideoDuration: real)

  /** A row of 'Engagement per Influencer' (the follower mean is not modelled). */
  datatype InfluencerEngagement = InfluencerEngagement(
    influencerId: string,
    totals: Totals,
    influencerType: Option<string>,
    averageVideoDuration: real,
    engagementRate: Option<real>)

  /** The two tables `grouped_data_influencer` returns. */
  datatype InfluencerTables = InfluencerTables(stats: seq<InfluencerStats>, engagement: seq<InfluencerEngagement>)

  function DurationSum(posts: seq<CleanPost>): real {
    if posts == [] then 0.0 else posts[0].videoDuration + DurationSum(posts[1..])
  }

  /** `'Influencer Type': 'first'`: the first Influencer Type of the group that is present. */
  function FirstType(posts: seq<CleanPost>): (t: Option<string>)
    ensures t.None? <==> forall c :: c in posts ==> c.influencerType.None?
    ensures t.Some? ==> exists i :: 0 <= i < |posts| && posts[i].influencerType == t &&
                                    forall j :: 0 <= j < i ==> posts[j].influencerType.None?
  {
    if posts == [] then None
    else if posts[0].influencerType.Some? then posts[0].influencerType
    else
      var t := FirstType(posts[1..]);
      assert forall j :: 1 <= j < |posts| ==> posts[j] == posts[1..][j - 1];
      t
  }

  /** Arithmetic mean of `n` values that add up to `sum`. */
  function Mean(sum: real, n: nat): (m: real)
    requires n > 0
    ensures m * n as real == sum
  {
    sum / n as real
  }

  /** The rows of one influencer. */
  function PostsOf(posts: seq<CleanPost>, id: string): seq<CleanPost> {
    PostsWithKey(posts, IdOf, id)
  }

  /** The 'Total Values per Influencer' row of an influencer that has rows. */
  function StatsOf(posts: seq<CleanPost>, id: string): (s: InfluencerStats)
    requires exists i :: 0 <= i < |posts| && IdOf(posts[i]) == Some(id)
    ensures s.influencerId == id
    ensures s.totals.posts <= |PostsOf(posts, id)|
  {
    var g := PostsOf(posts, id);
    var n := |g|;
    assert n > 0 by {
      var i :| 0 <= i < |posts| && IdOf(posts[i]) == Some(id);
      assert posts[i] in g;
    }
    var t := TotalOf(g);
    InfluencerStats(id, t, Mean(t.comments as real, n), Mean(t.likes as real, n),
                    Mean(t.plays as real, n), Mean(t.views as real, n),
                    FirstType(g), Mean(DurationSum(g), n))
  }

  /** The 'Engagement per Influencer' row of an influencer that has known-subset rows. */
  function EngagementOf(known: seq<CleanPost>, id: string): (e: InfluencerEngagement)
    requires exists i :: 0 <= i < |known| && IdOf(known[i]) == Some(id)
    ensures e.influencerId == id
    ensures e.engagementRate.None? <==> e.totals.views == 0
  {
    var g := PostsOf(known, id);
    var n := |g|;
    assert n > 0 by {
      var i :| 0 <= i < |known| && IdOf(known[i]) == Some(id);
      assert known[i] in g;
    }
    var t := TotalOf(g);
    InfluencerEngagement(id, t, FirstType(g), Mean(DurationSum(g), n), EngagementRate(t))
  }

  /**
   * `grouped_data_influencer`: per influencer, the totals and averages over all its rows, and
   * the totals and engagement rate over its known-subset rows only. Rows without an Influencer
   * ID are in no group.
   */
  function GroupedDataInfluencer(posts: seq<CleanPost>): (r: InfluencerTables)
    ensures var ids := ObservedKeys(posts, IdOf);
      |r.stats| == |ids| && forall i :: 0 <= i < |ids| ==> r.stats[i].influencerId == ids[i]
    ensures var ids := ObservedKeys(KnownSubset(posts), IdOf);
      |r.engagement| == |ids| && forall i :: 0 <= i < |ids| ==> r.engagement[i].influencerId == ids[i]
  {
    var ids := ObservedKeys(posts, IdOf);
    var known := KnownSubset(posts);
    var knownIds := ObservedKeys(known, IdOf);
    InfluencerTables(
      seq(|ids|, i requires 0 <= i < |ids| => StatsOf(posts, ids[i])),
      seq(|knownIds|, i requires 0 <= i < |knownIds| => EngagementOf(known, knownIds[i])))
  }

  function StatsColumn(ss: seq<InfluencerStats>): seq<Totals> {
    seq(|ss|, i requires 0 <= i < |ss| => ss[i].totals)
  }

  function EngagementColumn(es: seq<InfluencerEngagement>): seq<Totals> {
    seq(|es|, i requires 0 <= i < |es| => es[i].totals)
  }

  /** 'Total Values per Influencer' has one row for each Influencer ID present, and no other. */
  lemma InfluencerRowsAreObservedIds(posts: seq<CleanPost>)
    ensures var ss := GroupedDataInfluencer(posts).stats;
      && (forall id :: (exists i :: 0 <= i < |ss| && ss[i].influencerId == id) <==>
                       (exists c :: c in posts && c.influencerId == Some(id)))
      && (forall i, j :: 0 <= i < j < |ss| ==> ss[i].influencerId != ss[j].influencerId)
  {
    var ss := GroupedDataInfluencer(posts).stats;
    var ids := ObservedKeys(posts, IdOf);
    forall id ensures (exists i :: 0 <= i < |ss| && ss[i].influencerId == id) <==>
                      (exists c :: c in posts && c.influencerId == Some(id))
    {
      if exists c :: c in posts && c.influencerId == Some(id) {
        var c :| c in posts && c.influencerId == Some(id);
        var j :| 0 <= j < |posts| && posts[j] == c;
        assert IdOf(posts[j]) == Some(id);
        var i :| 0 <= i < |ids| && ids[i] == id;
        assert ss[i].influencerId == id;
      }
      if exists i :: 0 <= i < |ss| && ss[i].influencerId == id {
        var i :| 0 <= i < |ss| && ss[i].influencerId == id;
        assert ids[i] in ids;
        var j :| 0 <= j < |posts| && IdOf(posts[j]) == Some(id);
        assert posts[j] in posts;
      }
    }
  }

  /**
   * The influencer rows add up to the totals of the cleaned rows with an Influencer ID; when
   * every row has one, to the `total_kpis` figures, and the post counts to the row count.
   */
  lemma InfluencerTotalsAddUp(posts: seq<CleanPost>)
    ensures var s := Sum(StatsColumn(GroupedDataInfluencer(posts).stats));
      && s == TotalOf(PostsWithAnyKey(posts, IdOf))
      && ((forall c :: c in posts ==> c.influencerId.Some?) ==>
            var k := TotalKpis(posts);
            && s.comments == k.totalComments && s.likes == k.totalLikes
            && s.plays == k.totalPlays && s.views == k.totalViews)
      && ((forall c :: c in posts ==> c.influencerId.Some? && c.postId.Some?) ==> s.posts == |posts|)
  {
    var ids := ObservedKeys(posts, IdOf);
    var ts := GroupTotals(posts, IdOf, ids);
    assert StatsColumn(GroupedDataInfluencer(posts).stats) == ts;
    GroupTotalsAddUp(posts, IdOf, ids);
    forall c | c in posts && IdOf(c).Some? ensures IdOf(c).value in ids {
      var j :| 0 <= j < |posts| && posts[j] == c;
      assert IdOf(posts[j]) == Some(IdOf(c).value);
    }
    KeyedInCoversKeyed(posts, IdOf, ids);
    if forall c :: c in posts ==> c.influencerId.Some? {
      AllKeyed(posts, IdOf);
      if forall c :: c in posts ==> c.postId.Some? {
        PostCountIsRowCount(posts);
      }
    }
  }

  /** The engagement table has a row exactly for each influencer with at least one known-subset row. */
  lemma EngagementRowsAreKnownIds(posts: seq<CleanPost>)
    ensures var es := GroupedDataInfluencer(posts).engagement;
      forall id :: (exists i :: 0 <= i < |es| && es[i].influencerId == id) <==>
                   (exists c :: c in posts && !c.unknownLikes && !c.unknownComments && c.influencerId == Some(id))
  {
    var es := GroupedDataInfluencer(posts).engagement;
    var known := KnownSubset(posts);
    var ids := ObservedKeys(known, IdOf);
    forall id ensures (exists i :: 0 <= i < |es| && es[i].influencerId == id) <==>
                      (exists c :: c in posts && !c.unknownLikes && !c.unknownComments && c.influencerId == Some(id))
    {
      if exists c :: c in posts && !c.unknownLikes && !c.unknownComments && c.influencerId == Some(id) {
        var c :| c in posts && !c.unknownLikes && !c.unknownComments && c.influencerId == Some(id);
        assert c in known;
        var j :| 0 <= j < |known| && known[j] == c;
        assert IdOf(known[j]) == Some(id);
        var i :| 0 <= i < |ids| && ids[i] == id;
        assert es[i].influencerId == id;
      }
      if exists i :: 0 <= i < |es| && es[i].influencerId == id {
        var i :| 0 <= i < |es| && es[i].influencerId == id;
        assert ids[i] in ids;
        var j :| 0 <= j < |known| && IdOf(known[j]) == Some(id);
        assert known[j] in known;
      }
    }
  }

  /**
   * When every known-subset row has an Influencer ID, the engagement table's totals add up to
   * the known-subset totals, so the global rate of `total_kpis` is the rate of those sums.
   */
  lemma EngagementAgreesWithGlobalRate(posts: seq<CleanPost>)
    requires forall c :: c in posts && !c.unknownLikes && !c.unknownComments ==> c.influencerId.Some?
    ensures Sum(EngagementColumn(GroupedDataInfluencer(posts).engagement)) == TotalOf(KnownSubset(posts))
    ensures TotalKpis(posts).engagementRate == EngagementRate(Sum(EngagementColumn(GroupedDataInfluencer(posts).engagement)))
  {
    var known := KnownSubset(posts);
    var ids := ObservedKeys(known, IdOf);
    var ts := GroupTotals(known, IdOf, ids);
    assert EngagementColumn(GroupedDataInfluencer(posts).engagement) == ts;
    GroupTotalsAddUp(known, IdOf, ids);
    forall c | c in known && IdOf(c).Some? ensures IdOf(c).value in ids {
      var j :| 0 <= j < |known| && known[j] == c;
      assert IdOf(known[j]) == Some(IdOf(c).value);
    }
    KeyedInCoversKeyed(known, IdOf, ids);
    AllKeyed(known, IdOf);
  }

  // ------------------------------------------------ influencer rows against the input

  /** The input rows of one influencer, in input order. */
  function RawRowsOf(raw: seq<RawPost>, id: string): seq<RawPost> {
    if raw == [] then []
    else (if raw[0].influencerId == Some(id) then [raw[0]] else []) + RawRowsOf(raw[1..], id)
  }

  /** How many input rows cleaning retains. */
  function RetainedCount(raw: seq<RawPost>): nat {
    if raw == [] then 0
    else (if Cleaning.Retained(raw[0]) then 1 else 0) + RetainedCount(raw[1..])
  }

  /** The Video Duration sum over the input rows cleaning retains. */
  function RetainedDuration(raw: seq<RawPost>): real {
    if raw == [] then 0.0
    else if Cleaning.Retained(raw[0]) then raw[0].videoDuration.value + RetainedDuration(raw[1..])
    else RetainedDuration(raw[1..])
  }

  /** The Influencer Type of the first retained input row that has one. */
  function FirstRetainedType(raw: seq<RawPost>): Option<string> {
    if raw == [] then None
    else if Cleaning.Retained(raw[0]) && raw[0].influencerType.Some? then raw[0].influencerType
    else FirstRetainedType(raw[1..])
  }

  /** The input rows whose Comments and Likes are both present. */
  function KnownRaw(raw: seq<RawPost>): seq<RawPost> {
    if raw == [] then []
    else (if raw[0].comments.Some? && raw[0].likes.Some? then [raw[0]] else []) + KnownRaw(raw[1..])
  }

  /** The known subset of the cleaned rows is the cleaned form of the input rows with both counts present. */
  lemma {:induction false} KnownSubsetOfClean(raw: seq<RawPost>)
    ensures KnownSubset(Cleaning.CleanPosts(raw)) == Cleaning.CleanPosts(KnownRaw(raw))
  {
    if raw != [] {
      KnownSubsetOfClean(raw[1..]);
      var r := raw[0];
      var rest := Cleaning.CleanPosts(raw[1..]);
      var known := Filter(rest, BothKnown);
      var mine := KnownRaw(raw[1..]);
      if r.comments.Some? && r.likes.Some? {
        assert KnownRaw(raw) == [r] + mine;
        assert ([r] + mine)[1..] == mine;
      } else {
        assert KnownRaw(raw) == mine;
      }
      if Cleaning.Retained(r) {
        var c := Cleaning.Impute(Cleaning.Encode(r));
        assert Cleaning.CleanPosts(raw) == [c] + rest;
        assert ([c] + rest)[1..] == rest;
        if BothKnown(c) {
          assert Filter([c] + rest, BothKnown) == [c] + known;
          assert ([c] + known)[1..] == known;
        } else {
          assert Filter([c] + rest, BothKnown) == known;
        }
      } else {
        assert Cleaning.CleanPosts(raw) == rest;
      }
    }
  }

  /** The cleaned rows of one influencer are the cleaned form of its input rows. */
  lemma {:induction false} CleanRowsOfInfluencer(raw: seq<RawPost>, id: string)
    ensures PostsOf(Cleaning.CleanPosts(raw), id) == Cleaning.CleanPosts(RawRowsOf(raw, id))
  {
    if raw != [] {
      CleanRowsOfInfluencer(raw[1..], id);
      var r := raw[0];
      var rest := Cleaning.CleanPosts(raw[1..]);
      var mine := RawRowsOf(raw[1..], id);
      if Cleaning.Retained(r) {
        var c := Cleaning.Impute(Cleaning.Encode(r));
        assert Cleaning.CleanPosts(raw) == [c] + rest;
        assert ([c] + rest)[1..] == rest;
        if r.influencerId == Some(id) {
          assert RawRowsOf(raw, id) == [r] + mine;
          assert ([r] + mine)[1..] == mine;
        } else {
          assert RawRowsOf(raw, id) == mine;
        }
      } else {
        assert Cleaning.CleanPosts(raw) == rest;
        if r.influencerId == Some(id) {
          assert RawRowsOf(raw, id) == [r] + mine;
          assert ([r] + mine)[1..] == mine;
        } else {
          assert RawRowsOf(raw, id) == mine;
        }
      }
    }
  }

  /** Taking one influencer's rows and taking the known subset can be done in either order. */
  lemma {:induction false} KnownRowsOfInfluencer(posts: seq<CleanPost>, id: string)
    ensures PostsOf(KnownSubset(posts), id) == KnownSubset(PostsOf(posts, id))
  {
    if posts != [] {
      KnownRowsOfInfluencer(posts[1..], id);
      var c := posts[0];
      var known := Filter(posts[1..], BothKnown);
      var mine := PostsOf(posts[1..], id);
      if BothKnown(c) {
        assert KnownSubset(posts) == [c] + known;
        assert ([c] + known)[1..] == known;
      } else {
        assert KnownSubset(posts) == known;
      }
      if IdOf(c) == Some(id) {
        assert PostsOf(posts, id) == [c] + mine;
        assert ([c] + mine)[1..] == mine;
      } else {
        assert PostsOf(posts, id) == mine;
      }
    }
  }

  /** Cleaning keeps exactly the retained rows. */
  lemma {:induction false} CleanRowCount(raw: seq<RawPost>)
    ensures |Cleaning.CleanPosts(raw)| == RetainedCount(raw)
  {
    if raw != [] {
      CleanRowCount(raw[1..]);
    }
  }

  /** The cleaned durations add up to the durations of the retained input rows. */
  lemma {:induction false} CleanDurationSum(raw: seq<RawPost>)
    ensures DurationSum(Cleaning.CleanPosts(raw)) == RetainedDuration(raw)
  {
    if raw != [] {
      CleanDurationSum(raw[1..]);
      var rest := Cleaning.CleanPosts(raw[1..]);
      if Cleaning.Retained(raw[0]) {
        var c := Cleaning.Impute(Cleaning.Encode(raw[0]));
        assert Cleaning.CleanPosts(raw) == [c] + rest;
        assert ([c] + rest)[1..] == rest;
      } else {
        assert Cleaning.CleanPosts(raw) == rest;
      }
    }
  }

  /** The first type present among the cleaned rows is that of the first retained input row with one. */
  lemma {:induction false} CleanFirstType(raw: seq<RawPost>)
    ensures FirstType(Cleaning.CleanPosts(raw)) == FirstRetainedType(raw)
  {
    if raw != [] {
      CleanFirstType(raw[1..]);
      var rest := Cleaning.CleanPosts(raw[1..]);
      if Cleaning.Retained(raw[0]) {
        var c := Cleaning.Impute(Cleaning.Encode(raw[0]));
        assert Cleaning.CleanPosts(raw) == [c] + rest;
        assert ([c] + rest)[1..] == rest;
      } else {
        assert Cleaning.CleanPosts(raw) == rest;
      }
    }
  }

  /**
   * A 'Total Values per Influencer' row summarises that influencer's input rows: it has some,
   * its totals are the sums of their present values over the retained ones, each average is
   * that sum over the number retained, and its type is the first one a retained row has.
   */
  ghost predicate SummarisesInput(raw: seq<RawPost>, s: InfluencerStats) {
    var rows := RawRowsOf(raw, s.influencerId);
    var n := RetainedCount(rows);
    var sums := RetainedSums(rows, false);
    && n > 0
    && s.totals == sums
    && s.averageComments == Mean(sums.comments as real, n)
    && s.averageLikes == Mean(sums.likes as real, n)
    && s.averagePlays == Mean(sums.plays as real, n)
    && s.averageViews == Mean(sums.views as real, n)
    && s.averageVideoDuration == Mean(RetainedDuration(rows), n)
    && s.influencerType == FirstRetainedType(rows)
  }

  lemma StatsOfInput(raw: seq<RawPost>, id: string)
    requires var posts := Cleaning.CleanPosts(raw); exists i :: 0 <= i < |posts| && IdOf(posts[i]) == Some(id)
    ensures StatsOf(Cleaning.CleanPosts(raw), id).influencerId == id
    ensures SummarisesInput(raw, StatsOf(Cleaning.CleanPosts(raw), id))
  {
    var rows := RawRowsOf(raw, id);
    CleanRowsOfInfluencer(raw, id);
    CleanSumsAreRetainedSums(rows);
    CleanRowCount(rows);
    CleanDurationSum(rows);
    CleanFirstType(rows);
  }

  /** Every 'Total Values per Influencer' row summarises its influencer's input rows. */
  lemma InfluencerStatsFromInput(raw: seq<RawPost>)
    ensures var ss := GroupedDataInfluencer(Cleaning.CleanPosts(raw)).stats;
      forall i :: 0 <= i < |ss| ==> SummarisesInput(raw, ss[i])
  {
    var posts := Cleaning.CleanPosts(raw);
    var ss := GroupedDataInfluencer(posts).stats;
    var ids := ObservedKeys(posts, IdOf);
    forall i | 0 <= i < |ss| ensures SummarisesInput(raw, ss[i]) {
      assert ids[i] in ids;
      StatsOfInput(raw, ids[i]);
    }
  }

  /**
   * An 'Engagement per Influencer' row takes its totals over exactly the retained input rows
   * of that influencer whose Comments and Likes were both present (it has some), its rate from
   * those sums, its average duration over those rows, and its type from the first of them that has one.
   */
  ghost predicate EngagementFromKnownInput(raw: seq<RawPost>, e: InfluencerEngagement) {
    var rows := RawRowsOf(raw, e.influencerId);
    var known := KnownRaw(rows);
    var n := RetainedCount(known);
    var sums := RetainedSums(rows, true);
    && n > 0
    && e.totals == sums
    && e.engagementRate == EngagementRate(sums)
    && e.averageVideoDuration == Mean(RetainedDuration(known), n)
    && e.influencerType == FirstRetainedType(known)
  }

  lemma EngagementOfInput(raw: seq<RawPost>, id: string)
    requires var known := KnownSubset(Cleaning.CleanPosts(raw));
      exists i :: 0 <= i < |known| && IdOf(known[i]) == Some(id)
    ensures EngagementOf(KnownSubset(Cleaning.CleanPosts(raw)), id).influencerId == id
    ensures EngagementFromKnownInput(raw, EngagementOf(KnownSubset(Cleaning.CleanPosts(raw)), id))
  {
    var rows := RawRowsOf(raw, id);
    KnownRowsOfInfluencer(Cleaning.CleanPosts(raw), id);
    CleanRowsOfInfluencer(raw, id);
    KnownSumsAreRetainedSums(rows);
    KnownSubsetOfClean(rows);
    var known := KnownRaw(rows);
    CleanRowCount(known);
    CleanDurationSum(known);
    CleanFirstType(known);
  }

  /** Every 'Engagement per Influencer' row is computed from its influencer's known input rows only. */
  lemma InfluencerEngagementFromInput(raw: seq<RawPost>)
    ensures var es := GroupedDataInfluencer(Cleaning.CleanPosts(raw)).engagement;
      forall i :: 0 <= i < |es| ==> EngagementFromKnownInput(raw, es[i])
  {
    var known := KnownSubset(Cleaning.CleanPosts(raw));
    var es := GroupedDataInfluencer(Cleaning.CleanPosts(raw)).engagement;
    var ids := ObservedKeys(known, IdOf);
    forall i | 0 <= i < |es| ensures EngagementFromKnownInput(raw, es[i]) {
      var id := ids[i];
      assert id in ids;
      assert es[i] == EngagementOf(known, id);
      EngagementOfInput(raw, id);
    }
  }
}
