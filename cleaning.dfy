/**
 * `clean_data`: type conversions, the column drop, three row filters, and the
 * missing-value fill with its two provenance flags. Reading the CSV file is not
 * modelled; the raw rows are the input.
 */
module Cleaning {
  import opened Wrappers
  import opened Posts
  import opened Tables

  /** The Date categorical: the two declared labels map to their bucket, any other text to missing. */
  function MonthOf(date: string): (m: Option<Month>)
    ensures m == Some(Dec2022) <==> date == "12 2022"
    ensures m == Some(Jan2023) <==> date == "1 2023"
  {
    if date == "12 2022" then Some(Dec2022)
    else if date == "1 2023" then Some(Jan2023)
    else None
  }

  /** The conversions and the column drop, on one row. */
  function Encode(r: RawPost): (e: Post)
    ensures Retained(r) <==> ShortEnough(e) && HasViewsAndPlays(e) && ViewsWithinPlays(e)
  {
    Post(r.comments, r.influencerType, r.likes, r.plays, r.views, MonthOf(r.date),
         r.videoDuration, r.influencerId, r.postId, r.followers)
  }

  function EncodeAll(raw: seq<RawPost>): (s: seq<Post>)
    ensures |s| == |raw|
    ensures forall i :: 0 <= i < |raw| ==> s[i] == Encode(raw[i])
  {
    if raw == [] then [] else [Encode(raw[0])] + EncodeAll(raw[1..])
  }

  function TypeOfRaw(r: RawPost): Option<string> { r.influencerType }

  /** Video Duration at most 180 s; a missing duration fails the comparison. */
  predicate ShortEnough(p: Post) {
    p.videoDuration.Some? && p.videoDuration.value <= 180.0
  }

  /** Neither Views nor Plays is missing. */
  predicate HasViewsAndPlays(p: Post) {
    p.views.Some? && p.plays.Some?
  }

  /** Views at most Plays; a comparison with a missing value fails. */
  predicate ViewsWithinPlays(p: Post) {
    p.views.Some? && p.plays.Some? && p.views.value <= p.plays.value
  }

  /** The two flag columns, then the fill of Comments and Likes with 0. */
  function Impute(p: Post): (c: CleanPost)
    requires ShortEnough(p) && HasViewsAndPlays(p)
    ensures c.unknownComments <==> p.comments.None?
    ensures c.unknownLikes <==> p.likes.None?
    ensures if c.unknownComments then c.comments == 0 else p.comments == Some(c.comments)
    ensures if c.unknownLikes then c.likes == 0 else p.likes == Some(c.likes)
    ensures p.views == Some(c.views) && p.plays == Some(c.plays) && p.videoDuration == Some(c.videoDuration)
  {
    CleanPost(p.comments.GetOr(0), p.influencerType, p.likes.GetOr(0), p.plays.value, p.views.value,
              p.date, p.videoDuration.value, p.influencerId, p.postId, p.followers,
              p.comments.None?, p.likes.None?)
  }

  function ImputeAll(s: seq<Post>): (c: seq<CleanPost>)
    requires forall p :: p in s ==> ShortEnough(p) && HasViewsAndPlays(p)
    ensures |c| == |s|
  {
    if s == [] then [] else [Impute(s[0])] + ImputeAll(s[1..])
  }

  /** What the three filters together demand of a raw row. */
  predicate Retained(r: RawPost) {
    && r.videoDuration.Some? && r.videoDuration.value <= 180.0
    && r.views.Some? && r.plays.Some? && r.views.value <= r.plays.value
  }

  /** Reference definition of the cleaned rows: one pass, each retained row cleaned on its own. */
  function CleanPosts(raw: seq<RawPost>): (cs: seq<CleanPost>)
    ensures |cs| <= |raw|
    ensures forall c :: c in cs ==> c.videoDuration <= 180.0 && c.views <= c.plays
  {
    if raw == [] then []
    else (if Retained(raw[0]) then [Impute(Encode(raw[0]))] else []) + CleanPosts(raw[1..])
  }

  /** Reference definition of the whole result of `clean_data`. */
  function Clean(raw: seq<RawPost>): (t: CleanTable)
    ensures Distinct(t.influencerTypes)
    ensures |t.posts| <= |raw|
  {
    CleanTable(CleanPosts(raw), ObservedKeys(raw, TypeOfRaw))
  }

  /**
   * `c` is what cleaning makes of `r`: the same post without Post Type and Social Channel,
   * with its Date bucket, with the flags telling whether Comments and Likes were missing,
   * and with 0 in a count that was missing.
   */
  ghost predicate Derives(r: RawPost, c: CleanPost) {
    && c.influencerType == r.influencerType && c.influencerId == r.influencerId
    && c.postId == r.postId && c.followers == r.followers
    && (r.date == "12 2022" ==> c.date == Some(Dec2022))
    && (r.date == "1 2023" ==> c.date == Some(Jan2023))
    && (r.date != "12 2022" && r.date != "1 2023" ==> c.date == None)
    && r.videoDuration == Some(c.videoDuration) && c.videoDuration <= 180.0
    && r.views == Some(c.views) && r.plays == Some(c.plays) && c.views <= c.plays
    && (c.unknownComments <==> r.comments.None?)
    && (c.unknownLikes <==> r.likes.None?)
    && c.comments == (if r.comments.None? then 0 else r.comments.value)
    && c.likes == (if r.likes.None? then 0 else r.likes.value)
  }

  /**
   * `clean_data` as the source runs it: `data` is rebound through the steps in their
   * fixed order, and the result agrees with the one-pass reference.
   */
  method CleanData(raw: seq<RawPost>) returns (table: CleanTable)
    ensures table == Clean(raw)
    ensures forall c :: c in table.posts ==> c.videoDuration <= 180.0 && c.views <= c.plays
    ensures forall c :: c in table.posts ==>
              (c.unknownComments ==> c.comments == 0) && (c.unknownLikes ==> c.likes == 0)
    ensures |table.posts| <= |raw|
  {
    var influencerTypes := ObservedKeys(raw, TypeOfRaw);
    var data := EncodeAll(raw);
    data := Filter(data, ShortEnough);
    data := Filter(data, HasViewsAndPlays);
    data := Filter(data, ViewsWithinPlays);
    var posts := ImputeAll(data);
    table := CleanTable(posts, influencerTypes);
    PipelineMatchesReference(raw);
    CleanKeepsOrder(raw);
  }

  lemma {:induction false} ImputeAllConcat(a: seq<Post>, b: seq<Post>)
    requires forall p :: p in a + b ==> ShortEnough(p) && HasViewsAndPlays(p)
    ensures ImputeAll(a + b) == ImputeAll(a) + ImputeAll(b)
  {
    if a == [] {
      assert a + b == b;
    } else {
      ImputeAllConcat(a[1..], b);
      assert (a + b)[1..] == a[1..] + b;
    }
  }

  /** The chain of filters and the fill compute the reference rows. */
  lemma {:induction false} PipelineMatchesReference(raw: seq<RawPost>)
    ensures ImputeAll(Filter(Filter(Filter(EncodeAll(raw), ShortEnough), HasViewsAndPlays), ViewsWithinPlays))
            == CleanPosts(raw)
  {
    if raw != [] {
      PipelineMatchesReference(raw[1..]);
      var x := Encode(raw[0]);
      var rest := EncodeAll(raw[1..]);
      assert EncodeAll(raw) == [x] + rest;
      FilterConcat([x], rest, ShortEnough);
      var f1 := Filter([x], ShortEnough);
      var r1 := Filter(rest, ShortEnough);
      FilterConcat(f1, r1, HasViewsAndPlays);
      var f2 := Filter(f1, HasViewsAndPlays);
      var r2 := Filter(r1, HasViewsAndPlays);
      FilterConcat(f2, r2, ViewsWithinPlays);
      var f3 := Filter(f2, ViewsWithinPlays);
      var r3 := Filter(r2, ViewsWithinPlays);
      ImputeAllConcat(f3, r3);
      if Retained(raw[0]) {
        assert f3 == [x];
      } else {
        assert f3 == [];
      }
    }
  }

  /** Indices, counted from `lo`, of the rows the filters keep. */
  function OriginsFrom(raw: seq<RawPost>, lo: nat): (idx: seq<nat>)
    ensures |idx| == |CleanPosts(raw)|
    ensures forall i :: 0 <= i < |idx| ==> lo <= idx[i] < lo + |raw|
    ensures forall i, k :: 0 <= i < k < |idx| ==> idx[i] < idx[k]
  {
    if raw == [] then []
    else (if Retained(raw[0]) then [lo] else []) + OriginsFrom(raw[1..], lo + 1)
  }

  /** The `i`-th kept index points at a retained raw row, and the `i`-th cleaned row is made from it. */
  lemma {:induction false} OriginAt(raw: seq<RawPost>, lo: nat, i: nat)
    requires i < |OriginsFrom(raw, lo)|
    ensures Retained(raw[OriginsFrom(raw, lo)[i] - lo])
    ensures CleanPosts(raw)[i] == Impute(Encode(raw[OriginsFrom(raw, lo)[i] - lo]))
  {
    assert raw != [];
    var idx, out := OriginsFrom(raw, lo), CleanPosts(raw);
    var tail, rest := OriginsFrom(raw[1..], lo + 1), CleanPosts(raw[1..]);
    if Retained(raw[0]) && i == 0 {
      assert idx[0] == lo && out[0] == Impute(Encode(raw[0]));
      assert out[i] == Impute(Encode(raw[idx[i] - lo]));
    } else {
      var j := if Retained(raw[0]) then i - 1 else i;
      assert idx[i] == tail[j] && out[i] == rest[j];
      OriginAt(raw[1..], lo + 1, j);
      var x := raw[1..][tail[j] - (lo + 1)];
      assert x == raw[idx[i] - lo];
      assert Retained(x) && rest[j] == Impute(Encode(x));
      assert out[i] == Impute(Encode(raw[idx[i] - lo]));
    }
  }

  /** Each kept index points at a retained raw row, and the cleaned row at that position is made from it. */
  lemma OriginsPointAtSources(raw: seq<RawPost>, lo: nat)
    ensures forall i :: 0 <= i < |OriginsFrom(raw, lo)| ==>
              Retained(raw[OriginsFrom(raw, lo)[i] - lo])
              && CleanPosts(raw)[i] == Impute(Encode(raw[OriginsFrom(raw, lo)[i] - lo]))
  {
    forall i | 0 <= i < |OriginsFrom(raw, lo)|
      ensures Retained(raw[OriginsFrom(raw, lo)[i] - lo])
              && CleanPosts(raw)[i] == Impute(Encode(raw[OriginsFrom(raw, lo)[i] - lo]))
    {
      OriginAt(raw, lo, i);
    }
  }

  /** Every raw row the filters accept has its index among the kept ones. */
  lemma {:induction false} OriginsComplete(raw: seq<RawPost>, lo: nat)
    ensures forall j :: 0 <= j < |raw| && Retained(raw[j]) ==> lo + j in OriginsFrom(raw, lo)
  {
    if raw != [] {
      OriginsComplete(raw[1..], lo + 1);
      var tail := OriginsFrom(raw[1..], lo + 1);
      forall j | 0 <= j < |raw| && Retained(raw[j]) ensures lo + j in OriginsFrom(raw, lo) {
        if j > 0 {
          assert raw[1..][j - 1] == raw[j];
          assert lo + 1 + (j - 1) in tail;
        }
      }
    }
  }

  /**
   * Cleaning only removes rows and keeps the order of the rest: the cleaned rows are
   * the retained raw rows, at increasing positions, each cleaned as `Derives` says;
   * every raw row the filters accept is among them.
   */
  lemma CleanKeepsOrder(raw: seq<RawPost>)
    ensures var idx := OriginsFrom(raw, 0);
      && |idx| == |CleanPosts(raw)|
      && (forall i, k :: 0 <= i < k < |idx| ==> idx[i] < idx[k])
      && (forall i :: 0 <= i < |idx| ==> idx[i] < |raw| && Retained(raw[idx[i]]) && Derives(raw[idx[i]], CleanPosts(raw)[i]))
      && (forall j :: 0 <= j < |raw| && Retained(raw[j]) ==> j in idx)
  {
    OriginsPointAtSources(raw, 0);
    OriginsComplete(raw, 0);
  }

  /** Every Influencer Type value left in the cleaned rows is one of the table's categories. */
  lemma TypesAreCategories(raw: seq<RawPost>)
    ensures forall c :: c in Clean(raw).posts && c.influencerType.Some? ==>
              c.influencerType.value in Clean(raw).influencerTypes
  {
    OriginsPointAtSources(raw, 0);
    var out := CleanPosts(raw);
    var idx := OriginsFrom(raw, 0);
    forall c | c in out && c.influencerType.Some?
      ensures c.influencerType.value in ObservedKeys(raw, TypeOfRaw)
    {
      var i :| 0 <= i < |out| && out[i] == c;
      assert TypeOfRaw(raw[idx[i]]) == Some(c.influencerType.value);
    }
  }
}
