/**
 * The rows of the post table at the three stages of `clean_data`:
 * as read from the CSV export, after the type conversions and the column drop,
 * and after the missing-value handling.
 */
module Posts {
  import opened Wrappers

  /** The two month buckets of the Date column, in their declared (temporal) order. */
  datatype Month = Dec2022 | Jan2023

  /**
   * One line of the export, every column present. The four count columns are already
   * whole numbers or missing (the `Int64` conversion); Date is still the literal text.
   */
  datatype RawPost = RawPost(
    comments: Option<int>,
    influencerType: Option<string>,
    likes: Option<int>,
    plays: Option<int>,
    views: Option<int>,
    date: string,
    postType: string,
    socialChannel: string,
    videoDuration: Option<real>,
    influencerId: Option<string>,
    postId: Option<string>,
    followers: Option<real>)

  /** A row after the conversions: Date encoded as a month bucket, Post Type and Social Channel dropped. */
  datatype Post = Post(
    comments: Option<int>,
    influencerType: Option<string>,
    likes: Option<int>,
    plays: Option<int>,
    views: Option<int>,
    date: Option<Month>,
    videoDuration: Option<real>,
    influencerId: Option<string>,
    postId: Option<string>,
    followers: Option<real>)

  /**
   * A row of the cleaned table. Plays, Views and Video Duration are known (the filters
   * dropped every row where they were not); Comments and Likes were filled with 0 where
   * missing, and the two flags record where that happened.
   */
  datatype CleanPost = CleanPost(
    comments: int,
    influencerType: Option<string>,
    likes: int,
    plays: int,
    views: int,
    date: Option<Month>,
    videoDuration: real,
    influencerId: Option<string>,
    postId: Option<string>,
    followers: Option<real>,
    unknownComments: bool,
    unknownLikes: bool)

  /**
   * The data frame `clean_data` returns: its rows, and the categories of its
   * Influencer Type column, which were fixed before any row was filtered out.
   */
  datatype CleanTable = CleanTable(posts: seq<CleanPost>, influencerTypes: seq<string>)
}
