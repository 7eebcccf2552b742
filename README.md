# Influencer Reels dataset: cleaning and KPI aggregation, modelled in Dafny

This project models the data core of the Instagram Reels dashboard in
`Data_Cleaning_Representation/plot_functions.py`. The core has five parts.

- **`clean_data`** converts the column types and drops Post Type and Social Channel. It then applies three row filters:
  - Video Duration at most 180 s;
  - Views and Plays both present;
  - Views at most Plays.

  Finally it records, in two flag columns, where Comments and Likes were missing, and fills those cells with 0.
- **`total_kpis`** returns the four column sums and the global engagement rate, (Comments + Likes) / Views. The rate is computed over the *known subset*: the rows whose Likes and Comments were both present.
- **`grouped_data_influencer`** returns two tables:
  - per Influencer ID: sums, means, post count, first Influencer Type and mean video duration;
  - per Influencer ID over the known subset only: sums and engagement rate.
- **`grouped_data_brand`** returns sums and post counts per Influencer Type.
- **`grouped_data_date`** returns sums and post counts per Date bucket.

Rows are datatypes (`Posts`). A missing cell is `Option.None`. A data-frame filter is an order-keeping `Filter` over a sequence (`Tables`).

`clean_data` rebinds `data` step by step. It is therefore an imperative method, `Cleaning.CleanData`, proved against a one-pass reference definition, `Cleaning.Clean`. The aggregations only compute values, so they are functions (`Kpis`, `Grouping`, `Views`).

The model follows these pandas semantics:

- **Comparisons with a missing value are false.** A row without a Video Duration is dropped by the 180 s filter.
- **`groupby` leaves out rows whose key is missing.** The Date categorical maps any text other than `"12 2022"` or `"1 2023"` to missing, so such a row is in no date group.
- **Categoricals are grouped with `observed=False`.** Every category gets a row, even one left with no posts. The Influencer Type categories are fixed *before* filtering (line 14), so the cleaned table carries them (`CleanTable.influencerTypes`). A type whose posts were all filtered out still has a brand row, with zeros.
- **`'Post ID': 'count'` counts only present Post IDs.**
- **`'first'` takes the first present value.**

`Scenarios` works through four concrete cases:

- a missing Comments value is filled and flagged;
- a 200 s video is dropped;
- a row with 150 views and 100 plays is dropped;
- an influencer with Likes {10, missing} and Views {50, 60} gets an engagement rate of 10 / 50.

## Model

| member | source | states |
|---|---|---|
| `Tables.Filter` | Data_Cleaning_Representation/plot_functions.py:26-32 | Boolean-mask selection keeps exactly the rows the mask accepts, never more rows than it was given. |
| `Tables.FilterCounts` | Data_Cleaning_Representation/plot_functions.py:26-32 | The mask keeps every accepted row as many times as it occurs in the input, and no rejected row. |
| `Tables.FilterConcat` | Data_Cleaning_Representation/plot_functions.py:26-32 | Filtering is row-local: filtering a concatenation is concatenating the filtered parts. |
| `Tables.ObservedKeys` | Data_Cleaning_Representation/plot_functions.py:14 | The categories of a column are distinct, and a value is among them exactly when some row has it as a present value. |
| `Cleaning.MonthOf` | Data_Cleaning_Representation/plot_functions.py:20 | The Date text "12 2022" gives December 2022, "1 2023" gives January 2023, and exactly those texts give a bucket. |
| `Cleaning.Encode` | Data_Cleaning_Representation/plot_functions.py:13-23 | A converted row passes the three filters exactly when its raw row meets the cleaning rules. |
| `Cleaning.EncodeAll` | Data_Cleaning_Representation/plot_functions.py:13-23 | The conversions and the column drop keep the number of rows, and convert each row on its own. |
| `Cleaning.Impute` | Data_Cleaning_Representation/plot_functions.py:37-40 | Each flag is true exactly when its count was missing. A missing count becomes 0 and a present one is kept. Views, Plays and Video Duration are kept. |
| `Cleaning.ImputeAll` | Data_Cleaning_Representation/plot_functions.py:37-40 | The flag-and-fill step keeps the number of rows. |
| `Cleaning.CleanPosts` | Data_Cleaning_Representation/plot_functions.py:23-40 | The cleaned rows are never more than the input rows, and each has duration at most 180 and Views at most Plays. |
| `Cleaning.Clean` | Data_Cleaning_Representation/plot_functions.py:4-42 | The cleaned table's Influencer Type categories are distinct, and it has no more rows than the input. |
| `Cleaning.CleanData` | Data_Cleaning_Representation/plot_functions.py:4-42 | The step-by-step pipeline returns the reference table. Every kept row has duration at most 180 and Views at most Plays. A flagged Comments or Likes value is 0. No rows are added. |
| `Cleaning.PipelineMatchesReference` | Data_Cleaning_Representation/plot_functions.py:26-40 | The three filters applied in turn, then the fill, give exactly the retained rows, cleaned one at a time, in order. |
| `Cleaning.ImputeAllConcat` | Data_Cleaning_Representation/plot_functions.py:37-40 | The fill is row-local: it distributes over concatenation. |
| `Cleaning.OriginsFrom` | Data_Cleaning_Representation/plot_functions.py:26-32 | The source positions of the kept rows are one per cleaned row, within the input, and strictly increasing. |
| `Cleaning.OriginsPointAtSources` | Data_Cleaning_Representation/plot_functions.py:26-40 | Each cleaned row comes from a raw row that passes all three filters, and is that row cleaned. |
| `Cleaning.OriginsComplete` | Data_Cleaning_Representation/plot_functions.py:26-32 | Every raw row that passes all three filters is kept. |
| `Cleaning.CleanKeepsOrder` | Data_Cleaning_Representation/plot_functions.py:23-40 | Cleaning only removes rows and keeps the order of the rest. Each kept row carries its raw values: the Date bucket of its label, Views, Plays and duration unchanged, each flag true exactly when the value was missing, and 0 in place of a missing count. Nothing that passes the filters is lost. |
| `Cleaning.TypesAreCategories` | Data_Cleaning_Representation/plot_functions.py:14 | Every Influencer Type left after cleaning is one of the categories fixed before filtering. |
| `Kpis.TotalOfConcat` | Data_Cleaning_Representation/plot_functions.py:50-53 | Column sums are additive over concatenation. |
| `Kpis.PostCountIsRowCount` | Data_Cleaning_Representation/plot_functions.py:168 | When every row has a Post ID, the Post ID count equals the number of rows. |
| `Kpis.TotalOf` | Data_Cleaning_Representation/plot_functions.py:50-53 | The Post ID count of a set of rows is at most the number of rows. |
| `Kpis.KnownSubset` | Data_Cleaning_Representation/plot_functions.py:56 | The known subset holds a row exactly when the row is in the table and neither its Likes nor its Comments was filled in. |
| `Kpis.EngagementRate` | Data_Cleaning_Representation/plot_functions.py:57 | The rate is missing exactly when the Views sum is 0. Otherwise the rate times Views equals Comments + Likes. |
| `Kpis.TotalKpis` | Data_Cleaning_Representation/plot_functions.py:46-64 | The rate is missing exactly when the known subset has no Views. Otherwise it times the known Views sum equals the known Comments plus Likes sums. |
| `Kpis.KpisOfCleanedInput` | Data_Cleaning_Representation/plot_functions.py:46-64 | Each `total_kpis` total is the sum of the values present in the retained input rows; a filled-in 0 adds nothing. The engagement rate is taken over exactly the retained rows whose Comments and Likes were both present. |
| `Kpis.CleanSumsAreRetainedSums` | Data_Cleaning_Representation/plot_functions.py:50-53 | The sums over the cleaned table equal the sums taken directly over the retained input rows. |
| `Kpis.KnownSumsAreRetainedSums` | Data_Cleaning_Representation/plot_functions.py:56-57 | The sums over the known subset equal the sums over the retained input rows whose Comments and Likes were both present. |
| `Kpis.RateIgnoresImputedPost` | Data_Cleaning_Representation/plot_functions.py:56-57 | Inserting a row with a filled-in Likes or Comments never changes the engagement rate. It does add its Views to the total. |
| `Kpis.RateWhenAllKnown` | Data_Cleaning_Representation/plot_functions.py:56-57 | With no filled-in values and a non-zero Views sum, the rate is (ΣComments + ΣLikes) / ΣViews over the whole table. |
| `Grouping.PostsWithKey` | Data_Cleaning_Representation/plot_functions.py:162 | A group holds exactly the rows whose key is present and equal to the group's key. |
| `Grouping.GroupCounts` | Data_Cleaning_Representation/plot_functions.py:162 | A group holds each row whose key is the group's key as many times as the table does, and no other row. |
| `Grouping.GroupTotals` | Data_Cleaning_Representation/plot_functions.py:162-169 | There is one totals row per key, in key order, each the column sums of that key's group. |
| `Grouping.SplitOffKey` | Data_Cleaning_Representation/plot_functions.py:162-169 | With a fresh key, the totals of the rows keyed in `[k] + ks` are those of `k`'s group plus those keyed in `ks`. |
| `Grouping.GroupTotalsAddUp` | Data_Cleaning_Representation/plot_functions.py:162-169 | With distinct keys, the group totals add up to the totals of all rows keyed by one of them. |
| `Grouping.KeyedInCoversKeyed` | Data_Cleaning_Representation/plot_functions.py:162 | When the key list holds every present key, grouping by it loses only the rows with a missing key. |
| `Grouping.AllKeyed` | Data_Cleaning_Representation/plot_functions.py:162 | When every row has a key, no row is left out of the groups. |
| `Views.GroupedDataBrand` | Data_Cleaning_Representation/plot_functions.py:153-180 | There is one row per Influencer Type category, in category order, each with the sums of the cleaned rows of that type. |
| `Views.BrandTotalsAddUp` | Data_Cleaning_Representation/plot_functions.py:153-180 | The per-brand rows add up to the totals of the cleaned rows that have an Influencer Type. If every row has one, they match `total_kpis`, and if every row also has a Post ID, the post counts add up to the row count. |
| `Views.GroupedDataDate` | Data_Cleaning_Representation/plot_functions.py:183-211 | The date table always has exactly two rows, December 2022 then January 2023, in the declared order of the Date categorical (line 20). Each row holds the sums and Post ID count of exactly the cleaned rows in its own month. |
| `Views.DatedRowsAddUp` | Data_Cleaning_Representation/plot_functions.py:192-199 | The two date rows together hold the totals of the cleaned rows that have a Date bucket. |
| `Views.DateTotalsAddUp` | Data_Cleaning_Representation/plot_functions.py:183-211 | The per-date rows add up to the totals of the cleaned rows with a Date bucket. If every row has one, they match `total_kpis`, and the post counts add up to the row count. |
| `Views.FirstType` | Data_Cleaning_Representation/plot_functions.py:88 | The result is missing exactly when no row has an Influencer Type. Otherwise it is the type of the first row that has one. |
| `Views.Mean` | Data_Cleaning_Representation/plot_functions.py:82-85 | A mean of n values times n gives back their sum. |
| `Views.InfluencerRowsAreObservedIds` | Data_Cleaning_Representation/plot_functions.py:71-90 | 'Total Values per Influencer' has one row for each Influencer ID present in the cleaned table, for no other ID, and no ID twice. |
| `Views.StatsOf` | Data_Cleaning_Representation/plot_functions.py:80-90 | The stats row of an influencer carries its ID, and its post count is at most its number of rows. |
| `Views.EngagementOf` | Data_Cleaning_Representation/plot_functions.py:120-144 | The engagement row of an influencer carries its ID, and its rate is missing exactly when its Views total is 0. |
| `Views.GroupedDataInfluencer` | Data_Cleaning_Representation/plot_functions.py:67-149 | The stats table has one row per Influencer ID present, in first-appearance order. The engagement table has one row per Influencer ID present in the known subset. |
| `Views.KnownSubsetOfClean` | Data_Cleaning_Representation/plot_functions.py:110 | The known subset of the cleaned rows is the cleaned form of the input rows whose Comments and Likes were both present. |
| `Views.CleanRowsOfInfluencer` | Data_Cleaning_Representation/plot_functions.py:23-40 | The cleaned rows of one influencer are the cleaned form of that influencer's input rows. |
| `Views.KnownRowsOfInfluencer` | Data_Cleaning_Representation/plot_functions.py:110 | Taking an influencer's rows and taking the known subset commute. |
| `Views.CleanRowCount` | Data_Cleaning_Representation/plot_functions.py:26-32 | The number of cleaned rows is the number of input rows that meet the three cleaning rules. |
| `Views.CleanDurationSum` | Data_Cleaning_Representation/plot_functions.py:89 | The cleaned Video Durations add up to the durations of the retained input rows. |
| `Views.CleanFirstType` | Data_Cleaning_Representation/plot_functions.py:88 | The first Influencer Type among the cleaned rows is the first one among the retained input rows. |
| `Views.StatsOfInput` | Data_Cleaning_Representation/plot_functions.py:80-90 | An influencer's stats row is built from its input rows: it has retained rows, its totals are the sums of their present values, each average is that sum over their number, and its type is the first one a retained row has. |
| `Views.InfluencerStatsFromInput` | Data_Cleaning_Representation/plot_functions.py:67-107 | Every 'Total Values per Influencer' row summarises its influencer's retained input rows in that way. |
| `Views.InfluencerTotalsAddUp` | Data_Cleaning_Representation/plot_functions.py:80-86 | The per-influencer totals add up to the totals of the cleaned rows with an Influencer ID. If every row has one, they match `total_kpis`, and the post counts add up to the row count. |
| `Views.EngagementRowsAreKnownIds` | Data_Cleaning_Representation/plot_functions.py:110-130 | 'Engagement per Influencer' has a row exactly for each influencer with at least one row whose Likes and Comments were both present. |
| `Views.EngagementOfInput` | Data_Cleaning_Representation/plot_functions.py:110-144 | An influencer's engagement row comes from its retained input rows whose Comments and Likes were both present, and it has some. Its totals are their sums and its rate is the rate of those sums. Its average duration is their duration sum over their number, and its type is the first one among them. |
| `Views.InfluencerEngagementFromInput` | Data_Cleaning_Representation/plot_functions.py:109-144 | Every 'Engagement per Influencer' row is computed in that way from its influencer's known input rows only: totals, rate, average duration and type. |
| `Views.EngagementAgreesWithGlobalRate` | Data_Cleaning_Representation/plot_functions.py:56-57 | When every known-subset row has an Influencer ID, the engagement rows add up to the known-subset totals. The global rate is the rate of that sum. |
| `Scenarios.MissingCommentsAreFilled` | Data_Cleaning_Representation/plot_functions.py:37-38 | A row with missing Comments, 90 views and 100 plays is kept, with Comments 0 and the flag set. |
| `Scenarios.LongVideoIsDropped` | Data_Cleaning_Representation/plot_functions.py:26 | A 200 s video is dropped. |
| `Scenarios.ViewsAbovePlaysIsDropped` | Data_Cleaning_Representation/plot_functions.py:32 | A row with 150 views and 100 plays is dropped. |
| `Scenarios.PartlyKnownRowsAreKept` | Data_Cleaning_Representation/plot_functions.py:37-40 | Both x1 rows survive cleaning, and only the first is in the known subset. That row's engagement rate is 10 / 50 = 0.2. |
| `Scenarios.EngagementOfTwoRows` | Data_Cleaning_Representation/plot_functions.py:110-144 | For two rows of one influencer, only the first of them known, the stats row sums the Views of both. The engagement row sums the first alone and takes its rate. |

## Left out

- Reading the CSV file (lines 8-10) is not modelled. Neither is the main block (lines 216-254), which only prints results. The input is the sequence of raw rows. `app.py` (the dashboard) is not part of this model.
- The `Int64` conversions (lines 13, 15-17) raise an error on a non-integer cell. The model takes the counts as already whole numbers or missing, so that failure is not modelled.
- The follower columns are carried through cleaning but not aggregated. Their mean and standard deviation are left out of both influencer tables, because they are floating-point statistics.
- Sums are unbounded integers. pandas' 64-bit `Int64` sums could overflow, which the model does not capture. Means and the engagement rate are exact reals, not floating point.
- Kpis.EngagementRate: the source divides without a guard. A zero Views sum gives infinity or NaN there; here it gives no rate (`None`). This applies to `total_kpis` when the known subset has no Views, and to an influencer whose known rows have no Views.
- Tables.Filter and Grouping.PostsWithKey: their own contracts state membership only; the row counts are stated by Tables.FilterCounts and Grouping.GroupCounts, because stating them on the functions made the proofs that use them too costly for the solver.
- Tables.ObservedKeys: the model lists categories and group keys in order of first appearance, whereas pandas lists them sorted. The brand and influencer tables therefore hold the same rows as pandas', but possibly in a different order.
- Views.GroupedDataDate and Views.BrandTotalsAddUp assume the `observed=False` grouping of categoricals (the default before pandas 3). With `observed=True`, empty categories would have no row.
- The grouped sums equal the `total_kpis` sums only when every row has the grouping key. In the general case the lemmas state the equality with the keyed rows only, because `groupby` drops rows with a missing key.
- Scenarios.PartlyKnownRowsAreKept and Scenarios.EngagementOfTwoRows state the x1 example in two steps: the cleaned rows of the concrete input, then the influencer tables of any such pair of rows. A single concrete statement over both was too costly for the solver.
