# GitTrends trends page — a Dafny model

GitTrends is a mobile client that charts the traffic of a developer's GitHub
repositories. Its trends page is driven by `TrendsViewModel`, and this project
models that class's logic:

- the fetch-data command. It uses the repository's cached daily views and
  clones when both lists are non-empty. Otherwise it asks the GitHub service
  for both. If anything in that step throws, it drops both series and
  reports the error. It always clears the "fetching" flag. It then publishes
  both series sorted by day, together with their four totals and whether
  the chart is empty;
- the chart's upper bound: the largest single-day view or clone total,
  floored at 20;
- the three visibility predicates for the statistics, the chart and the
  empty state;
- the four card-tapped commands, each of which flips one series-visibility
  flag;
- the initial state of the page.

Layout:

- `daily_models.dfy` (module `DailyModels`): the `DailyViews` and
  `DailyClones` records. It also holds the LINQ aggregates the page uses:
  `SumOf` for `Sum` and `MaxOf` for `Max`.
- `ordering.dfy` (module `Ordering`): LINQ `OrderBy` on an integer key. It is
  a stable insertion sort and is proved to sort, to permute and to be stable.
- `trends.dfy` (module `Trends`): the pure derivations. These are the cache
  test, the choice of series, the totals, emptiness, the chart bound and the
  series-visibility flags.
- `trends_view_model.dfy` (module `ViewModels`): the class `TrendsViewModel`.
  Its fields mirror the source's fields. The commands are methods with
  field-level `modifies` frames.

The GitHub service is not called. Each of its two answers is an input of
type `Response<T> = Ok(value) | Failed`. The command returns a log
(`seq<Effect>`) of its steps, in order: the review request, each assignment
to `IsFetchingData`, the two statistics requests with the owner and name
they carry, and the error report. The log records assignments, not change
notifications: whether an assignment of an unchanged value notifies the page
is decided by `BaseViewModel`, which is not part of this model.

Behaviour of the code worth knowing:

- A failure on the fetch path empties both series, whichever call threw.
  The catch block wraps the whole try block.
- Records that share a day are all kept, in their input order. The sort is
  stable and nothing is deduplicated ("ascending", not "strictly ascending").
- There is no check for an empty owner or name. There is no ordering
  between overlapping fetch cycles.
- The code tests emptiness as `sum < 1`. The counter types are declared in
  `DailyViewsModel` and `DailyClonesModel`, which are not part of this
  model. The model's counters are naturals, and for them this test is the
  same as "all four totals are zero", which `ChartIsEmpty` proves.

## Model

| member | source | states |
|---|---|---|
| `DailyModels.SumOfZero` | GitTrends/ViewModels/TrendsViewModel.cs:213-216 | a sum of non-negative counters is zero exactly when every record's counter is zero |
| `DailyModels.SumOf` | GitTrends/ViewModels/TrendsViewModel.cs:213-216 | `Sum` over a list of non-negative counters is at least every element's counter |
| `DailyModels.MaxOf` | GitTrends/ViewModels/TrendsViewModel.cs:73-74 | `Max` over a non-empty list bounds every element's selected value and equals one of them |
| `Ordering.Insert` | GitTrends/ViewModels/TrendsViewModel.cs:210-211 | inserting into a sorted list keeps it sorted and adds exactly the one element |
| `Ordering.SortBy` | GitTrends/ViewModels/TrendsViewModel.cs:210-211 | `OrderBy(x => x.Day)` yields a list ascending by key that is a permutation of its input |
| `Ordering.SortByStable` | GitTrends/ViewModels/TrendsViewModel.cs:210-211 | the sort is stable: the records with any given day come out in their input order |
| `Ordering.SortBySum` | GitTrends/ViewModels/TrendsViewModel.cs:210-216 | sorting does not change any sum taken over the list |
| `Trends.Resolve` | GitTrends/ViewModels/TrendsViewModel.cs:170-202 | the catch path runs exactly when the cache test fails and either service call throws, and then both series are empty |
| `Trends.CachedIgnoresResponses` | GitTrends/ViewModels/TrendsViewModel.cs:172-178 | when both cached lists are non-empty the cached lists are used and the service's answers play no part |
| `Trends.FetchedSeriesUsed` | GitTrends/ViewModels/TrendsViewModel.cs:179-193 | on a cache miss where both calls return, the returned series are used unchanged |
| `Trends.TotalsOf` | GitTrends/ViewModels/TrendsViewModel.cs:213-216 | each of the four totals is at least the matching count of every single day |
| `Trends.ChartIsEmpty` | GitTrends/ViewModels/TrendsViewModel.cs:224-226 | the test `sum < 1` holds exactly when all four totals are zero |
| `Trends.ChartIsEmptyIffNoTraffic` | GitTrends/ViewModels/TrendsViewModel.cs:213-226 | the chart is empty exactly when every day of both series has zero views, unique views, clones and unique clones |
| `Trends.TotalsOfSorted` | GitTrends/ViewModels/TrendsViewModel.cs:210-216 | the totals taken from the unsorted series equal those of the published sorted series |
| `Trends.SortViewsByDayCorrect` | GitTrends/ViewModels/TrendsViewModel.cs:210 | the published views list is ascending by day, a permutation of the chosen series, and keeps the input order within each day |
| `Trends.SortClonesByDayCorrect` | GitTrends/ViewModels/TrendsViewModel.cs:211 | the same for the clones list |
| `Trends.ChartMaxValue` | GitTrends/ViewModels/TrendsViewModel.cs:67-78 | the bound is at least 20 and at least every day's views and clones total; it is 20 or some day's total; it is 20 when both lists are empty |
| `Trends.ChartMaxValueIgnoresUniqueCounts` | GitTrends/ViewModels/TrendsViewModel.cs:73-74 | lists that agree on every day's views and clones totals have the same bound, whatever their unique counts |
| `Trends.SeriesVisibility.Toggled` | GitTrends/ViewModels/TrendsViewModel.cs:44-47 | a tap negates its own series flag and leaves the other three unchanged |
| `Trends.ToggledTwice` | GitTrends/ViewModels/TrendsViewModel.cs:44-47 | two taps on the same card restore the flags |
| `Trends.ToggledCommute` | GitTrends/ViewModels/TrendsViewModel.cs:44-47 | taps on different cards commute |
| `Trends.FetchScenario` | GitTrends/ViewModels/TrendsViewModel.cs:210-226 | the example fetch with two view days (10/4 and 5/2) and one clone day (3/1) gives totals 15, 6, 3 and 1, a non-empty chart and the bound 20 |
| `Trends.EmptyFetchScenario` | GitTrends/ViewModels/TrendsViewModel.cs:67-78 | two empty answers give an empty chart and the bound 20 |
| `ViewModels.TrendsViewModel.constructor` | GitTrends/ViewModels/TrendsViewModel.cs:19-42 | the page starts fetching, with an empty chart, empty lists and empty statistics, and with the series flags taken from the chart settings |
| `ViewModels.TrendsViewModel.ViewsCardTapped` | GitTrends/ViewModels/TrendsViewModel.cs:44 | negates the views flag only |
| `ViewModels.TrendsViewModel.UniqueViewsCardTapped` | GitTrends/ViewModels/TrendsViewModel.cs:45 | negates the unique-views flag only |
| `ViewModels.TrendsViewModel.ClonesCardTapped` | GitTrends/ViewModels/TrendsViewModel.cs:46 | negates the clones flag only |
| `ViewModels.TrendsViewModel.UniqueClonesCardTapped` | GitTrends/ViewModels/TrendsViewModel.cs:47 | negates the unique-clones flag only |
| `ViewModels.TrendsViewModel.DailyViewsClonesMaxValue` | GitTrends/ViewModels/TrendsViewModel.cs:67-78 | the bound over the page's current lists has the properties of `ChartMaxValue` |
| `ViewModels.TrendsViewModel.SetFetchingData` | GitTrends/ViewModels/TrendsViewModel.cs:138-147 | the `IsFetchingData` setter assigns the flag and records that assignment in the effect log; the fetch command writes the flag only through it |
| `ViewModels.TrendsViewModel.ExecuteFetchData` | GitTrends/ViewModels/TrendsViewModel.cs:161-231 | the published lists are the chosen series sorted by day, and their totals and emptiness are published with them. The fetching flag ends false. A cache hit issues no request and never sets the flag true. A miss sets the flag true and requests both statistics with the repository's owner and name. A failure reports the error once and leaves both lists empty and the chart empty |
| `ViewModels.TrendsViewModel.PublishStatistics` | GitTrends/ViewModels/TrendsViewModel.cs:210-226 | publishes both series sorted by day. The totals are taken from the unsorted input and equal those of the sorted lists. The chart is empty exactly when they are all zero |
| `ViewModels.TrendsViewModel.IsChartVisible` | GitTrends/ViewModels/TrendsViewModel.cs:62 | the chart shows only when the statistics show, that is when no fetch runs |
| `ViewModels.TrendsViewModel.IsEmptyStateVisible` | GitTrends/ViewModels/TrendsViewModel.cs:63 | the empty state shows exactly when the statistics show and the chart does not |
| `ViewModels.VisibilityExclusive` | GitTrends/ViewModels/TrendsViewModel.cs:61-63 | the chart and the empty state are never visible together. When not fetching exactly one is visible, and the statistics are visible exactly when not fetching |
| `ViewModels.FetchThenShow` | GitTrends/ViewModels/TrendsViewModel.cs:207-226 | after a fetch the statistics are visible. The chart is visible exactly when some day has traffic, and otherwise the empty state is |

## Left out

- The two-second minimum display time (`Task.Delay(2000)`) and the
  concurrent wait on both service calls are timing and concurrency. The
  model keeps only the sequential outcome, in which the flag is cleared at
  the end.
- The GitHub service, the review service and analytics reporting are
  external I/O. Their answers are inputs, and the calls made to them appear
  in the returned effect log.
- `ConvertToAbbreviatedText` and the four statistics strings are left out
  because the formatter is not part of this model. The `statistics` field
  keeps the four numbers the texts are formatted from. `None` stands for
  the initial empty strings.
- `MinDateValue` and `MaxDateValue` are left out. They delegate to
  `DateTimeService`, which is not part of this model, and they involve
  local-time conversion.
- Property-change notifications, `PrintDays` and the debug output are UI
  plumbing.
- The exact types of the records' `Day` and counter fields come from
  `DailyViewsModel` and `DailyClonesModel`, which are not part of this
  model. The day is an integer day number. The counters are unbounded
  naturals, so no overflow is modelled: neither a checked overflow in `Sum`
  nor a wrap-around of the unchecked grand-total addition at
  TrendsViewModel.cs:225, which with fixed-width counters could turn a huge
  total negative and mark the chart empty.
- `DailyViewsClonesMaxValue` and `DailyViewsClonesMinValue` are `double`
  in the source (TrendsViewModel.cs:59, 67). The model uses `int`, which
  agrees with the source's value for every whole count below 2^53.
- The invariant "unique count ≤ total count" is not assumed, because the
  code does not enforce it.
- `ViewModels.TrendsViewModel.ExecuteFetchData`: the cache test at
  TrendsViewModel.cs:172 runs inside the try block. It throws if the
  repository or its clones list is null, or if the clones list is non-empty
  and the views list is null (`&&` does not read the views list when the
  clones list is empty). The catch then empties both series and reports the
  error, as on a failed fetch. The model's repository and
  lists always exist, so that path is not modelled.
- The pages (`ReferringSitesPage`, `RepositoryPage`), the Android host
  activity and the `User` model are UI, host plumbing or a plain data
  object.
