/** The pure part of the trends page: which series a fetch uses, the totals
    and emptiness derived from them, the chart's upper bound, and the four
    series-visibility flags. */
module Trends {
  import opened DailyModels
  import opened Ordering

  datatype Option<T> = None | Some(value: T)

  /** A repository as the trends page receives it, possibly with statistics
      already cached from an earlier fetch. */
  datatype Repository = Repository(
    ownerLogin: string,
    name: string,
    dailyViewsList: seq<DailyViews>,
    dailyClonesList: seq<DailyClones>)

  /** What a call into the GitHub service yields: its payload, or an
      exception (network, rate limit, deserialisation — all alike here). */
  datatype Response<T> = Ok(value: T) | Failed

  /** The two series a fetch settles on, and whether the catch path ran. */
  datatype Resolution = Resolution(views: seq<DailyViews>, clones: seq<DailyClones>, failed: bool)

  /** The cache test of the fetch command: both cached lists are non-empty. */
  predicate HasCachedStatistics(repository: Repository)
  {
    |repository.dailyClonesList| > 0 && |repository.dailyViewsList| > 0
  }

  /** The series the fetch command goes on with: the cached ones, the
      fetched ones, or — when either service call throws — two empty ones. */
  function Resolve(repository: Repository, viewsResponse: Response<seq<DailyViews>>,
                   clonesResponse: Response<seq<DailyClones>>): (r: Resolution)
    ensures r.failed <==> !HasCachedStatistics(repository) && (viewsResponse.Failed? || clonesResponse.Failed?)
    ensures r.failed ==> r.views == [] && r.clones == []
  {
    if HasCachedStatistics(repository) then
      Resolution(repository.dailyViewsList, repository.dailyClonesList, false)
    else if viewsResponse.Ok? && clonesResponse.Ok? then
      Resolution(viewsResponse.value, clonesResponse.value, false)
    else
      Resolution([], [], true)
  }

  /** With both lists cached the service's answers play no part. */
  lemma CachedIgnoresResponses(repository: Repository,
                               v1: Response<seq<DailyViews>>, c1: Response<seq<DailyClones>>,
                               v2: Response<seq<DailyViews>>, c2: Response<seq<DailyClones>>)
    requires HasCachedStatistics(repository)
    ensures Resolve(repository, v1, c1) == Resolve(repository, v2, c2)
    ensures Resolve(repository, v1, c1).views == repository.dailyViewsList
    ensures Resolve(repository, v1, c1).clones == repository.dailyClonesList
  {
  }

  /** On a cache miss where both calls return, the returned series are used
      unchanged. */
  lemma FetchedSeriesUsed(repository: Repository, views: seq<DailyViews>, clones: seq<DailyClones>)
    requires !HasCachedStatistics(repository)
    ensures Resolve(repository, Ok(views), Ok(clones)) == Resolution(views, clones, false)
  {
  }

  function SortViewsByDay(s: seq<DailyViews>): seq<DailyViews> { SortBy(s, ViewsDay) }
  function SortClonesByDay(s: seq<DailyClones>): seq<DailyClones> { SortBy(s, ClonesDay) }

  /** The four numbers behind the page's four statistics texts. */
  datatype Totals = Totals(views: nat, uniqueViews: nat, clones: nat, uniqueClones: nat)
  {
    function Sum(): nat { views + uniqueViews + clones + uniqueClones }
  }

  /** The four totals of a fetch; each is at least any single day's count. */
  function TotalsOf(views: seq<DailyViews>, clones: seq<DailyClones>): (r: Totals)
    ensures forall i :: 0 <= i < |views| ==>
      views[i].totalViews <= r.views && views[i].totalUniqueViews <= r.uniqueViews
    ensures forall i :: 0 <= i < |clones| ==>
      clones[i].totalClones <= r.clones && clones[i].totalUniqueClones <= r.uniqueClones
  {
    Totals(SumOf(views, TotalViews), SumOf(views, TotalUniqueViews),
           SumOf(clones, TotalClones), SumOf(clones, TotalUniqueClones))
  }

  /** The emptiness test `sum < 1`: with counters that cannot be negative it
      holds exactly when all four totals are zero. */
  function ChartIsEmpty(t: Totals): (r: bool)
    ensures r <==> t.views == 0 && t.uniqueViews == 0 && t.clones == 0 && t.uniqueClones == 0
  {
    t.Sum() < 1
  }

  /** The chart is empty exactly when no day of either series has any
      traffic: zero views, unique views, clones and unique clones. */
  lemma {:induction false} ChartIsEmptyIffNoTraffic(views: seq<DailyViews>, clones: seq<DailyClones>)
    ensures ChartIsEmpty(TotalsOf(views, clones)) <==>
      AllZero(views, TotalViews) && AllZero(views, TotalUniqueViews) &&
      AllZero(clones, TotalClones) && AllZero(clones, TotalUniqueClones)
  {
    SumOfZero(views, TotalViews);
    SumOfZero(views, TotalUniqueViews);
    SumOfZero(clones, TotalClones);
    SumOfZero(clones, TotalUniqueClones);
  }

  /** The totals, taken from the series before sorting, are those of the
      sorted series. */
  lemma {:induction false} TotalsOfSorted(views: seq<DailyViews>, clones: seq<DailyClones>)
    ensures TotalsOf(SortViewsByDay(views), SortClonesByDay(clones)) == TotalsOf(views, clones)
  {
    SortBySum(views, ViewsDay, TotalViews);
    SortBySum(views, ViewsDay, TotalUniqueViews);
    SortBySum(clones, ClonesDay, TotalClones);
    SortBySum(clones, ClonesDay, TotalUniqueClones);
  }

  /** Sorting by day orders the series, keeps its elements, and keeps the
      input order of records that share a day. */
  lemma {:induction false} SortViewsByDayCorrect(s: seq<DailyViews>, day: int)
    ensures SortedBy(SortViewsByDay(s), ViewsDay)
    ensures multiset(SortViewsByDay(s)) == multiset(s)
    ensures WithKey(SortViewsByDay(s), ViewsDay, day) == WithKey(s, ViewsDay, day)
  {
    SortByStable(s, ViewsDay, day);
  }

  lemma {:induction false} SortClonesByDayCorrect(s: seq<DailyClones>, day: int)
    ensures SortedBy(SortClonesByDay(s), ClonesDay)
    ensures multiset(SortClonesByDay(s)) == multiset(s)
    ensures WithKey(SortClonesByDay(s), ClonesDay, day) == WithKey(s, ClonesDay, day)
  {
    SortByStable(s, ClonesDay, day);
  }

  /** The floor of the chart's upper bound. */
  const MinimumMaxValue: int := 20

  /** `DailyViewsClonesMaxValue`: the largest single-day view or clone total,
      0 for an empty series, floored at MinimumMaxValue. */
  function ChartMaxValue(views: seq<DailyViews>, clones: seq<DailyClones>): (r: int)
    ensures r >= MinimumMaxValue
    ensures forall i :: 0 <= i < |views| ==> views[i].totalViews <= r
    ensures forall i :: 0 <= i < |clones| ==> clones[i].totalClones <= r
    ensures r == MinimumMaxValue
         || (exists i :: 0 <= i < |views| && views[i].totalViews == r)
         || (exists i :: 0 <= i < |clones| && clones[i].totalClones == r)
    ensures views == [] && clones == [] ==> r == MinimumMaxValue
  {
    var viewsMax := if |views| > 0 then MaxOf(views, TotalViews) else 0;
    var clonesMax := if |clones| > 0 then MaxOf(clones, TotalClones) else 0;
    var m := if viewsMax >= clonesMax then viewsMax else clonesMax;
    assert |views| > 0 ==> exists i :: 0 <= i < |views| && TotalViews(views[i]) == viewsMax;
    assert |clones| > 0 ==> exists i :: 0 <= i < |clones| && TotalClones(clones[i]) == clonesMax;
    if m >= MinimumMaxValue then m else MinimumMaxValue
  }

  /** Unique counts do not take part in the upper bound: series that agree
      on day totals have the same bound. */
  lemma ChartMaxValueIgnoresUniqueCounts(
    views: seq<DailyViews>, clones: seq<DailyClones>,
    views': seq<DailyViews>, clones': seq<DailyClones>)
    requires |views| == |views'| && |clones| == |clones'|
    requires forall i :: 0 <= i < |views| ==> views[i].totalViews == views'[i].totalViews
    requires forall i :: 0 <= i < |clones| ==> clones[i].totalClones == clones'[i].totalClones
    ensures ChartMaxValue(views, clones) == ChartMaxValue(views', clones')
  {
    // MaxOf's bound-and-attained contract determines the maximum.
  }

  /** The four chart series, one per statistics card. */
  datatype Series = Views | UniqueViews | Clones | UniqueClones

  /** Which series the chart currently draws. */
  datatype SeriesVisibility = SeriesVisibility(views: bool, uniqueViews: bool, clones: bool, uniqueClones: bool)
  {
    function Shows(s: Series): bool
    {
      match s
      case Views => views
      case UniqueViews => uniqueViews
      case Clones => clones
      case UniqueClones => uniqueClones
    }

    /** Tapping the card of `s`: that flag flips, the other three stay. */
    function Toggled(s: Series): (r: SeriesVisibility)
      ensures forall t :: r.Shows(t) == (if t == s then !Shows(t) else Shows(t))
    {
      match s
      case Views => this.(views := !views)
      case UniqueViews => this.(uniqueViews := !uniqueViews)
      case Clones => this.(clones := !clones)
      case UniqueClones => this.(uniqueClones := !uniqueClones)
    }
  }

  /** Two taps on the same card restore the chart. */
  lemma ToggledTwice(v: SeriesVisibility, s: Series)
    ensures v.Toggled(s).Toggled(s) == v
  {
  }

  /** Taps on different cards commute. */
  lemma ToggledCommute(v: SeriesVisibility, s: Series, t: Series)
    ensures v.Toggled(s).Toggled(t) == v.Toggled(t).Toggled(s)
  {
  }

  /** A worked fetch: an uncached repository whose two calls return two days
      of views (2024-01-01 is day 19723) and one day of clones. Every
      single-day count is below 20, so the floor applies. */
  const ScenarioViews := [DailyViews(19723, 10, 4), DailyViews(19724, 5, 2)]
  const ScenarioClones := [DailyClones(19723, 3, 1)]

  lemma FetchScenario()
    ensures Resolve(Repository("octocat", "repo1", [], []), Ok(ScenarioViews), Ok(ScenarioClones))
         == Resolution(ScenarioViews, ScenarioClones, false)
    ensures SortViewsByDay(ScenarioViews) == ScenarioViews
    ensures SortClonesByDay(ScenarioClones) == ScenarioClones
    ensures TotalsOf(ScenarioViews, ScenarioClones) == Totals(15, 6, 3, 1)
    ensures !ChartIsEmpty(TotalsOf(ScenarioViews, ScenarioClones))
    ensures ChartMaxValue(ScenarioViews, ScenarioClones) == 20
  {
    var v0, v1 := ScenarioViews[0], ScenarioViews[1];
    var c0 := ScenarioClones[0];
    assert ScenarioViews[1..] == [v1] && [v1][1..] == [] && ScenarioClones[1..] == [];
    assert SortBy([v1], ViewsDay) == [v1];
    assert SortViewsByDay(ScenarioViews) == Insert(v0, [v1], ViewsDay);
    assert SumOf([v1], TotalViews) == 5 && SumOf([v1], TotalUniqueViews) == 2;
    assert MaxOf([v1], TotalViews) == 5;
  }

  /** Two empty answers: nothing to plot, and the bound is the floor. */
  lemma EmptyFetchScenario(repository: Repository)
    requires !HasCachedStatistics(repository)
    ensures var r := Resolve(repository, Ok([]), Ok([]));
      ChartIsEmpty(TotalsOf(SortViewsByDay(r.views), SortClonesByDay(r.clones)))
      && ChartMaxValue(SortViewsByDay(r.views), SortClonesByDay(r.clones)) == MinimumMaxValue
  {
  }
}
