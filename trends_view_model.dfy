/** The state of the trends page and the commands that change it. */
module ViewModels {
  import opened DailyModels
  import opened Ordering
  import opened Trends

  /** One step of the fetch command's log, in order: a call into one of its
      services, or an assignment to IsFetchingData. */
  datatype Effect =
    | ReviewRequested
    | IsFetchingDataSet(value: bool)
    | ViewStatisticsRequested(owner: string, name: string)
    | CloneStatisticsRequested(owner: string, name: string)
    | ErrorReported

  /** The default visibility of each series, read from the chart settings
      when the page is built. */
  datatype ChartSettings = ChartSettings(
    shouldShowViewsByDefault: bool,
    shouldShowUniqueViewsByDefault: bool,
    shouldShowClonesByDefault: bool,
    shouldShowUniqueClonesByDefault: bool)

  class TrendsViewModel {
    var isFetchingData: bool
    var isChartEmpty: bool
    var isViewsSeriesVisible: bool
    var isUniqueViewsSeriesVisible: bool
    var isClonesSeriesVisible: bool
    var isUniqueClonesSeriesVisible: bool
    /** The numbers the four statistics texts are formatted from; None while
        the texts still hold their initial empty string. */
    var statistics: Option<Totals>
    var dailyViewsList: seq<DailyViews>
    var dailyClonesList: seq<DailyClones>

    /** The chart's lower bound, fixed at 0. */
    const dailyViewsClonesMinValue: int

    constructor (settings: ChartSettings)
      ensures isFetchingData && isChartEmpty
      ensures dailyViewsList == [] && dailyClonesList == [] && statistics == None
      ensures dailyViewsClonesMinValue == 0
      ensures Visibility() == SeriesVisibility(
        settings.shouldShowViewsByDefault, settings.shouldShowUniqueViewsByDefault,
        settings.shouldShowClonesByDefault, settings.shouldShowUniqueClonesByDefault)
    {
      isFetchingData := true;
      isChartEmpty := true;
      statistics := None;
      dailyViewsList := [];
      dailyClonesList := [];
      dailyViewsClonesMinValue := 0;
      isViewsSeriesVisible := settings.shouldShowViewsByDefault;
      isUniqueViewsSeriesVisible := settings.shouldShowUniqueViewsByDefault;
      isClonesSeriesVisible := settings.shouldShowClonesByDefault;
      isUniqueClonesSeriesVisible := settings.shouldShowUniqueClonesByDefault;
    }

    /** The four series flags as one value. */
    function Visibility(): SeriesVisibility
      reads this
    {
      SeriesVisibility(isViewsSeriesVisible, isUniqueViewsSeriesVisible,
                       isClonesSeriesVisible, isUniqueClonesSeriesVisible)
    }

    method ViewsCardTapped()
      modifies this`isViewsSeriesVisible
      ensures Visibility() == old(Visibility()).Toggled(Views)
    {
      isViewsSeriesVisible := !isViewsSeriesVisible;
    }

    method UniqueViewsCardTapped()
      modifies this`isUniqueViewsSeriesVisible
      ensures Visibility() == old(Visibility()).Toggled(UniqueViews)
    {
      isUniqueViewsSeriesVisible := !isUniqueViewsSeriesVisible;
    }

    method ClonesCardTapped()
      modifies this`isClonesSeriesVisible
      ensures Visibility() == old(Visibility()).Toggled(Clones)
    {
      isClonesSeriesVisible := !isClonesSeriesVisible;
    }

    method UniqueClonesCardTapped()
      modifies this`isUniqueClonesSeriesVisible
      ensures Visibility() == old(Visibility()).Toggled(UniqueClones)
    {
      isUniqueClonesSeriesVisible := !isUniqueClonesSeriesVisible;
    }

    function AreStatisticsVisible(): bool
      reads this
    {
      !isFetchingData
    }

    /** The chart shows only with the statistics. */
    function IsChartVisible(): (r: bool)
      reads this
      ensures r ==> AreStatisticsVisible()
    {
      !isFetchingData && !isChartEmpty
    }

    /** The empty state shows only with the statistics, never with the
        chart, and whenever the statistics show without the chart. */
    function IsEmptyStateVisible(): (r: bool)
      reads this
      ensures r ==> AreStatisticsVisible() && !IsChartVisible()
      ensures AreStatisticsVisible() && !IsChartVisible() ==> r
    {
      !isFetchingData && isChartEmpty
    }

    /** The chart's upper bound over the lists the page currently shows. */
    function DailyViewsClonesMaxValue(): (r: int)
      reads this
      ensures r >= MinimumMaxValue
      ensures forall i :: 0 <= i < |dailyViewsList| ==> dailyViewsList[i].totalViews <= r
      ensures forall i :: 0 <= i < |dailyClonesList| ==> dailyClonesList[i].totalClones <= r
      ensures r == MinimumMaxValue
           || (exists i :: 0 <= i < |dailyViewsList| && dailyViewsList[i].totalViews == r)
           || (exists i :: 0 <= i < |dailyClonesList| && dailyClonesList[i].totalClones == r)
      ensures dailyViewsList == [] && dailyClonesList == [] ==> r == MinimumMaxValue
    {
      ChartMaxValue(dailyViewsList, dailyClonesList)
    }

    /** The IsFetchingData setter. The fetch command writes the flag only
        through it, so the log it extends records each assignment to the
        flag, in order. */
    method SetFetchingData(value: bool, log: seq<Effect>) returns (log': seq<Effect>)
      modifies this`isFetchingData
      ensures isFetchingData == value
      ensures log' == log + [IsFetchingDataSet(value)]
    {
      isFetchingData := value;
      log' := log + [IsFetchingDataSet(value)];
    }

    /** One run of the fetch-data command, with the service's two answers as
        inputs (they are consulted only on a cache miss). Returns the log of
        its service calls and its assignments to IsFetchingData, in order. */
    method ExecuteFetchData(repository: Repository,
                            viewsResponse: Response<seq<DailyViews>>,
                            clonesResponse: Response<seq<DailyClones>>)
      returns (effects: seq<Effect>)
      modifies this`isFetchingData, this`isChartEmpty, this`statistics,
               this`dailyViewsList, this`dailyClonesList
      ensures var r := Resolve(repository, viewsResponse, clonesResponse);
        dailyViewsList == SortViewsByDay(r.views) && dailyClonesList == SortClonesByDay(r.clones)
      ensures statistics == Some(TotalsOf(dailyViewsList, dailyClonesList))
      ensures isChartEmpty == ChartIsEmpty(TotalsOf(dailyViewsList, dailyClonesList))
      ensures !isFetchingData
      // cache hit: no request is issued and IsFetchingData is only cleared
      ensures HasCachedStatistics(repository) ==>
        effects == [ReviewRequested, IsFetchingDataSet(false)]
      // cache miss: both statistics are requested for the same repository
      ensures !HasCachedStatistics(repository) ==>
        effects == [ReviewRequested, IsFetchingDataSet(true),
                    ViewStatisticsRequested(repository.ownerLogin, repository.name),
                    CloneStatisticsRequested(repository.ownerLogin, repository.name)]
                   + (if Resolve(repository, viewsResponse, clonesResponse).failed then [ErrorReported] else [])
                   + [IsFetchingDataSet(false)]
      // either call failing empties both series
      ensures Resolve(repository, viewsResponse, clonesResponse).failed ==>
        dailyViewsList == [] && dailyClonesList == [] && isChartEmpty
    {
      ghost var r := Resolve(repository, viewsResponse, clonesResponse);
      effects := [ReviewRequested];
      var repositoryViews: seq<DailyViews>;
      var repositoryClones: seq<DailyClones>;

      if |repository.dailyClonesList| > 0 && |repository.dailyViewsList| > 0 {
        repositoryViews := repository.dailyViewsList;
        repositoryClones := repository.dailyClonesList;
      } else {
        effects := SetFetchingData(true, effects);
        effects := effects + [ViewStatisticsRequested(repository.ownerLogin, repository.name),
                              CloneStatisticsRequested(repository.ownerLogin, repository.name)];
        if viewsResponse.Ok? && clonesResponse.Ok? {
          repositoryViews := viewsResponse.value;
          repositoryClones := clonesResponse.value;
        } else {
          // the catch block: whichever call threw, both series are dropped
          repositoryViews := [];
          repositoryClones := [];
          effects := effects + [ErrorReported];
        }
        assert effects == [ReviewRequested, IsFetchingDataSet(true),
                           ViewStatisticsRequested(repository.ownerLogin, repository.name),
                           CloneStatisticsRequested(repository.ownerLogin, repository.name)]
                          + (if r.failed then [ErrorReported] else []);
      }

      // the finally block
      effects := SetFetchingData(false, effects);

      assert repositoryViews == r.views && repositoryClones == r.clones;
      PublishStatistics(repositoryViews, repositoryClones);
    }

    /** The tail of the fetch command: publish both series sorted by day,
        their totals, and whether there is anything to plot. */
    method PublishStatistics(repositoryViews: seq<DailyViews>, repositoryClones: seq<DailyClones>)
      modifies this`isChartEmpty, this`statistics, this`dailyViewsList, this`dailyClonesList
      ensures dailyViewsList == SortViewsByDay(repositoryViews)
      ensures dailyClonesList == SortClonesByDay(repositoryClones)
      ensures SortedBy(dailyViewsList, ViewsDay) && SortedBy(dailyClonesList, ClonesDay)
      ensures statistics == Some(TotalsOf(repositoryViews, repositoryClones))
      ensures statistics == Some(TotalsOf(dailyViewsList, dailyClonesList))
      ensures isChartEmpty == ChartIsEmpty(TotalsOf(dailyViewsList, dailyClonesList))
    {
      dailyViewsList := SortViewsByDay(repositoryViews);
      dailyClonesList := SortClonesByDay(repositoryClones);

      var totals := TotalsOf(repositoryViews, repositoryClones);
      statistics := Some(totals);
      isChartEmpty := totals.Sum() < 1;

      TotalsOfSorted(repositoryViews, repositoryClones);
    }
  }

  /** The chart and the empty state are never shown together; once the
      fetch is over exactly one of them is, and the statistics show exactly
      when no fetch is running. */
  lemma VisibilityExclusive(vm: TrendsViewModel)
    ensures !(vm.IsChartVisible() && vm.IsEmptyStateVisible())
    ensures !vm.isFetchingData ==> vm.IsChartVisible() != vm.IsEmptyStateVisible()
    ensures vm.AreStatisticsVisible() == !vm.isFetchingData
    ensures vm.IsChartVisible() || vm.IsEmptyStateVisible() ==> vm.AreStatisticsVisible()
  {
  }

  /** After any fetch the page shows its statistics and exactly one of the
      chart and the empty state: the chart when some day has traffic. */
  method FetchThenShow(vm: TrendsViewModel, repository: Repository,
                       viewsResponse: Response<seq<DailyViews>>,
                       clonesResponse: Response<seq<DailyClones>>)
    modifies vm
    ensures vm.AreStatisticsVisible()
    ensures vm.IsChartVisible() <==>
      !(AllZero(vm.dailyViewsList, TotalViews) && AllZero(vm.dailyViewsList, TotalUniqueViews) &&
        AllZero(vm.dailyClonesList, TotalClones) && AllZero(vm.dailyClonesList, TotalUniqueClones))
    ensures vm.IsEmptyStateVisible() == !vm.IsChartVisible()
  {
    var _ := vm.ExecuteFetchData(repository, viewsResponse, clonesResponse);
    ChartIsEmptyIffNoTraffic(vm.dailyViewsList, vm.dailyClonesList);
  }
}
