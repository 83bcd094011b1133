/**
 * The paged history screen (app/dailyActivities.tsx): the request parameters
 * built from the filters, the list replaced or extended by each page, the
 * load-more guard, and the filter handlers.
 */
module History {
  import opened Js
  import opened Catalog
  import opened DailyQuery

  /** The page size the screen always asks for. */
  const PAGE_SIZE := 20

  datatype Filters = Filters(projectId: string, activityId: string, subActivityId: string, search: string)

  /** The optional entry `...(value && { key: value })`. */
  function IfSet(key: string, value: string): seq<Param> {
    if value != "" then [Param(key, Str(value))] else []
  }

  /**
   * A call `loadDailyActivities(page, reset)`, with the filters of the render
   * whose callback makes it.
   */
  datatype Load = Load(page: int, reset: bool, filters: Filters)

  /** The `params` object of `loadDailyActivities`, in key order. */
  function RequestParams(page: int, filters: Filters): seq<Param> {
    FixedParams(page)
    + IfSet("projectId", filters.projectId) + IfSet("activityId", filters.activityId)
    + IfSet("subActivityId", filters.subActivityId) + SearchParam(filters.search)
  }

  /** The search entry: the trimmed text, only when it is not blank. */
  function SearchParam(search: string): seq<Param> {
    IfSet("search", Trim(search))
  }

  function IfSetPair(key: string, value: string): seq<QueryPair> {
    if value != "" then [QueryPair(key, value)] else []
  }

  lemma {:induction false} QueryAppend(a: seq<Param>, b: seq<Param>)
    ensures Query(a + b) == Query(a) + Query(b)
    decreases |b|
  {
    if b == [] {
      assert a + b == a;
    } else {
      var init := b[..|b| - 1];
      assert (a + b)[..|a + b| - 1] == a + init;
      assert (a + b)[|a + b| - 1] == b[|b| - 1];
      QueryAppend(a, init);
    }
  }

  lemma QueryOfIfSet(key: string, value: string)
    ensures Query(IfSet(key, value)) == IfSetPair(key, value)
  {
    if value != "" {
      assert [Param(key, Str(value))][..0] == [];
    }
  }

  function FixedParams(page: int): seq<Param> {
    [Param("page", Num(page)), Param("limit", Num(PAGE_SIZE)),
     Param("sortBy", Str("updatedAt")), Param("sortOrder", Str("desc"))]
  }

  lemma QueryOfOne(p: Param)
    ensures Query([p]) == if Sent(p.value) then [QueryPair(p.key, Rendered(p.value))] else []
  {
    assert [p][..0] == [];
  }

  lemma FixedQuery(page: int)
    ensures Query(FixedParams(page))
              == [QueryPair("page", IntToString(page)), QueryPair("limit", "20"),
                  QueryPair("sortBy", "updatedAt"), QueryPair("sortOrder", "desc")]
  {
    var a, b := Param("page", Num(page)), Param("limit", Num(PAGE_SIZE));
    var c, d := Param("sortBy", Str("updatedAt")), Param("sortOrder", Str("desc"));
    var pa, pb := QueryPair("page", IntToString(page)), QueryPair("limit", "20");
    var pc, pd := QueryPair("sortBy", "updatedAt"), QueryPair("sortOrder", "desc");
    assert IntToString(PAGE_SIZE) == NatToString(2) + [DigitChar(0)] == "20";
    QueryOfOne(a);
    QueryOfOne(b);
    QueryOfOne(c);
    QueryOfOne(d);
    QueryAppend([a], [b]);
    QueryAppend([a] + [b], [c]);
    QueryAppend([a] + [b] + [c], [d]);
    assert [a, b, c, d] == [a] + [b] + [c] + [d];
    assert [pa, pb, pc, pd] == [pa] + [pb] + [pc] + [pd];
  }

  /**
   * The query the screen sends: the fixed paging and sorting pairs, then each
   * id filter only when set and the search only when it is not blank, trimmed.
   */
  lemma RequestQuery(page: int, filters: Filters)
    ensures Query(RequestParams(page, filters))
              == [QueryPair("page", IntToString(page)), QueryPair("limit", "20"),
                  QueryPair("sortBy", "updatedAt"), QueryPair("sortOrder", "desc")]
                 + IfSetPair("projectId", filters.projectId) + IfSetPair("activityId", filters.activityId)
                 + IfSetPair("subActivityId", filters.subActivityId) + IfSetPair("search", Trim(filters.search))
  {
    var fixed := FixedParams(page);
    var p1, p2 := IfSet("projectId", filters.projectId), IfSet("activityId", filters.activityId);
    var p3, p4 := IfSet("subActivityId", filters.subActivityId), SearchParam(filters.search);
    assert RequestParams(page, filters) == fixed + p1 + p2 + p3 + p4;
    QueryAppend(fixed + p1 + p2 + p3, p4);
    QueryAppend(fixed + p1 + p2, p3);
    QueryAppend(fixed + p1, p2);
    QueryAppend(fixed, p1);
    QueryOfIfSet("projectId", filters.projectId);
    QueryOfIfSet("activityId", filters.activityId);
    QueryOfIfSet("subActivityId", filters.subActivityId);
    QueryOfIfSet("search", Trim(filters.search));
    FixedQuery(page);
  }

  /** A load with a project selected filters by it. */
  lemma ProjectFilterSent(page: int, filters: Filters)
    requires filters.projectId != ""
    ensures QueryPair("projectId", filters.projectId) in Query(RequestParams(page, filters))
  {
    RequestQuery(page, filters);
    assert QueryPair("projectId", filters.projectId) in IfSetPair("projectId", filters.projectId);
  }

  /** A load with every filter cleared sends the paging and sorting pairs only. */
  lemma ClearedFiltersSendPagingOnly(page: int)
    ensures Query(RequestParams(page, Filters("", "", "", "")))
              == [QueryPair("page", IntToString(page)), QueryPair("limit", "20"),
                  QueryPair("sortBy", "updatedAt"), QueryPair("sortOrder", "desc")]
  {
    assert Trim("") == "";
    assert RequestParams(page, Filters("", "", "", "")) == FixedParams(page);
    FixedQuery(page);
  }

  // ---------------------------------------------------------------------------
  // The list

  predicate HasRecordId(list: seq<DailySubActivity>, id: string) {
    exists i :: 0 <= i < |list| && list[i].id == id
  }

  /** `result.data.filter(item => !existingIds.has(item.id))`. */
  function FreshRecords(data: seq<DailySubActivity>, prev: seq<DailySubActivity>): (r: seq<DailySubActivity>)
    ensures IsSubsequence(r, data)
    ensures forall x :: x in r <==> x in data && !HasRecordId(prev, x.id)
    ensures forall x :: multiset(r)[x] == if HasRecordId(prev, x.id) then 0 else multiset(data)[x]
  {
    if data == [] then []
    else
      var rest := FreshRecords(data[1..], prev);
      assert data == [data[0]] + data[1..];
      if HasRecordId(prev, data[0].id) then rest else [data[0]] + rest
  }

  /** The functional update for a later page: the previous list, then the unseen records in page order. */
  function MergePage(prev: seq<DailySubActivity>, data: seq<DailySubActivity>): (r: seq<DailySubActivity>)
    ensures prev <= r
    ensures r[|prev|..] == FreshRecords(data, prev)
  {
    prev + FreshRecords(data, prev)
  }

  /** A page whose records are all known already adds nothing. */
  lemma {:induction false} FreshRecordsOfKnown(data: seq<DailySubActivity>, prev: seq<DailySubActivity>)
    requires forall i :: 0 <= i < |data| ==> HasRecordId(prev, data[i].id)
    ensures FreshRecords(data, prev) == []
    decreases |data|
  {
    if data != [] {
      assert forall i :: 0 <= i < |data[1..]| ==> data[1..][i] == data[i + 1];
      FreshRecordsOfKnown(data[1..], prev);
    }
  }

  /** Receiving the same page twice leaves the list as receiving it once. */
  lemma MergePageTwice(prev: seq<DailySubActivity>, data: seq<DailySubActivity>)
    ensures MergePage(MergePage(prev, data), data) == MergePage(prev, data)
  {
    var merged := MergePage(prev, data);
    forall i | 0 <= i < |data| ensures HasRecordId(merged, data[i].id) {
      if HasRecordId(prev, data[i].id) {
        var k :| 0 <= k < |prev| && prev[k].id == data[i].id;
        assert merged[k] == prev[k];
      } else {
        assert data[i] in FreshRecords(data, prev);
        assert data[i] in merged;
      }
    }
    FreshRecordsOfKnown(data, merged);
  }

  /** Records repeated within one new page are both kept. */
  lemma DuplicatesWithinPageKept(prev: seq<DailySubActivity>, x: DailySubActivity)
    requires !HasRecordId(prev, x.id)
    ensures MergePage(prev, [x, x]) == prev + [x, x]
  {
    assert [x, x][1..] == [x];
    assert [x][1..] == [];
    assert FreshRecords([x], prev) == [x];
    assert FreshRecords([x, x], prev) == [x, x];
  }

  /** The list after a page arrived: replaced on page 1 or a reset, extended otherwise. */
  function ApplyPage(list: seq<DailySubActivity>, page: int, reset: bool, data: seq<DailySubActivity>)
    : (r: seq<DailySubActivity>)
    ensures reset || page == 1 ==> r == data
    ensures !(reset || page == 1) ==> r == MergePage(list, data)
  {
    if reset || page == 1 then data else MergePage(list, data)
  }

  /** The `loadMore` guard: the next page only when there is one and no load-more is in flight. */
  function NextPage(pagination: Option<Pagination>, isLoadingMore: bool): (r: Option<int>)
    ensures r.Some? <==> pagination.Some? && pagination.value.page < pagination.value.totalPages && !isLoadingMore
    ensures r.Some? ==> r.value == pagination.value.page + 1 && r.value <= pagination.value.totalPages
  {
    if pagination.Some? && pagination.value.page < pagination.value.totalPages && !isLoadingMore
    then Some(pagination.value.page + 1)
    else None
  }

  // ---------------------------------------------------------------------------
  // The screen

  class HistoryScreen {
    var dailyActivities: seq<DailySubActivity>
    var projects: seq<Project>
    var activities: seq<Activity>
    var subActivities: seq<SubActivity>
    var selectedProjectId: string
    var selectedActivityId: string
    var selectedSubActivityId: string
    var searchQuery: string
    var pagination: Option<Pagination>
    var isLoadingMore: bool
    var isRefreshing: bool
    /** `currentDataLengthRef`. */
    var currentDataLength: int

    /** The length ref follows the list. */
    predicate Valid()
      reads this
    {
      currentDataLength == |dailyActivities|
    }

    function CurrentFilters(): Filters
      reads this
    {
      Filters(selectedProjectId, selectedActivityId, selectedSubActivityId, searchQuery)
    }

    constructor ()
      ensures Valid() && dailyActivities == [] && projects == [] && activities == [] && subActivities == []
      ensures CurrentFilters() == Filters("", "", "", "") && pagination.None? && !isLoadingMore && !isRefreshing
    {
      dailyActivities, projects, activities, subActivities := [], [], [], [];
      selectedProjectId, selectedActivityId, selectedSubActivityId, searchQuery := "", "", "", "";
      pagination, isLoadingMore, isRefreshing := None, false, false;
      currentDataLength := 0;
    }

    /** `loadProjects`, with the hook's result (`None` for `null`): the list is replaced only on success. */
    method LoadProjects(result: Option<seq<Project>>)
      requires Valid()
      modifies this
      ensures Valid() && CurrentFilters() == old(CurrentFilters())
      ensures projects == if result.Some? then result.value else old(projects)
      ensures activities == old(activities) && subActivities == old(subActivities)
      ensures dailyActivities == old(dailyActivities)
      ensures pagination == old(pagination) && isLoadingMore == old(isLoadingMore) && isRefreshing == old(isRefreshing)
    {
      if result.Some? {
        projects := result.value;
      }
    }

    /** `handleProjectChange`. */
    method OnProjectChange(projectId: string)
      requires Valid()
      modifies this
      ensures Valid()
      ensures CurrentFilters() == Filters(projectId, "", "", old(searchQuery))
      ensures activities == ActivitiesOf(projects, projectId) && subActivities == []
      ensures projects == old(projects) && dailyActivities == old(dailyActivities)
      ensures pagination == old(pagination) && isLoadingMore == old(isLoadingMore) && isRefreshing == old(isRefreshing)
    {
      selectedProjectId := projectId;
      selectedActivityId := "";
      selectedSubActivityId := "";
      if projectId != "" {
        var project := FindProject(projects, projectId);
        activities := if project.Some? then project.value.activities else [];
      } else {
        activities := [];
      }
      subActivities := [];
    }

    /** `handleActivityChange`. */
    method OnActivityChange(activityId: string)
      requires Valid()
      modifies this
      ensures Valid()
      ensures CurrentFilters() == Filters(old(selectedProjectId), activityId, "", old(searchQuery))
      ensures subActivities == SubActivitiesOf(activities, activityId) && activities == old(activities)
      ensures projects == old(projects) && dailyActivities == old(dailyActivities)
      ensures pagination == old(pagination) && isLoadingMore == old(isLoadingMore) && isRefreshing == old(isRefreshing)
    {
      selectedActivityId := activityId;
      selectedSubActivityId := "";
      if activityId != "" {
        var activity := FindActivity(activities, activityId);
        subActivities := if activity.Some? then activity.value.subActivities else [];
      } else {
        subActivities := [];
      }
    }

    /** `handleSubActivityChange`: only its own filter changes. */
    method OnSubActivityChange(subActivityId: string)
      requires Valid()
      modifies this
      ensures Valid()
      ensures CurrentFilters() == old(CurrentFilters()).(subActivityId := subActivityId)
      ensures activities == old(activities) && subActivities == old(subActivities)
      ensures dailyActivities == old(dailyActivities)
      ensures projects == old(projects) && pagination == old(pagination) && isLoadingMore == old(isLoadingMore) && isRefreshing == old(isRefreshing)
    {
      selectedSubActivityId := subActivityId;
    }

    method OnSearchChange(text: string)
      requires Valid()
      modifies this
      ensures Valid()
      ensures CurrentFilters() == old(CurrentFilters()).(search := text)
      ensures activities == old(activities) && subActivities == old(subActivities)
      ensures dailyActivities == old(dailyActivities) && projects == old(projects)
      ensures pagination == old(pagination) && isLoadingMore == old(isLoadingMore) && isRefreshing == old(isRefreshing)
    {
      searchQuery := text;
    }

    /**
     * The synchronous start of `loadDailyActivities(page, reset)`: the
     * load-more flag for anything but the plain first load, and the call,
     * which carries the filters of the current render.
     */
    method StartLoad(page: int, reset: bool) returns (load: Load)
      requires Valid()
      modifies this
      ensures Valid()
      ensures load == Load(page, reset, old(CurrentFilters()))
      ensures isLoadingMore == (old(isLoadingMore) || !(page == 1 && !reset))
      ensures CurrentFilters() == old(CurrentFilters()) && dailyActivities == old(dailyActivities)
      ensures isRefreshing == old(isRefreshing) && pagination == old(pagination)
      ensures activities == old(activities) && subActivities == old(subActivities)
      ensures projects == old(projects)
    {
      if !(page == 1 && !reset) {
        isLoadingMore := true;
      }
      load := Load(page, reset, CurrentFilters());
    }

    /** The rest of `loadDailyActivities`, with the hook's result (`None` for `null`). */
    method FinishLoad(page: int, reset: bool, result: Option<Response>)
      requires Valid()
      modifies this
      ensures Valid()
      ensures result.Some? ==> dailyActivities == ApplyPage(old(dailyActivities), page, reset, result.value.data)
                               && pagination == Some(result.value.pagination)
      ensures result.None? ==> dailyActivities == old(dailyActivities) && pagination == old(pagination)
      ensures !isLoadingMore && !isRefreshing
      ensures CurrentFilters() == old(CurrentFilters())
      ensures projects == old(projects) && activities == old(activities) && subActivities == old(subActivities)
    {
      if result.Some? {
        if reset || page == 1 {
          dailyActivities := result.value.data;
          currentDataLength := |result.value.data|;
        } else {
          var prev := dailyActivities;
          var newTotal := prev + FreshRecords(result.value.data, prev);
          dailyActivities := newTotal;
          currentDataLength := |newTotal|;
        }
        pagination := Some(result.value.pagination);
      }
      isLoadingMore := false;
      isRefreshing := false;
    }

    /** `loadMore`: a call for the next page only when the guard allows it. */
    method LoadMore() returns (request: Option<Load>)
      requires Valid()
      modifies this
      ensures Valid()
      ensures request.Some? <==> NextPage(old(pagination), old(isLoadingMore)).Some?
      ensures request.Some? ==> request.value == Load(old(pagination).value.page + 1, false, CurrentFilters())
                                && isLoadingMore == (request.value.page != 1)
      ensures request.None? ==> isLoadingMore == old(isLoadingMore)
      ensures dailyActivities == old(dailyActivities) && CurrentFilters() == old(CurrentFilters())
      ensures pagination == old(pagination) && isRefreshing == old(isRefreshing)
      ensures projects == old(projects) && activities == old(activities) && subActivities == old(subActivities)
    {
      var next := NextPage(pagination, isLoadingMore);
      if next.Some? {
        var load := StartLoad(next.value, false);
        request := Some(load);
      } else {
        request := None;
      }
    }

    /**
     * The effect keyed on the two load callbacks: on mount and after every
     * filter change the daily-activities callback is new, so the effect runs
     * again. Each run first requests the project catalog (`loadProjects`,
     * whose answer `LoadProjects` applies) and then starts a plain load of
     * page 1 with the filters of the new render.
     */
    method FilterEffect() returns (projectsRequested: bool, load: Load)
      requires Valid()
      modifies this
      ensures Valid()
      ensures projectsRequested
      ensures load == Load(1, false, CurrentFilters())
      ensures isLoadingMore == old(isLoadingMore) && CurrentFilters() == old(CurrentFilters())
      ensures dailyActivities == old(dailyActivities)
      ensures pagination == old(pagination) && isRefreshing == old(isRefreshing)
      ensures projects == old(projects) && activities == old(activities) && subActivities == old(subActivities)
    {
      projectsRequested := true;
      load := StartLoad(1, false);
    }

    /** `applyFilters`: a reset load of page 1 with the current filters. */
    method ApplyFilters() returns (load: Load)
      requires Valid()
      modifies this
      ensures Valid() && isLoadingMore
      ensures load == Load(1, true, CurrentFilters())
      ensures dailyActivities == old(dailyActivities) && CurrentFilters() == old(CurrentFilters())
      ensures pagination == old(pagination) && isRefreshing == old(isRefreshing)
      ensures projects == old(projects) && activities == old(activities) && subActivities == old(subActivities)
    {
      load := StartLoad(1, true);
    }

    /** `onRefresh`: a reset load of page 1. */
    method Refresh() returns (load: Load)
      requires Valid()
      modifies this
      ensures Valid() && isRefreshing && isLoadingMore
      ensures load == Load(1, true, old(CurrentFilters()))
      ensures dailyActivities == old(dailyActivities) && CurrentFilters() == old(CurrentFilters())
      ensures pagination == old(pagination)
      ensures projects == old(projects) && activities == old(activities) && subActivities == old(subActivities)
    {
      isRefreshing := true;
      load := StartLoad(1, true);
    }

    /**
     * `clearFilters`: every filter and both option lists are emptied, and a
     * reset load of page 1 starts through the callback of the render before
     * the clear, so the call still carries the previous filters.
     */
    method ClearFilters() returns (load: Load)
      requires Valid()
      modifies this
      ensures Valid()
      ensures CurrentFilters() == Filters("", "", "", "") && activities == [] && subActivities == []
      ensures load == Load(1, true, old(CurrentFilters())) && isLoadingMore
      ensures dailyActivities == old(dailyActivities)
      ensures pagination == old(pagination) && isRefreshing == old(isRefreshing) && projects == old(projects)
    {
      load := StartLoad(1, true);
      selectedProjectId, selectedActivityId, selectedSubActivityId, searchQuery := "", "", "", "";
      activities, subActivities := [], [];
    }

    /** `clearFilters` with the reload issued once the cleared filters are in place. */
    method ClearFiltersCorrected() returns (load: Load)
      requires Valid()
      modifies this
      ensures Valid()
      ensures CurrentFilters() == Filters("", "", "", "") && activities == [] && subActivities == []
      ensures load == Load(1, true, Filters("", "", "", "")) && isLoadingMore
      ensures dailyActivities == old(dailyActivities)
      ensures pagination == old(pagination) && isRefreshing == old(isRefreshing) && projects == old(projects)
    {
      selectedProjectId, selectedActivityId, selectedSubActivityId, searchQuery := "", "", "", "";
      activities, subActivities := [], [];
      load := StartLoad(1, true);
    }
  }
}
