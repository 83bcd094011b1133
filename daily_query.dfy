/**
 * The history hook (hooks/useDailySubActivities.ts): the record and
 * pagination types, the query string built from the request parameters, the
 * classification of the answer, and the `isLoading`/`error` state around it.
 */
module DailyQuery {
  import opened Js

  /** One stored file of a daily record. */
  datatype StoredFile = StoredFile(filename: string, path: string)

  /**
   * `DailySubActivity`, without its floating-point fields (coordinates,
   * progress, volumes and weights).
   */
  datatype DailySubActivity = DailySubActivity(
    id: string, subActivityId: string, userId: string, catatanKegiatan: string,
    file: seq<StoredFile>, tanggalProgres: string, createdAt: string, updatedAt: string,
    subActivityName: string, activityName: string, projectPekerjaan: string, userName: string)

  datatype Pagination = Pagination(page: int, limit: int, total: int, totalPages: int, hasNext: bool, hasPrev: bool)

  datatype Response = Response(success: bool, data: seq<DailySubActivity>, pagination: Pagination, message: Option<string>)

  // ---------------------------------------------------------------------------
  // Query string

  /** A parameter value as `Object.entries` yields it. */
  datatype ParamValue = Absent | Null | Num(n: int) | Str(s: string)

  datatype Param = Param(key: string, value: ParamValue)

  /** The filter of the `forEach`: neither `undefined`, `null` nor `""`. */
  predicate Sent(v: ParamValue) {
    v.Num? || (v.Str? && v.s != "")
  }

  /** `value.toString()`. */
  function Rendered(v: ParamValue): (r: string)
    requires Sent(v)
    ensures r != ""
  {
    if v.Num? then IntToString(v.n) else v.s
  }

  /** One appended pair of `URLSearchParams`, before form encoding. */
  datatype QueryPair = QueryPair(key: string, value: string)

  /** The pairs appended for `params`, in entry order: one per sent entry. */
  function Query(params: seq<Param>): (q: seq<QueryPair>)
    ensures |q| <= |params|
  {
    if params == [] then []
    else
      var last := params[|params| - 1];
      Query(params[..|params| - 1]) + if Sent(last.value) then [QueryPair(last.key, Rendered(last.value))] else []
  }

  /**
   * The query holds no empty value; every sent entry appears as its pair, and
   * every pair comes from a sent entry.
   */
  lemma {:induction false} QueryPairs(params: seq<Param>)
    ensures forall k :: 0 <= k < |Query(params)| ==> Query(params)[k].value != ""
    ensures forall i :: 0 <= i < |params| && Sent(params[i].value) ==>
              QueryPair(params[i].key, Rendered(params[i].value)) in Query(params)
    ensures forall pair :: pair in Query(params) ==>
              exists i :: 0 <= i < |params| && Sent(params[i].value)
                          && pair == QueryPair(params[i].key, Rendered(params[i].value))
    decreases |params|
  {
    if params != [] {
      var init := params[..|params| - 1];
      QueryPairs(init);
      assert forall i :: 0 <= i < |init| ==> init[i] == params[i];
    }
  }

  predicate UniqueKeys(params: seq<Param>) {
    forall i, j :: 0 <= i < j < |params| ==> params[i].key != params[j].key
  }

  /** An object's key whose value is empty does not appear in the query at all. */
  lemma EmptyParamOmitted(params: seq<Param>, i: int)
    requires UniqueKeys(params) && 0 <= i < |params| && !Sent(params[i].value)
    ensures forall pair :: pair in Query(params) ==> pair.key != params[i].key
  {
    QueryPairs(params);
  }

  /** The `forEach` loop appending into the `URLSearchParams` buffer. */
  method BuildQuery(params: seq<Param>) returns (searchParams: seq<QueryPair>)
    ensures searchParams == Query(params)
  {
    searchParams := [];
    var i := 0;
    while i < |params|
      invariant 0 <= i <= |params|
      invariant searchParams == Query(params[..i])
    {
      var entry := params[i];
      assert params[..i + 1][..i] == params[..i];
      if entry.value != Absent && entry.value != Null && entry.value != Str("") {
        searchParams := searchParams + [QueryPair(entry.key, Rendered(entry.value))];
      }
      i := i + 1;
    }
    assert params[..i] == params;
  }

  // ---------------------------------------------------------------------------
  // Classification of the answer

  /** What a `catch` receives: an `Error` with its message, or any other thrown value. */
  datatype Thrown = ErrorObject(message: string) | NotAnError

  /** How the request ended. */
  datatype FetchOutcome = FetchThrew(thrown: Thrown) | FetchNotOk(status: int) | FetchAnswered(response: Response)

  datatype FetchResult = Fetched(response: Response) | FetchFailed(error: string)

  /** `fetchDailyActivities`: the answer itself on success, an error message otherwise. */
  function Classify(outcome: FetchOutcome): (r: FetchResult)
    ensures r.Fetched? <==> outcome.FetchAnswered? && outcome.response.success
    ensures r.Fetched? ==> r.response == outcome.response
    ensures outcome.FetchNotOk? ==> r == FetchFailed("HTTP error! status: " + IntToString(outcome.status))
    ensures outcome.FetchAnswered? && !outcome.response.success ==>
              r == FetchFailed(OrDefault(outcome.response.message, "Failed to fetch daily activities"))
    ensures outcome.FetchThrew? ==>
              r == FetchFailed(if outcome.thrown.ErrorObject? then outcome.thrown.message else "An unexpected error occurred")
  {
    match outcome
    case FetchThrew(ErrorObject(message)) => FetchFailed(message)
    case FetchThrew(NotAnError) => FetchFailed("An unexpected error occurred")
    case FetchNotOk(status) => FetchFailed("HTTP error! status: " + IntToString(status))
    case FetchAnswered(response) =>
      if response.success then Fetched(response)
      else FetchFailed(OrDefault(response.message, "Failed to fetch daily activities"))
  }

  /** Every failure the hook raises itself carries a message. */
  lemma OwnFailuresHaveMessages(outcome: FetchOutcome)
    requires !outcome.FetchThrew?
    ensures Classify(outcome).FetchFailed? ==> Classify(outcome).error != ""
  {
  }

  /** The `isLoading` and `error` state of the hook. */
  class DailyActivitiesFetcher {
    var isLoading: bool
    var error: Option<string>

    constructor ()
      ensures !isLoading && error == None
    {
      isLoading, error := false, None;
    }

    /** The start of `fetchDailyActivities`: loading, no error, and the query to send. */
    method Begin(params: seq<Param>) returns (searchParams: seq<QueryPair>)
      modifies this
      ensures isLoading && error == None
      ensures searchParams == Query(params)
    {
      isLoading := true;
      error := None;
      searchParams := BuildQuery(params);
    }

    /** The end of `fetchDailyActivities`: `null` and the message on failure; not loading on every path. */
    method Settle(outcome: FetchOutcome) returns (result: Option<Response>)
      modifies this
      ensures !isLoading
      ensures result.Some? <==> Classify(outcome).Fetched?
      ensures result.Some? ==> result.value == outcome.response && error == old(error)
      ensures result.None? ==> error == Some(Classify(outcome).error)
    {
      match Classify(outcome) {
        case Fetched(response) =>
          result := Some(response);
        case FetchFailed(message) =>
          error := Some(message);
          result := None;
      }
      isLoading := false;
    }
  }
}
