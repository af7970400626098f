/** The query each tool handler sends to the Codeforces API: the method name
    and the parameter map built from the handler's arguments. Flags are sent
    only when they differ from the API's default, empty optional arguments are
    omitted, counts are clamped from above, and commas in a handle list are
    turned into semicolons. */
module Requests {
  import opened Text
  import opened Values

  /** A call `GET https://codeforces.com/api/<endpoint>?<params>`. */
  datatype Request = Request(endpoint: string, params: map<string, Json>)

  /** An optional string argument that Python finds truthy: present and non-empty. */
  predicate Given(s: Option<string>) {
    s.Some? && s.value != ""
  }

  /** An optional integer argument that Python finds truthy: present and non-zero. */
  predicate GivenId(i: Option<int>) {
    i.Some? && i.value != 0
  }

  /** The handle list as sent by get_user_profiles: every ',' becomes ';'. */
  function NormalizeHandles(handles: string): (r: string)
    ensures |r| == |handles|
    ensures ',' !in r
    ensures forall i :: 0 <= i < |handles| ==>
      r[i] == (if handles[i] == ',' then ';' else handles[i])
  {
    ReplaceCharRemoves(handles, ',', ';');
    ReplaceChar(handles, ',', ';')
  }

  /** Normalising an already normalised list changes nothing. */
  lemma NormalizeHandlesIdempotent(handles: string)
    ensures NormalizeHandles(NormalizeHandles(handles)) == NormalizeHandles(handles)
  {
    var once := NormalizeHandles(handles);
    var twice := NormalizeHandles(once);
    assert forall i :: 0 <= i < |once| ==> twice[i] == once[i];
  }

  /** A list without commas is sent as it is. */
  lemma NormalizeHandlesKeepsSemicolonLists(handles: string)
    requires ',' !in handles
    ensures NormalizeHandles(handles) == handles
  {
    var r := NormalizeHandles(handles);
    assert forall i :: 0 <= i < |handles| ==> r[i] == handles[i];
  }

  /** A comma-separated list of handles is sent as the semicolon-separated
      list of the same handles. */
  lemma {:induction false} NormalizeHandlesJoin(handles: seq<string>)
    requires forall k :: 0 <= k < |handles| ==> ',' !in handles[k]
    ensures NormalizeHandles(Join(handles, ",")) == Join(handles, ";")
    decreases |handles|
  {
    if |handles| == 1 {
      NormalizeHandlesKeepsSemicolonLists(handles[0]);
    } else if |handles| > 1 {
      var first, rest := handles[0], Join(handles[1..], ",");
      NormalizeHandlesJoin(handles[1..]);
      NormalizeHandlesKeepsSemicolonLists(first);
      ReplaceCharConcat(first + ",", rest, ',', ';');
      ReplaceCharConcat(first, ",", ',', ';');
      assert ReplaceChar(",", ',', ';') == ";";
    }
  }

  /** "tourist,Petr" is sent as "tourist;Petr". */
  lemma NormalizeHandlesExample()
    ensures NormalizeHandles(Join(["tourist", "Petr"], ",")) == Join(["tourist", "Petr"], ";")
  {
    NormalizeHandlesJoin(["tourist", "Petr"]);
  }

  // ---------------------------------------------------------------------
  // Blog entries

  function BlogCommentsRequest(blogEntryId: int): (r: Request)
    ensures r.endpoint == "blogEntry.comments"
    ensures r.params.Keys == {"blogEntryId"} && r.params["blogEntryId"] == JInt(blogEntryId)
  {
    Request("blogEntry.comments", map["blogEntryId" := JInt(blogEntryId)])
  }

  function BlogEntryRequest(blogEntryId: int): (r: Request)
    ensures r.endpoint == "blogEntry.view"
    ensures r.params.Keys == {"blogEntryId"} && r.params["blogEntryId"] == JInt(blogEntryId)
  {
    Request("blogEntry.view", map["blogEntryId" := JInt(blogEntryId)])
  }

  // ---------------------------------------------------------------------
  // Contests

  /** `asManager` is sent, as "true", exactly when it is asked for. */
  method ContestHacksRequest(contestId: int, asManager: bool) returns (r: Request)
    ensures r.endpoint == "contest.hacks"
    ensures r.params.Keys <= {"contestId", "asManager"}
    ensures "contestId" in r.params && r.params["contestId"] == JInt(contestId)
    ensures "asManager" in r.params <==> asManager
    ensures "asManager" in r.params ==> r.params["asManager"] == JStr("true")
  {
    var params := map["contestId" := JInt(contestId)];
    if asManager {
      params := params["asManager" := JStr("true")];
    }
    r := Request("contest.hacks", params);
  }

  /** Nothing is sent by default; `gym` only as "true", `groupCode` only when non-empty. */
  method ContestListRequest(gym: bool, groupCode: Option<string>) returns (r: Request)
    ensures r.endpoint == "contest.list"
    ensures r.params.Keys <= {"gym", "groupCode"}
    ensures "gym" in r.params <==> gym
    ensures "gym" in r.params ==> r.params["gym"] == JStr("true")
    ensures "groupCode" in r.params <==> Given(groupCode)
    ensures "groupCode" in r.params ==> r.params["groupCode"] == JStr(groupCode.value)
  {
    var params: map<string, Json> := map[];
    if gym {
      params := params["gym" := JStr("true")];
    }
    if Given(groupCode) {
      params := params["groupCode" := JStr(groupCode.value)];
    }
    r := Request("contest.list", params);
  }

  function ContestRatingChangesRequest(contestId: int): (r: Request)
    ensures r.endpoint == "contest.ratingChanges"
    ensures r.params.Keys == {"contestId"} && r.params["contestId"] == JInt(contestId)
  {
    Request("contest.ratingChanges", map["contestId" := JInt(contestId)])
  }

  /** The contest, first rank and count are always sent, unclamped; the handle
      list (passed through as given) and `showUnofficial` only when asked for. */
  method ContestStandingsRequest(contestId: int, fromRank: int, count: int,
                                 handles: Option<string>, showUnofficial: bool)
    returns (r: Request)
    ensures r.endpoint == "contest.standings"
    ensures r.params.Keys <= {"contestId", "from", "count", "handles", "showUnofficial"}
    ensures "contestId" in r.params && r.params["contestId"] == JInt(contestId)
    ensures "from" in r.params && r.params["from"] == JInt(fromRank)
    ensures "count" in r.params && r.params["count"] == JInt(count)
    ensures "handles" in r.params <==> Given(handles)
    ensures "handles" in r.params ==> r.params["handles"] == JStr(handles.value)
    ensures "showUnofficial" in r.params <==> showUnofficial
    ensures "showUnofficial" in r.params ==> r.params["showUnofficial"] == JStr("true")
  {
    var params := map["contestId" := JInt(contestId), "from" := JInt(fromRank), "count" := JInt(count)];
    if Given(handles) {
      params := params["handles" := JStr(handles.value)];
    }
    if showUnofficial {
      params := params["showUnofficial" := JStr("true")];
    }
    r := Request("contest.standings", params);
  }

  method ContestStatusRequest(contestId: int, handle: Option<string>, fromSub: int, count: int)
    returns (r: Request)
    ensures r.endpoint == "contest.status"
    ensures r.params.Keys <= {"contestId", "from", "count", "handle"}
    ensures "contestId" in r.params && r.params["contestId"] == JInt(contestId)
    ensures "from" in r.params && r.params["from"] == JInt(fromSub)
    ensures "count" in r.params && r.params["count"] == JInt(count)
    ensures "handle" in r.params <==> Given(handle)
    ensures "handle" in r.params ==> r.params["handle"] == JStr(handle.value)
  {
    var params := map["contestId" := JInt(contestId), "from" := JInt(fromSub), "count" := JInt(count)];
    if Given(handle) {
      params := params["handle" := JStr(handle.value)];
    }
    r := Request("contest.status", params);
  }

  // ---------------------------------------------------------------------
  // Problem set

  method ProblemsetProblemsRequest(tags: Option<string>, problemsetName: Option<string>)
    returns (r: Request)
    ensures r.endpoint == "problemset.problems"
    ensures r.params.Keys <= {"tags", "problemsetName"}
    ensures "tags" in r.params <==> Given(tags)
    ensures "tags" in r.params ==> r.params["tags"] == JStr(tags.value)
    ensures "problemsetName" in r.params <==> Given(problemsetName)
    ensures "problemsetName" in r.params ==> r.params["problemsetName"] == JStr(problemsetName.value)
  {
    var params: map<string, Json> := map[];
    if Given(tags) {
      params := params["tags" := JStr(tags.value)];
    }
    if Given(problemsetName) {
      params := params["problemsetName" := JStr(problemsetName.value)];
    }
    r := Request("problemset.problems", params);
  }

  /** The count is capped at 1000 and has no lower bound: zero and negative
      counts are sent unchanged. */
  method ProblemsetRecentStatusRequest(count: int, problemsetName: Option<string>)
    returns (r: Request)
    ensures r.endpoint == "problemset.recentStatus"
    ensures r.params.Keys <= {"count", "problemsetName"}
    ensures "count" in r.params && r.params["count"].JInt?
    ensures r.params["count"].i <= 1000
    ensures count <= 1000 ==> r.params["count"].i == count
    ensures count > 1000 ==> r.params["count"].i == 1000
    ensures "problemsetName" in r.params <==> Given(problemsetName)
    ensures "problemsetName" in r.params ==> r.params["problemsetName"] == JStr(problemsetName.value)
  {
    var params := map["count" := JInt(Min(count, 1000))];
    if Given(problemsetName) {
      params := params["problemsetName" := JStr(problemsetName.value)];
    }
    r := Request("problemset.recentStatus", params);
  }

  // ---------------------------------------------------------------------
  // Recent actions

  /** The count is capped at 100 and has no lower bound. */
  function RecentActionsRequest(maxCount: int): (r: Request)
    ensures r.endpoint == "recentActions"
    ensures r.params.Keys == {"maxCount"} && r.params["maxCount"].JInt?
    ensures r.params["maxCount"].i <= 100
    ensures maxCount <= 100 ==> r.params["maxCount"].i == maxCount
    ensures maxCount > 100 ==> r.params["maxCount"].i == 100
  {
    Request("recentActions", map["maxCount" := JInt(Min(maxCount, 100))])
  }

  /** A request for 500 actions asks for 100. */
  lemma RecentActionsClampExample()
    ensures RecentActionsRequest(500).params["maxCount"] == JInt(100)
  {
  }

  // ---------------------------------------------------------------------
  // Users

  /** The handle list is always sent, with commas turned into semicolons;
      `checkHistoricHandles` only as "false", when it is switched off. */
  method UserInfoRequest(handles: string, checkHistoricHandles: bool) returns (r: Request)
    ensures r.endpoint == "user.info"
    ensures r.params.Keys <= {"handles", "checkHistoricHandles"}
    ensures "handles" in r.params && r.params["handles"].JStr?
    ensures |r.params["handles"].s| == |handles| && ',' !in r.params["handles"].s
    ensures forall i :: 0 <= i < |handles| && handles[i] != ',' ==> r.params["handles"].s[i] == handles[i]
    ensures forall i :: 0 <= i < |handles| && handles[i] == ',' ==> r.params["handles"].s[i] == ';'
    ensures "checkHistoricHandles" in r.params <==> !checkHistoricHandles
    ensures "checkHistoricHandles" in r.params ==> r.params["checkHistoricHandles"] == JStr("false")
  {
    var params := map["handles" := JStr(NormalizeHandles(handles))];
    if !checkHistoricHandles {
      params := params["checkHistoricHandles" := JStr("false")];
    }
    r := Request("user.info", params);
  }

  function UserBlogEntriesRequest(handle: string): (r: Request)
    ensures r.endpoint == "user.blogEntries"
    ensures r.params.Keys == {"handle"} && r.params["handle"] == JStr(handle)
  {
    Request("user.blogEntries", map["handle" := JStr(handle)])
  }

  /** `activeOnly` only as "true", `includeRetired` only as "false", and the
      contest only when it is given and non-zero. */
  method UserRatedListRequest(activeOnly: bool, includeRetired: bool, contestId: Option<int>)
    returns (r: Request)
    ensures r.endpoint == "user.ratedList"
    ensures r.params.Keys <= {"activeOnly", "includeRetired", "contestId"}
    ensures "activeOnly" in r.params <==> activeOnly
    ensures "activeOnly" in r.params ==> r.params["activeOnly"] == JStr("true")
    ensures "includeRetired" in r.params <==> !includeRetired
    ensures "includeRetired" in r.params ==> r.params["includeRetired"] == JStr("false")
    ensures "contestId" in r.params <==> GivenId(contestId)
    ensures "contestId" in r.params ==> r.params["contestId"] == JInt(contestId.value)
  {
    var params: map<string, Json> := map[];
    if activeOnly {
      params := params["activeOnly" := JStr("true")];
    }
    if !includeRetired {
      params := params["includeRetired" := JStr("false")];
    }
    if GivenId(contestId) {
      params := params["contestId" := JInt(contestId.value)];
    }
    r := Request("user.ratedList", params);
  }

  function UserRatingRequest(handle: string): (r: Request)
    ensures r.endpoint == "user.rating"
    ensures r.params.Keys == {"handle"} && r.params["handle"] == JStr(handle)
  {
    Request("user.rating", map["handle" := JStr(handle)])
  }

  function UserStatusRequest(handle: string, fromSub: int, count: int): (r: Request)
    ensures r.endpoint == "user.status"
    ensures r.params.Keys == {"handle", "from", "count"}
    ensures r.params["handle"] == JStr(handle)
    ensures r.params["from"] == JInt(fromSub) && r.params["count"] == JInt(count)
  {
    Request("user.status", map["handle" := JStr(handle), "from" := JInt(fromSub), "count" := JInt(count)])
  }
}
