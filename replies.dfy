/** What each tool handler returns for the payload the API client gave it:
    a fixed "Unable to fetch …" message when there is no usable payload, a
    fixed "No … found." message when the result is empty, and otherwise the
    formatted items joined with the item separator. */
module Replies {
  import opened Text
  import opened Values
  import opened Records

  /** The outcome of `if not data or "result" not in data`. */
  datatype Fetch = Unavailable | Fetched(result: Json)

  /** A payload is usable when it is a (non-empty) object with a "result" key. */
  function Classify(data: Option<Json>): (f: Fetch)
    ensures f.Fetched? <==> data.Some? && data.value.JObj? && "result" in data.value.fields
    ensures f.Fetched? ==> f.result == data.value.fields["result"]
  {
    if data.Some? && Truthy(data.value) && data.value.JObj? && "result" in data.value.fields
    then Fetched(data.value.fields["result"])
    else Unavailable
  }

  /** How many result items a handler formats: all, or a prefix slice `[:n]`. */
  datatype Cap = Uncapped | CappedAt(n: nat)

  /** `items` or `items[:n]`: a prefix, of length at most n. */
  function Shown(items: seq<Json>, cap: Cap): (r: seq<Json>)
    ensures r <= items
    ensures cap.Uncapped? ==> r == items
    ensures cap.CappedAt? ==> |r| == Min(|items|, cap.n)
  {
    match cap
    case Uncapped => items
    case CappedAt(n) => items[..Min(|items|, n)]
  }

  /** `[format(x) for x in xs]` */
  function FormatEach(xs: seq<Json>, format: Json -> string): (r: seq<string>)
    ensures |r| == |xs|
    ensures forall k :: 0 <= k < |xs| ==> r[k] == format(xs[k])
  {
    seq(|xs|, k requires 0 <= k < |xs| => format(xs[k]))
  }

  /** The reply for an unusable payload: "Unable to fetch <what>." */
  function Unable(what: string): (m: string)
    ensures |m| > 0 && m[0] == 'U'
  {
    "Unable to fetch " + what + "."
  }

  /** The reply for a falsy result: "No <what> found." */
  function NoneFound(what: string): (m: string)
    ensures |m| > 0 && m[0] == 'N'
  {
    "No " + what + " found."
  }

  /** The shared shape of the list handlers: classify, reject a falsy result,
      then format the (possibly capped) items and join them. */
  function ListReply(data: Option<Json>, unable: string, none: string,
                     format: Json -> string, cap: Cap): (r: string)
    ensures Classify(data).Unavailable? ==> r == Unable(unable)
    ensures Classify(data).Fetched? && !Truthy(Classify(data).result) ==> r == NoneFound(none)
    ensures Classify(data).Fetched? && Truthy(Classify(data).result) ==>
      r == Join(FormatEach(Shown(Items(Classify(data).result), cap), format), ItemSeparator)
  {
    match Classify(data)
    case Unavailable => Unable(unable)
    case Fetched(result) =>
      if !Truthy(result) then NoneFound(none)
      else Join(FormatEach(Shown(Items(result), cap), format), ItemSeparator)
  }

  /** A formatter whose every output starts with a character that neither
      message starts with. */
  ghost predicate StartsApart(format: Json -> string) {
    forall j :: format(j) != [] && format(j)[0] != 'U' && format(j)[0] != 'N'
  }

  /** The reply tells the three outcomes apart: it is the "Unable" message
      exactly when the payload is unusable, and the "No … found." message
      exactly when the result is falsy. */
  lemma ListReplyOutcome(data: Option<Json>, unable: string, none: string,
                         format: Json -> string, cap: Cap)
    requires StartsApart(format)
    ensures var r := ListReply(data, unable, none, format, cap);
      && (r == Unable(unable) <==> Classify(data).Unavailable?)
      && (r == NoneFound(none) <==> Classify(data).Fetched? && !Truthy(Classify(data).result))
  {
    var r := ListReply(data, unable, none, format, cap);
    if Classify(data).Fetched? && Truthy(Classify(data).result) {
      var lines := FormatEach(Shown(Items(Classify(data).result), cap), format);
      if lines != [] {
        assert r[0] == lines[0][0];
      }
    }
  }

  /** With n >= 1 items shown, every one of them separator-safe, the reply
      holds exactly n - 1 separators, and one item is returned on its own. */
  lemma ListReplySeparators(data: Option<Json>, unable: string, none: string,
                            format: Json -> string, cap: Cap)
    requires Classify(data).Fetched? && DashSafe(Classify(data).result)
    requires Shown(Items(Classify(data).result), cap) != []
    requires forall j :: DashSafe(j) ==> SeparatorSafe(format(j))
    ensures var shown := Shown(Items(Classify(data).result), cap);
      && Occurrences(ListReply(data, unable, none, format, cap), ItemSeparator) == |shown| - 1
      && (|shown| == 1 ==> ListReply(data, unable, none, format, cap) == format(shown[0]))
  {
    var result := Classify(data).result;
    var shown := Shown(Items(result), cap);
    assert Truthy(result);
    var lines := FormatEach(shown, format);
    forall k | 0 <= k < |lines|
      ensures SeparatorSafe(lines[k])
    {
      assert shown[k] == Items(result)[k];
      assert DashSafe(Items(result)[k]);
    }
    JoinSeparatorCount(lines);
  }

  // ---------------------------------------------------------------------
  // The loop of the six handlers that append to a list before joining

  /** `out = []; for x in xs: out.append(format(x))` */
  method AppendFormatted(xs: seq<Json>, format: Json -> string) returns (out: seq<string>)
    ensures out == FormatEach(xs, format)
  {
    out := [];
    var i := 0;
    while i < |xs|
      invariant 0 <= i <= |xs|
      invariant |out| == i
      invariant forall k :: 0 <= k < i ==> out[k] == format(xs[k])
    {
      out := out + [format(xs[i])];
      i := i + 1;
    }
  }

  // ---------------------------------------------------------------------
  // Blog entries

  function BlogCommentsReply(data: Option<Json>): (r: string)
    ensures r == Unable("blog comments") <==> Classify(data).Unavailable?
    ensures r == NoneFound("comments") <==> Classify(data).Fetched? && !Truthy(Classify(data).result)
    ensures Classify(data).Fetched? && Truthy(Classify(data).result) ==>
      r == Join(FormatEach(Items(Classify(data).result), FormatComment), ItemSeparator)
  {
    ListReplyOutcome(data, "blog comments", "comments", FormatComment, Uncapped);
    ListReply(data, "blog comments", "comments", FormatComment, Uncapped)
  }

  method GetBlogComments(data: Option<Json>) returns (reply: string)
    ensures reply == BlogCommentsReply(data)
  {
    var fetched := Classify(data);
    if fetched.Unavailable? {
      return Unable("blog comments");
    }
    if !Truthy(fetched.result) {
      return NoneFound("comments");
    }
    var comments := AppendFormatted(Items(fetched.result), FormatComment);
    reply := Join(comments, ItemSeparator);
  }

  /** The entry's text cut to 500 characters, with "..." always appended. */
  function BlogContent(entry: Json): (c: string)
    ensures var text := Field(Fields(entry), "text", JStr("No content"));
      && |c| == Min(|text|, 500) + 3
      && c[..|c| - 3] <= text
      && c[|c| - 3..] == "..."
      && (|text| <= 500 ==> c == text + "...")
      && ("text" !in Fields(entry) ==> c == "No content...")
  {
    Abbreviate(Field(Fields(entry), "text", JStr("No content")), 500)
  }

  /** The entry is formatted even when it is empty: only an unusable payload
      gives the message. */
  function BlogEntryReply(data: Option<Json>): (r: string)
    ensures r == Unable("blog entry") <==> Classify(data).Unavailable?
    ensures Classify(data).Fetched? ==>
      r == FormatBlogEntry(Classify(data).result) + "\nContent: " + BlogContent(Classify(data).result)
  {
    match Classify(data)
    case Unavailable => Unable("blog entry")
    case Fetched(entry) =>
      var r := FormatBlogEntry(entry) + "\nContent: " + BlogContent(entry);
      assert r[0] == 'I';
      r
  }

  function UserBlogEntriesReply(data: Option<Json>): (r: string)
    ensures r == Unable("blog entries") <==> Classify(data).Unavailable?
    ensures r == NoneFound("blog entries") <==> Classify(data).Fetched? && !Truthy(Classify(data).result)
    ensures Classify(data).Fetched? && Truthy(Classify(data).result) ==>
      r == Join(FormatEach(Items(Classify(data).result), FormatBlogEntry), ItemSeparator)
  {
    ListReplyOutcome(data, "blog entries", "blog entries", FormatBlogEntry, Uncapped);
    ListReply(data, "blog entries", "blog entries", FormatBlogEntry, Uncapped)
  }

  // ---------------------------------------------------------------------
  // Contests

  function ContestHacksReply(data: Option<Json>): (r: string)
    ensures r == Unable("contest hacks") <==> Classify(data).Unavailable?
    ensures r == NoneFound("hacks") <==> Classify(data).Fetched? && !Truthy(Classify(data).result)
    ensures Classify(data).Fetched? && Truthy(Classify(data).result) ==>
      r == Join(FormatEach(Items(Classify(data).result), FormatHack), ItemSeparator)
  {
    ListReplyOutcome(data, "contest hacks", "hacks", FormatHack, Uncapped);
    ListReply(data, "contest hacks", "hacks", FormatHack, Uncapped)
  }

  method GetContestHacks(data: Option<Json>) returns (reply: string)
    ensures reply == ContestHacksReply(data)
  {
    var fetched := Classify(data);
    if fetched.Unavailable? {
      return Unable("contest hacks");
    }
    if !Truthy(fetched.result) {
      return NoneFound("hacks");
    }
    var hacks := AppendFormatted(Items(fetched.result), FormatHack);
    reply := Join(hacks, ItemSeparator);
  }

  function ContestListReply(data: Option<Json>): (r: string)
    ensures r == Unable("contest list") <==> Classify(data).Unavailable?
    ensures r == NoneFound("contests") <==> Classify(data).Fetched? && !Truthy(Classify(data).result)
    ensures Classify(data).Fetched? && Truthy(Classify(data).result) ==>
      var items := Items(Classify(data).result);
      r == Join(FormatEach(items[..Min(|items|, 20)], FormatContest), ItemSeparator)
  {
    ListReplyOutcome(data, "contest list", "contests", FormatContest, CappedAt(20));
    ListReply(data, "contest list", "contests", FormatContest, CappedAt(20))
  }

  function ContestRatingChangesReply(data: Option<Json>): (r: string)
    ensures r == Unable("rating changes") <==> Classify(data).Unavailable?
    ensures r == NoneFound("rating changes") <==> Classify(data).Fetched? && !Truthy(Classify(data).result)
    ensures Classify(data).Fetched? && Truthy(Classify(data).result) ==>
      var items := Items(Classify(data).result);
      r == Join(FormatEach(items[..Min(|items|, 50)], FormatRatingChange), ItemSeparator)
  {
    ListReplyOutcome(data, "rating changes", "rating changes", FormatRatingChange, CappedAt(50));
    ListReply(data, "rating changes", "rating changes", FormatRatingChange, CappedAt(50))
  }

  method GetContestRatingChanges(data: Option<Json>) returns (reply: string)
    ensures reply == ContestRatingChangesReply(data)
  {
    var fetched := Classify(data);
    if fetched.Unavailable? {
      return Unable("rating changes");
    }
    if !Truthy(fetched.result) {
      return NoneFound("rating changes");
    }
    var changes := AppendFormatted(Shown(Items(fetched.result), CappedAt(50)), FormatRatingChange);
    reply := Join(changes, ItemSeparator);
  }

  /** The part of the standings reply before the rows. */
  function StandingsHeader(info: string): string {
    "Contest Info:\n" + info + "\n\nStandings:\n"
  }

  /** The header holds no newline directly followed by '-' when the contest
      block is separator-safe. */
  lemma StandingsHeaderSafe(info: string)
    requires SeparatorSafe(info)
    ensures NoNewlineDash(StandingsHeader(info))
  {
    var front := "Contest Info:\n";
    var back := "\n\nStandings:\n";
    assert NoNewlineDash(front);
    assert NoNewlineDash(back);
    NoNewlineDashConcat(front, info);
    NoNewlineDashConcat(front + info, back);
  }

  /** The contest section followed by the standings rows. There is no check
      for an empty result: missing keys fall back to an empty contest and no rows. */
  function StandingsReply(data: Option<Json>): (r: string)
    ensures r == Unable("contest standings") <==> Classify(data).Unavailable?
    ensures Classify(data).Fetched? ==>
      var result := Fields(Classify(data).result);
      r == StandingsHeader(FormatContest(Get(result, "contest", NoRecord))) +
        Join(FormatEach(Items(Get(result, "rows", JArr([]))), FormatStandingsRow), ItemSeparator)
  {
    match Classify(data)
    case Unavailable => Unable("contest standings")
    case Fetched(result) =>
      var info := FormatContest(Get(Fields(result), "contest", NoRecord));
      var rows := FormatEach(Items(Get(Fields(result), "rows", JArr([]))), FormatStandingsRow);
      var r := StandingsHeader(info) + Join(rows, ItemSeparator);
      assert r[0] == 'C';
      r
  }

  method GetContestStandings(data: Option<Json>) returns (reply: string)
    ensures reply == StandingsReply(data)
  {
    var fetched := Classify(data);
    if fetched.Unavailable? {
      return Unable("contest standings");
    }
    var result := Fields(fetched.result);
    var contestInfo := FormatContest(Get(result, "contest", NoRecord));
    var standings := AppendFormatted(Items(Get(result, "rows", JArr([]))), FormatStandingsRow);
    reply := StandingsHeader(contestInfo) + Join(standings, ItemSeparator);
  }

  function ContestStatusReply(data: Option<Json>): (r: string)
    ensures r == Unable("contest submissions") <==> Classify(data).Unavailable?
    ensures r == NoneFound("submissions") <==> Classify(data).Fetched? && !Truthy(Classify(data).result)
    ensures Classify(data).Fetched? && Truthy(Classify(data).result) ==>
      r == Join(FormatEach(Items(Classify(data).result), FormatSubmission), ItemSeparator)
  {
    ListReplyOutcome(data, "contest submissions", "submissions", FormatSubmission, Uncapped);
    ListReply(data, "contest submissions", "submissions", FormatSubmission, Uncapped)
  }

  // ---------------------------------------------------------------------
  // Problem set

  /** The problems list inside the result object. */
  function ProblemList(data: Option<Json>): Json
    requires Classify(data).Fetched?
  {
    Get(Fields(Classify(data).result), "problems", JArr([]))
  }

  /** The problems come from `result.problems`, and it is that list, not the
      result, whose falsiness gives the "No problems found." message. */
  function ProblemsetProblemsReply(data: Option<Json>): (r: string)
    ensures r == Unable("problems") <==> Classify(data).Unavailable?
    ensures r == NoneFound("problems") <==> Classify(data).Fetched? && !Truthy(ProblemList(data))
    ensures Classify(data).Fetched? && Truthy(ProblemList(data)) ==>
      r == Join(FormatEach(Shown(Items(ProblemList(data)), CappedAt(50)), FormatProblem), ItemSeparator)
  {
    match Classify(data)
    case Unavailable => Unable("problems")
    case Fetched(result) =>
      var problems := ProblemList(data);
      if !Truthy(problems) then NoneFound("problems")
      else
        var lines := FormatEach(Shown(Items(problems), CappedAt(50)), FormatProblem);
        var r := Join(lines, ItemSeparator);
        assert lines != [] ==> r[0] == lines[0][0] == 'C';
        r
  }

  function ProblemsetRecentStatusReply(data: Option<Json>): (r: string)
    ensures r == Unable("recent submissions") <==> Classify(data).Unavailable?
    ensures r == NoneFound("submissions") <==> Classify(data).Fetched? && !Truthy(Classify(data).result)
    ensures Classify(data).Fetched? && Truthy(Classify(data).result) ==>
      r == Join(FormatEach(Items(Classify(data).result), FormatSubmission), ItemSeparator)
  {
    ListReplyOutcome(data, "recent submissions", "submissions", FormatSubmission, Uncapped);
    ListReply(data, "recent submissions", "submissions", FormatSubmission, Uncapped)
  }

  // ---------------------------------------------------------------------
  // Recent actions

  function RecentActionsReply(data: Option<Json>): (r: string)
    ensures r == Unable("recent actions") <==> Classify(data).Unavailable?
    ensures r == NoneFound("recent actions") <==> Classify(data).Fetched? && !Truthy(Classify(data).result)
    ensures Classify(data).Fetched? && Truthy(Classify(data).result) ==>
      r == Join(FormatEach(Items(Classify(data).result), FormatAction), ItemSeparator)
  {
    ListReplyOutcome(data, "recent actions", "recent actions", FormatAction, Uncapped);
    ListReply(data, "recent actions", "recent actions", FormatAction, Uncapped)
  }

  method GetRecentActions(data: Option<Json>) returns (reply: string)
    ensures reply == RecentActionsReply(data)
  {
    var fetched := Classify(data);
    if fetched.Unavailable? {
      return Unable("recent actions");
    }
    if !Truthy(fetched.result) {
      return NoneFound("recent actions");
    }
    var actions := AppendFormatted(Items(fetched.result), FormatAction);
    reply := Join(actions, ItemSeparator);
  }

  // ---------------------------------------------------------------------
  // Users

  function UserProfilesReply(data: Option<Json>): (r: string)
    ensures r == Unable("profiles or no profiles found") <==> Classify(data).Unavailable?
    ensures r == NoneFound("profiles") <==> Classify(data).Fetched? && !Truthy(Classify(data).result)
    ensures Classify(data).Fetched? && Truthy(Classify(data).result) ==>
      r == Join(FormatEach(Items(Classify(data).result), FormatProfile), ItemSeparator)
  {
    ListReplyOutcome(data, "profiles or no profiles found", "profiles", FormatProfile, Uncapped);
    ListReply(data, "profiles or no profiles found", "profiles", FormatProfile, Uncapped)
  }

  function UserRatedListReply(data: Option<Json>): (r: string)
    ensures r == Unable("rated users") <==> Classify(data).Unavailable?
    ensures r == NoneFound("rated users") <==> Classify(data).Fetched? && !Truthy(Classify(data).result)
    ensures Classify(data).Fetched? && Truthy(Classify(data).result) ==>
      var items := Items(Classify(data).result);
      r == Join(FormatEach(items[..Min(|items|, 50)], FormatProfile), ItemSeparator)
  {
    ListReplyOutcome(data, "rated users", "rated users", FormatProfile, CappedAt(50));
    ListReply(data, "rated users", "rated users", FormatProfile, CappedAt(50))
  }

  function UserRatingHistoryReply(data: Option<Json>): (r: string)
    ensures r == Unable("rating history") <==> Classify(data).Unavailable?
    ensures r == NoneFound("rating history") <==> Classify(data).Fetched? && !Truthy(Classify(data).result)
    ensures Classify(data).Fetched? && Truthy(Classify(data).result) ==>
      r == Join(FormatEach(Items(Classify(data).result), FormatRatingHistoryEntry), ItemSeparator)
  {
    ListReplyOutcome(data, "rating history", "rating history", FormatRatingHistoryEntry, Uncapped);
    ListReply(data, "rating history", "rating history", FormatRatingHistoryEntry, Uncapped)
  }

  method GetUserRatingHistory(data: Option<Json>) returns (reply: string)
    ensures reply == UserRatingHistoryReply(data)
  {
    var fetched := Classify(data);
    if fetched.Unavailable? {
      return Unable("rating history");
    }
    if !Truthy(fetched.result) {
      return NoneFound("rating history");
    }
    var history := AppendFormatted(Items(fetched.result), FormatRatingHistoryEntry);
    reply := Join(history, ItemSeparator);
  }

  function UserSubmissionsReply(data: Option<Json>): (r: string)
    ensures r == Unable("user submissions") <==> Classify(data).Unavailable?
    ensures r == NoneFound("submissions") <==> Classify(data).Fetched? && !Truthy(Classify(data).result)
    ensures Classify(data).Fetched? && Truthy(Classify(data).result) ==>
      r == Join(FormatEach(Items(Classify(data).result), FormatSubmission), ItemSeparator)
  {
    ListReplyOutcome(data, "user submissions", "submissions", FormatSubmission, Uncapped);
    ListReply(data, "user submissions", "submissions", FormatSubmission, Uncapped)
  }

  // ---------------------------------------------------------------------
  // Separator counts: n shown items give n - 1 separators

  /** A result list that is a non-empty array whose strings never put a dash
      at the start of a line. */
  predicate SafeItems(data: Option<Json>) {
    && Classify(data).Fetched?
    && Classify(data).result.JArr?
    && Classify(data).result.items != []
    && DashSafe(Classify(data).result)
  }

  lemma BlogCommentsSeparators(data: Option<Json>)
    requires SafeItems(data)
    ensures Occurrences(BlogCommentsReply(data), ItemSeparator) == |Classify(data).result.items| - 1
    ensures |Classify(data).result.items| == 1 ==>
      BlogCommentsReply(data) == FormatComment(Classify(data).result.items[0])
  {
    forall j | DashSafe(j)
      ensures SeparatorSafe(FormatComment(j))
    {
      FormatCommentSafe(j);
    }
    ListReplySeparators(data, "blog comments", "comments", FormatComment, Uncapped);
  }

  lemma UserBlogEntriesSeparators(data: Option<Json>)
    requires SafeItems(data)
    ensures Occurrences(UserBlogEntriesReply(data), ItemSeparator) == |Classify(data).result.items| - 1
    ensures |Classify(data).result.items| == 1 ==>
      UserBlogEntriesReply(data) == FormatBlogEntry(Classify(data).result.items[0])
  {
    forall j | DashSafe(j)
      ensures SeparatorSafe(FormatBlogEntry(j))
    {
      FormatBlogEntrySafe(j);
    }
    ListReplySeparators(data, "blog entries", "blog entries", FormatBlogEntry, Uncapped);
  }

  lemma ContestHacksSeparators(data: Option<Json>)
    requires SafeItems(data)
    ensures Occurrences(ContestHacksReply(data), ItemSeparator) == |Classify(data).result.items| - 1
    ensures |Classify(data).result.items| == 1 ==>
      ContestHacksReply(data) == FormatHack(Classify(data).result.items[0])
  {
    forall j | DashSafe(j)
      ensures SeparatorSafe(FormatHack(j))
    {
      FormatHackSafe(j);
    }
    ListReplySeparators(data, "contest hacks", "hacks", FormatHack, Uncapped);
  }

  lemma ContestListSeparators(data: Option<Json>)
    requires SafeItems(data)
    ensures Occurrences(ContestListReply(data), ItemSeparator) == Min(|Classify(data).result.items|, 20) - 1
  {
    forall j | DashSafe(j)
      ensures SeparatorSafe(FormatContest(j))
    {
      FormatContestSafe(j);
    }
    ListReplySeparators(data, "contest list", "contests", FormatContest, CappedAt(20));
  }

  lemma ContestRatingChangesSeparators(data: Option<Json>)
    requires SafeItems(data)
    ensures Occurrences(ContestRatingChangesReply(data), ItemSeparator) == Min(|Classify(data).result.items|, 50) - 1
  {
    forall j | DashSafe(j)
      ensures SeparatorSafe(FormatRatingChange(j))
    {
      FormatRatingChangeSafe(j);
    }
    ListReplySeparators(data, "rating changes", "rating changes", FormatRatingChange, CappedAt(50));
  }

  lemma ContestStatusSeparators(data: Option<Json>)
    requires SafeItems(data)
    ensures Occurrences(ContestStatusReply(data), ItemSeparator) == |Classify(data).result.items| - 1
    ensures |Classify(data).result.items| == 1 ==>
      ContestStatusReply(data) == FormatSubmission(Classify(data).result.items[0])
  {
    forall j | DashSafe(j)
      ensures SeparatorSafe(FormatSubmission(j))
    {
      FormatSubmissionSafe(j);
    }
    ListReplySeparators(data, "contest submissions", "submissions", FormatSubmission, Uncapped);
  }

  /** The standings reply of a separator-safe result holds one separator
      between each two rows and none elsewhere. */
  lemma StandingsSeparators(data: Option<Json>)
    requires Classify(data).Fetched? && DashSafe(Classify(data).result)
    ensures var rows := Items(Get(Fields(Classify(data).result), "rows", JArr([])));
      Occurrences(StandingsReply(data), ItemSeparator) == if rows == [] then 0 else |rows| - 1
  {
    var result := Fields(Classify(data).result);
    var contest := Get(result, "contest", NoRecord);
    var items := Items(Get(result, "rows", JArr([])));
    assert DashSafe(contest) && DashSafe(Get(result, "rows", JArr([])));
    FormatContestSafe(contest);
    var header := StandingsHeader(FormatContest(contest));
    StandingsHeaderSafe(FormatContest(contest));
    var rows := FormatEach(items, FormatStandingsRow);
    forall k | 0 <= k < |rows|
      ensures SeparatorSafe(rows[k])
    {
      assert DashSafe(items[k]);
      FormatStandingsRowSafe(items[k]);
    }
    if rows == [] {
      assert header + Join(rows, ItemSeparator) == header;
      SafeHasNoSeparator(header);
    } else {
      JoinSeparatorCount(rows);
      ItemSeam(header, Join(rows, ItemSeparator));
    }
  }

  lemma ProblemsetRecentStatusSeparators(data: Option<Json>)
    requires SafeItems(data)
    ensures Occurrences(ProblemsetRecentStatusReply(data), ItemSeparator) == |Classify(data).result.items| - 1
    ensures |Classify(data).result.items| == 1 ==>
      ProblemsetRecentStatusReply(data) == FormatSubmission(Classify(data).result.items[0])
  {
    forall j | DashSafe(j)
      ensures SeparatorSafe(FormatSubmission(j))
    {
      FormatSubmissionSafe(j);
    }
    ListReplySeparators(data, "recent submissions", "submissions", FormatSubmission, Uncapped);
  }

  lemma RecentActionsSeparators(data: Option<Json>)
    requires SafeItems(data)
    ensures Occurrences(RecentActionsReply(data), ItemSeparator) == |Classify(data).result.items| - 1
    ensures |Classify(data).result.items| == 1 ==>
      RecentActionsReply(data) == FormatAction(Classify(data).result.items[0])
  {
    forall j | DashSafe(j)
      ensures SeparatorSafe(FormatAction(j))
    {
      FormatActionSafe(j);
    }
    ListReplySeparators(data, "recent actions", "recent actions", FormatAction, Uncapped);
  }

  lemma UserProfilesSeparators(data: Option<Json>)
    requires SafeItems(data)
    ensures Occurrences(UserProfilesReply(data), ItemSeparator) == |Classify(data).result.items| - 1
    ensures |Classify(data).result.items| == 1 ==>
      UserProfilesReply(data) == FormatProfile(Classify(data).result.items[0])
  {
    forall j | DashSafe(j)
      ensures SeparatorSafe(FormatProfile(j))
    {
      FormatProfileSafe(j);
    }
    ListReplySeparators(data, "profiles or no profiles found", "profiles", FormatProfile, Uncapped);
  }

  lemma UserRatedListSeparators(data: Option<Json>)
    requires SafeItems(data)
    ensures Occurrences(UserRatedListReply(data), ItemSeparator) == Min(|Classify(data).result.items|, 50) - 1
  {
    forall j | DashSafe(j)
      ensures SeparatorSafe(FormatProfile(j))
    {
      FormatProfileSafe(j);
    }
    ListReplySeparators(data, "rated users", "rated users", FormatProfile, CappedAt(50));
  }

  lemma UserRatingHistorySeparators(data: Option<Json>)
    requires SafeItems(data)
    ensures Occurrences(UserRatingHistoryReply(data), ItemSeparator) == |Classify(data).result.items| - 1
    ensures |Classify(data).result.items| == 1 ==>
      UserRatingHistoryReply(data) == FormatRatingHistoryEntry(Classify(data).result.items[0])
  {
    forall j | DashSafe(j)
      ensures SeparatorSafe(FormatRatingHistoryEntry(j))
    {
      FormatRatingHistoryEntrySafe(j);
    }
    ListReplySeparators(data, "rating history", "rating history", FormatRatingHistoryEntry, Uncapped);
  }

  lemma UserSubmissionsSeparators(data: Option<Json>)
    requires SafeItems(data)
    ensures Occurrences(UserSubmissionsReply(data), ItemSeparator) == |Classify(data).result.items| - 1
    ensures |Classify(data).result.items| == 1 ==>
      UserSubmissionsReply(data) == FormatSubmission(Classify(data).result.items[0])
  {
    forall j | DashSafe(j)
      ensures SeparatorSafe(FormatSubmission(j))
    {
      FormatSubmissionSafe(j);
    }
    ListReplySeparators(data, "user submissions", "submissions", FormatSubmission, Uncapped);
  }

  /** The problems reply holds one separator fewer than the problems it shows. */
  lemma ProblemsetProblemsSeparators(data: Option<Json>)
    requires Classify(data).Fetched?
    requires ProblemList(data).JArr? && ProblemList(data).items != []
    requires DashSafe(ProblemList(data))
    ensures Occurrences(ProblemsetProblemsReply(data), ItemSeparator) ==
      Min(|ProblemList(data).items|, 50) - 1
  {
    var shown := Shown(Items(ProblemList(data)), CappedAt(50));
    var lines := FormatEach(shown, FormatProblem);
    forall k | 0 <= k < |lines|
      ensures SeparatorSafe(lines[k])
    {
      assert DashSafe(ProblemList(data).items[k]);
      FormatProblemSafe(shown[k]);
    }
    JoinSeparatorCount(lines);
  }
}
