/** The per-entity formatters: each record becomes a block of
    "Label: value" lines, every value read with `.get` and a default so that
    a missing key never fails. `format_codeforces_profile`,
    `format_blog_entry`, `format_contest`, `format_problem` and
    `format_submission` are the source's own; the comment, hack, rating
    change, standings row, recent action and rating history formatters are
    the f-strings inside the handlers' loops. */
module Records {
  import opened Text
  import opened Values

  const NoRecord: Json := JObj(map[])

  /** One line of a block: `f"{caption}: {value}"`. */
  function Labelled(caption: string, value: string): string {
    caption + ": " + value
  }

  /** The lines of a block joined with newlines. */
  function Block(lines: seq<string>): string {
    Join(lines, "\n")
  }

  /** The block whose k-th line is `f"{captions[k]}: {values[k]}"`. */
  function Render(captions: seq<string>, values: seq<string>): (r: string)
    requires |captions| == |values| > 0
    ensures Labelled(captions[0], values[0]) <= r
  {
    Block(seq(|captions|, k requires 0 <= k < |captions| => Labelled(captions[k], values[k])))
  }

  /** Each value rendered with `str()`. */
  function ShowAll(xs: seq<Json>): (r: seq<string>)
    ensures |r| == |xs|
    ensures forall k :: 0 <= k < |xs| ==> r[k] == Show(xs[k])
  {
    seq(|xs|, k requires 0 <= k < |xs| => Show(xs[k]))
  }

  /** `", ".join(tags)`: the tags separated by commas. */
  function TagList(tags: Json): (r: string)
    ensures Items(tags) == [] ==> r == ""
    ensures |Items(tags)| == 1 ==> r == Show(Items(tags)[0])
    ensures |Items(tags)| > 1 ==> r == Show(Items(tags)[0]) + ", " + TagList(JArr(Items(tags)[1..]))
    decreases |Items(tags)|
  {
    var shown := ShowAll(Items(tags));
    assert |Items(tags)| > 1 ==> shown[1..] == ShowAll(Items(JArr(Items(tags)[1..])));
    Join(shown, ", ")
  }

  /** The handle of a party's first member, as both the submission and the
      standings formatters resolve it: `members[0].handle` when `members` is
      a non-empty list, otherwise "Unknown". */
  function MemberHandle(party: Record): (h: string)
    ensures "members" !in party || Items(party["members"]) == [] ==> h == "Unknown"
    ensures "members" in party && |Items(party["members"])| > 0 ==>
      h == Field(Fields(Items(party["members"])[0]), "handle", JStr("Unknown"))
  {
    if "members" in party && Truthy(party["members"]) && party["members"].JArr? then
      Field(Fields(party["members"].items[0]), "handle", JStr("Unknown"))
    else
      "Unknown"
  }

  // ---------------------------------------------------------------------
  // Profiles (format_codeforces_profile)

  const ProfileCaptions: seq<string> :=
    ["Handle", "Name", "Rating", "Rank", "Max Rating", "Max Rank", "Country", "City",
     "Organization", "Contribution", "Friend Count"]

  /** `f"{firstName} {lastName}"`, each part empty when absent. */
  function FullName(p: Record): string {
    Field(p, "firstName", JStr("")) + " " + Field(p, "lastName", JStr(""))
  }

  function ProfileValues(p: Record): seq<string> {
    [ Field(p, "handle", JStr("Unknown")),
      FullName(p),
      Field(p, "rating", JStr("Unrated")),
      Field(p, "rank", JStr("Unranked")),
      Field(p, "maxRating", JStr("N/A")),
      Field(p, "maxRank", JStr("N/A")),
      Field(p, "country", JStr("Unknown")),
      Field(p, "city", JStr("Unknown")),
      Field(p, "organization", JStr("None")),
      Field(p, "contribution", JInt(0)),
      Field(p, "friendOfCount", JInt(0)) ]
  }

  function FormatProfile(profile: Json): (r: string)
    ensures "Handle: " <= r
  {
    Render(ProfileCaptions, ProfileValues(Fields(profile)))
  }

  // ---------------------------------------------------------------------
  // Blog entries (format_blog_entry)

  const BlogEntryCaptions: seq<string> :=
    ["ID", "Title", "Author", "Creation Time", "Rating", "Tags"]

  function BlogEntryValues(e: Record): seq<string> {
    [ Field(e, "id", JStr("N/A")),
      Field(e, "title", JStr("No Title")),
      Field(e, "authorHandle", JStr("Unknown")),
      Field(e, "creationTimeSeconds", JStr("N/A")),
      Field(e, "rating", JInt(0)),
      TagList(Get(e, "tags", JArr([]))) ]
  }

  function FormatBlogEntry(entry: Json): (r: string)
    ensures "ID: " <= r
  {
    Render(BlogEntryCaptions, BlogEntryValues(Fields(entry)))
  }

  // ---------------------------------------------------------------------
  // Contests (format_contest)

  const ContestCaptions: seq<string> :=
    ["ID", "Name", "Type", "Phase", "Duration", "Start Time", "Difficulty"]

  function ContestValues(c: Record): seq<string> {
    [ Field(c, "id", JStr("N/A")),
      Field(c, "name", JStr("No Name")),
      Field(c, "type", JStr("Unknown")),
      Field(c, "phase", JStr("Unknown")),
      Field(c, "durationSeconds", JInt(0)) + " seconds",
      Field(c, "startTimeSeconds", JStr("N/A")),
      Field(c, "difficulty", JStr("N/A")) ]
  }

  function FormatContest(contest: Json): (r: string)
    ensures "ID: " <= r
  {
    Render(ContestCaptions, ContestValues(Fields(contest)))
  }

  // ---------------------------------------------------------------------
  // Problems (format_problem)

  const ProblemCaptions: seq<string> :=
    ["Contest ID", "Index", "Name", "Type", "Points", "Rating", "Tags"]

  function ProblemValues(p: Record): seq<string> {
    [ Field(p, "contestId", JStr("N/A")),
      Field(p, "index", JStr("N/A")),
      Field(p, "name", JStr("No Name")),
      Field(p, "type", JStr("Unknown")),
      Field(p, "points", JStr("N/A")),
      Field(p, "rating", JStr("Unrated")),
      TagList(Get(p, "tags", JArr([]))) ]
  }

  function FormatProblem(problem: Json): (r: string)
    ensures "Contest ID: " <= r
  {
    Render(ProblemCaptions, ProblemValues(Fields(problem)))
  }

  // ---------------------------------------------------------------------
  // Submissions (format_submission)

  const SubmissionCaptions: seq<string> :=
    ["ID", "Contest ID", "Problem", "Author", "Programming Language", "Verdict",
     "Time Consumed", "Memory Consumed", "Creation Time"]

  /** `f"{problem.index} - {problem.name}"` */
  function ProblemTitle(problem: Record): string {
    Field(problem, "index", JStr("N/A")) + " - " + Field(problem, "name", JStr("No Name"))
  }

  function SubmissionValues(s: Record): seq<string> {
    [ Field(s, "id", JStr("N/A")),
      Field(s, "contestId", JStr("N/A")),
      ProblemTitle(Fields(Get(s, "problem", NoRecord))),
      MemberHandle(Fields(Get(s, "author", NoRecord))),
      Field(s, "programmingLanguage", JStr("Unknown")),
      Field(s, "verdict", JStr("Unknown")),
      Field(s, "timeConsumedMillis", JInt(0)) + " ms",
      Field(s, "memoryConsumedBytes", JInt(0)) + " bytes",
      Field(s, "creationTimeSeconds", JStr("N/A")) ]
  }

  function FormatSubmission(submission: Json): (r: string)
    ensures "ID: " <= r
  {
    Render(SubmissionCaptions, SubmissionValues(Fields(submission)))
  }

  // ---------------------------------------------------------------------
  // Blog comments (the loop body of get_blog_comments)

  const CommentCaptions: seq<string> := ["ID", "Author", "Text", "Creation Time", "Rating"]

  function CommentValues(c: Record): seq<string> {
    [ Field(c, "id", JStr("N/A")),
      Field(c, "commentatorHandle", JStr("Unknown")),
      Abbreviate(Field(c, "text", JStr("No text")), 200),
      Field(c, "creationTimeSeconds", JStr("N/A")),
      Field(c, "rating", JInt(0)) ]
  }

  function FormatComment(comment: Json): (r: string)
    ensures "ID: " <= r
  {
    Render(CommentCaptions, CommentValues(Fields(comment)))
  }

  // ---------------------------------------------------------------------
  // Hacks (the loop body of get_contest_hacks)

  const HackCaptions: seq<string> := ["ID", "Hacker", "Defender", "Problem", "Verdict", "Creation Time"]

  function HackValues(h: Record): seq<string> {
    [ Field(h, "id", JStr("N/A")),
      Field(Fields(Get(h, "hacker", NoRecord)), "handle", JStr("Unknown")),
      Field(Fields(Get(h, "defender", NoRecord)), "handle", JStr("Unknown")),
      Field(Fields(Get(h, "problem", NoRecord)), "index", JStr("N/A")),
      Field(h, "verdict", JStr("Unknown")),
      Field(h, "creationTimeSeconds", JStr("N/A")) ]
  }

  function FormatHack(hack: Json): (r: string)
    ensures "ID: " <= r
  {
    Render(HackCaptions, HackValues(Fields(hack)))
  }

  // ---------------------------------------------------------------------
  // Contest rating changes (the loop body of get_contest_rating_changes)

  const RatingChangeCaptions: seq<string> := ["Handle", "Rank", "Old Rating", "New Rating"]

  function RatingChangeValues(c: Record): seq<string> {
    [ Field(c, "handle", JStr("Unknown")),
      Field(c, "rank", JStr("N/A")),
      Field(c, "oldRating", JStr("N/A")),
      Field(c, "newRating", JStr("N/A")) ]
  }

  function FormatRatingChange(change: Json): (r: string)
    ensures "Handle: " <= r
  {
    Render(RatingChangeCaptions, RatingChangeValues(Fields(change)))
  }

  // ---------------------------------------------------------------------
  // Standings rows (the loop body of get_contest_standings)

  const StandingsRowCaptions: seq<string> :=
    ["Rank", "Handle", "Points", "Penalty", "Successful Hacks", "Unsuccessful Hacks"]

  function StandingsRowValues(row: Record): seq<string> {
    [ Field(row, "rank", JStr("N/A")),
      MemberHandle(Fields(Get(row, "party", NoRecord))),
      Field(row, "points", JInt(0)),
      Field(row, "penalty", JInt(0)),
      Field(row, "successfulHackCount", JInt(0)),
      Field(row, "unsuccessfulHackCount", JInt(0)) ]
  }

  function FormatStandingsRow(row: Json): (r: string)
    ensures "Rank: " <= r
  {
    Render(StandingsRowCaptions, StandingsRowValues(Fields(row)))
  }

  // ---------------------------------------------------------------------
  // Recent actions (the loop body of get_recent_actions)

  const ActionCaptions: seq<string> := ["Time", "Blog Entry", "Comment"]

  /** The comment part of an action: a truthy comment shows at most the
      first 100 characters of its text, then "..."; a missing or falsy one
      shows "N/A...". */
  function ActionComment(a: Record): (shown: string)
    ensures |shown| >= 3 && shown[|shown| - 3..] == "..."
    ensures !Truthy(Get(a, "comment", NoRecord)) ==> shown == "N/A..."
    ensures Truthy(Get(a, "comment", NoRecord)) ==>
      var text := Field(Fields(a["comment"]), "text", JStr("No comment"));
      && |shown| == Min(|text|, 100) + 3
      && shown[..|shown| - 3] <= text
      && (|text| <= 100 ==> shown == text + "...")
  {
    var comment := Get(a, "comment", NoRecord);
    if Truthy(comment) then Abbreviate(Field(Fields(comment), "text", JStr("No comment")), 100)
    else "N/A..."
  }

  function ActionValues(a: Record): seq<string> {
    [ Field(a, "timeSeconds", JStr("N/A")),
      Field(Fields(Get(a, "blogEntry", NoRecord)), "title", JStr("No Title")),
      ActionComment(a) ]
  }

  function FormatAction(action: Json): (r: string)
    ensures "Time: " <= r
  {
    Render(ActionCaptions, ActionValues(Fields(action)))
  }

  // ---------------------------------------------------------------------
  // Rating history (the loop body of get_user_rating_history)

  const RatingHistoryCaptions: seq<string> :=
    ["Contest", "Rank", "Old Rating", "New Rating", "Contest Time"]

  function RatingHistoryValues(c: Record): seq<string> {
    [ Field(c, "contestName", JStr("Unknown")),
      Field(c, "rank", JStr("N/A")),
      Field(c, "oldRating", JStr("N/A")),
      Field(c, "newRating", JStr("N/A")),
      Field(c, "ratingUpdateTimeSeconds", JStr("N/A")) ]
  }

  function FormatRatingHistoryEntry(change: Json): (r: string)
    ensures "Contest: " <= r
  {
    Render(RatingHistoryCaptions, RatingHistoryValues(Fields(change)))
  }

  // ---------------------------------------------------------------------
  // Missing keys fall back to their defaults

  /** Every key missing from a profile shows its default. */
  lemma ProfileDefaults(p: Record)
    ensures "handle" !in p ==> ProfileValues(p)[0] == "Unknown"
    ensures "firstName" !in p && "lastName" !in p ==> ProfileValues(p)[1] == " "
    ensures "rating" !in p ==> ProfileValues(p)[2] == "Unrated"
    ensures "rank" !in p ==> ProfileValues(p)[3] == "Unranked"
    ensures "maxRating" !in p ==> ProfileValues(p)[4] == "N/A"
    ensures "maxRank" !in p ==> ProfileValues(p)[5] == "N/A"
    ensures "country" !in p ==> ProfileValues(p)[6] == "Unknown"
    ensures "city" !in p ==> ProfileValues(p)[7] == "Unknown"
    ensures "organization" !in p ==> ProfileValues(p)[8] == "None"
    ensures "contribution" !in p ==> ProfileValues(p)[9] == "0"
    ensures "friendOfCount" !in p ==> ProfileValues(p)[10] == "0"
  {
  }

  lemma BlogEntryDefaults(e: Record)
    ensures "id" !in e ==> BlogEntryValues(e)[0] == "N/A"
    ensures "title" !in e ==> BlogEntryValues(e)[1] == "No Title"
    ensures "authorHandle" !in e ==> BlogEntryValues(e)[2] == "Unknown"
    ensures "creationTimeSeconds" !in e ==> BlogEntryValues(e)[3] == "N/A"
    ensures "rating" !in e ==> BlogEntryValues(e)[4] == "0"
    ensures "tags" !in e ==> BlogEntryValues(e)[5] == ""
  {
  }

  lemma ContestDefaults(c: Record)
    ensures "id" !in c ==> ContestValues(c)[0] == "N/A"
    ensures "name" !in c ==> ContestValues(c)[1] == "No Name"
    ensures "type" !in c ==> ContestValues(c)[2] == "Unknown"
    ensures "phase" !in c ==> ContestValues(c)[3] == "Unknown"
    ensures "durationSeconds" !in c ==> ContestValues(c)[4] == "0 seconds"
    ensures "startTimeSeconds" !in c ==> ContestValues(c)[5] == "N/A"
    ensures "difficulty" !in c ==> ContestValues(c)[6] == "N/A"
  {
  }

  lemma ProblemDefaults(p: Record)
    ensures "contestId" !in p ==> ProblemValues(p)[0] == "N/A"
    ensures "index" !in p ==> ProblemValues(p)[1] == "N/A"
    ensures "name" !in p ==> ProblemValues(p)[2] == "No Name"
    ensures "type" !in p ==> ProblemValues(p)[3] == "Unknown"
    ensures "points" !in p ==> ProblemValues(p)[4] == "N/A"
    ensures "rating" !in p ==> ProblemValues(p)[5] == "Unrated"
    ensures "tags" !in p ==> ProblemValues(p)[6] == ""
  {
  }

  /** Missing keys of a submission, of its problem and of its author show
      their defaults; an author without members is "Unknown". */
  lemma SubmissionDefaults(s: Record)
    ensures "id" !in s ==> SubmissionValues(s)[0] == "N/A"
    ensures "contestId" !in s ==> SubmissionValues(s)[1] == "N/A"
    ensures "problem" !in s ==> SubmissionValues(s)[2] == "N/A - No Name"
    ensures "author" !in s ==> SubmissionValues(s)[3] == "Unknown"
    ensures "programmingLanguage" !in s ==> SubmissionValues(s)[4] == "Unknown"
    ensures "verdict" !in s ==> SubmissionValues(s)[5] == "Unknown"
    ensures "timeConsumedMillis" !in s ==> SubmissionValues(s)[6] == "0 ms"
    ensures "memoryConsumedBytes" !in s ==> SubmissionValues(s)[7] == "0 bytes"
    ensures "creationTimeSeconds" !in s ==> SubmissionValues(s)[8] == "N/A"
  {
    ProblemTitleDefault();
  }

  /** A submission without a problem shows the title of an empty problem. */
  lemma ProblemTitleDefault()
    ensures ProblemTitle(map[]) == "N/A - No Name"
  {
  }

  lemma CommentDefaults(c: Record)
    ensures "id" !in c ==> CommentValues(c)[0] == "N/A"
    ensures "commentatorHandle" !in c ==> CommentValues(c)[1] == "Unknown"
    ensures "text" !in c ==> CommentValues(c)[2] == "No text..."
    ensures "creationTimeSeconds" !in c ==> CommentValues(c)[3] == "N/A"
    ensures "rating" !in c ==> CommentValues(c)[4] == "0"
  {
  }

  lemma HackDefaults(h: Record)
    ensures "id" !in h ==> HackValues(h)[0] == "N/A"
    ensures "hacker" !in h ==> HackValues(h)[1] == "Unknown"
    ensures "defender" !in h ==> HackValues(h)[2] == "Unknown"
    ensures "problem" !in h ==> HackValues(h)[3] == "N/A"
    ensures "verdict" !in h ==> HackValues(h)[4] == "Unknown"
    ensures "creationTimeSeconds" !in h ==> HackValues(h)[5] == "N/A"
  {
  }

  lemma RatingChangeDefaults(c: Record)
    ensures "handle" !in c ==> RatingChangeValues(c)[0] == "Unknown"
    ensures "rank" !in c ==> RatingChangeValues(c)[1] == "N/A"
    ensures "oldRating" !in c ==> RatingChangeValues(c)[2] == "N/A"
    ensures "newRating" !in c ==> RatingChangeValues(c)[3] == "N/A"
  {
  }

  lemma StandingsRowDefaults(row: Record)
    ensures "rank" !in row ==> StandingsRowValues(row)[0] == "N/A"
    ensures "party" !in row ==> StandingsRowValues(row)[1] == "Unknown"
    ensures "points" !in row ==> StandingsRowValues(row)[2] == "0"
    ensures "penalty" !in row ==> StandingsRowValues(row)[3] == "0"
    ensures "successfulHackCount" !in row ==> StandingsRowValues(row)[4] == "0"
    ensures "unsuccessfulHackCount" !in row ==> StandingsRowValues(row)[5] == "0"
  {
  }

  /** A missing or falsy comment gives "N/A..."; a comment without text gives
      "No comment...". */
  lemma ActionDefaults(a: Record)
    ensures "timeSeconds" !in a ==> ActionValues(a)[0] == "N/A"
    ensures "blogEntry" !in a ==> ActionValues(a)[1] == "No Title"
    ensures "comment" !in a || !Truthy(a["comment"]) ==> ActionValues(a)[2] == "N/A..."
    ensures "comment" in a && Truthy(a["comment"]) && "text" !in Fields(a["comment"]) ==>
      ActionValues(a)[2] == "No comment..."
  {
  }

  lemma RatingHistoryDefaults(c: Record)
    ensures "contestName" !in c ==> RatingHistoryValues(c)[0] == "Unknown"
    ensures "rank" !in c ==> RatingHistoryValues(c)[1] == "N/A"
    ensures "oldRating" !in c ==> RatingHistoryValues(c)[2] == "N/A"
    ensures "newRating" !in c ==> RatingHistoryValues(c)[3] == "N/A"
    ensures "ratingUpdateTimeSeconds" !in c ==> RatingHistoryValues(c)[4] == "N/A"
  {
  }

  // ---------------------------------------------------------------------
  // Free text is cut to a prefix and "..." is always appended

  /** A comment's text shows at most its first 200 characters, then "...". */
  lemma CommentTextTruncated(c: Record)
    ensures var text := Field(c, "text", JStr("No text"));
      var shown := CommentValues(c)[2];
      && |shown| == Min(|text|, 200) + 3
      && shown[..|shown| - 3] <= text
      && shown[|shown| - 3..] == "..."
      && (|text| <= 200 ==> shown == text + "...")
  {
  }

  // ---------------------------------------------------------------------
  // Formatted items are safe to join with the item separator

  /** A caption starts a line with something other than '-' and holds no newline. */
  predicate CaptionOk(caption: string) {
    |caption| > 0 && caption[0] != '-' && '\n' !in caption
  }

  predicate CaptionsOk(captions: seq<string>) {
    forall k :: 0 <= k < |captions| ==> CaptionOk(captions[k])
  }

  lemma ProfileCaptionsOk()
    ensures CaptionsOk(ProfileCaptions)
  {
  }

  lemma BlogEntryCaptionsOk()
    ensures CaptionsOk(BlogEntryCaptions)
  {
  }

  lemma ContestCaptionsOk()
    ensures CaptionsOk(ContestCaptions)
  {
  }

  lemma ProblemCaptionsOk()
    ensures CaptionsOk(ProblemCaptions)
  {
  }

  lemma SubmissionCaptionsOk()
    ensures CaptionsOk(SubmissionCaptions)
  {
  }

  lemma CommentCaptionsOk()
    ensures CaptionsOk(CommentCaptions)
  {
  }

  lemma HackCaptionsOk()
    ensures CaptionsOk(HackCaptions)
  {
  }

  lemma RatingChangeCaptionsOk()
    ensures CaptionsOk(RatingChangeCaptions)
  {
  }

  lemma StandingsRowCaptionsOk()
    ensures CaptionsOk(StandingsRowCaptions)
  {
  }

  lemma ActionCaptionsOk()
    ensures CaptionsOk(ActionCaptions)
  {
  }

  lemma RatingHistoryCaptionsOk()
    ensures CaptionsOk(RatingHistoryCaptions)
  {
  }

  predicate ValuesOk(values: seq<string>) {
    forall k :: 0 <= k < |values| ==> NoNewlineDash(values[k])
  }

  /** A default is an integer or a one-line string. */
  predicate PlainDefault(default: Json) {
    default.JInt? || (default.JStr? && '\n' !in default.s)
  }

  lemma LabelledSafe(caption: string, value: string)
    requires CaptionOk(caption) && NoNewlineDash(value)
    ensures SeparatorSafe(Labelled(caption, value))
  {
    NoNewlineNoDash(caption);
    NoNewlineDashConcat(caption, ": ");
    NoNewlineDashConcat(caption + ": ", value);
  }

  /** A block of lines with good captions and dash-safe values is safe to
      join with the item separator. */
  lemma RenderSafe(captions: seq<string>, values: seq<string>)
    requires |captions| == |values| > 0
    requires CaptionsOk(captions) && ValuesOk(values)
    ensures SeparatorSafe(Render(captions, values))
  {
    var lines := seq(|captions|, k requires 0 <= k < |captions| => Labelled(captions[k], values[k]));
    forall k | 0 <= k < |lines|
      ensures SeparatorSafe(lines[k])
    {
      LabelledSafe(captions[k], values[k]);
    }
    JoinNoNewlineDash(lines, "\n");
    assert Render(captions, values)[0] == lines[0][0];
  }

  lemma PlainFieldSafe(rec: Record, key: string, default: Json)
    requires DashSafe(JObj(rec)) && PlainDefault(default)
    ensures NoNewlineDash(Field(rec, key, default))
  {
    if default.JStr? {
      NoNewlineNoDash(default.s);
    }
    FieldNoNewlineDash(rec, key, default);
  }

  lemma FieldsSafe(j: Json)
    requires DashSafe(j)
    ensures DashSafe(JObj(Fields(j)))
  {
  }

  lemma SubRecordSafe(rec: Record, key: string)
    requires DashSafe(JObj(rec))
    ensures DashSafe(JObj(Fields(Get(rec, key, NoRecord))))
  {
    FieldsSafe(Get(rec, key, NoRecord));
  }

  lemma TagListSafe(tags: Json)
    requires DashSafe(tags)
    ensures NoNewlineDash(TagList(tags))
  {
    var xs := Items(tags);
    var shown := ShowAll(xs);
    forall k | 0 <= k < |shown|
      ensures NoNewlineDash(shown[k])
    {
      ShowNoNewlineDash(xs[k]);
    }
    JoinNoNewlineDash(shown, ", ");
  }

  lemma MemberHandleSafe(party: Record)
    requires DashSafe(JObj(party))
    ensures NoNewlineDash(MemberHandle(party))
  {
    if "members" in party && Truthy(party["members"]) && party["members"].JArr? {
      var first := party["members"].items[0];
      FieldsSafe(first);
      FieldNoNewlineDash(Fields(first), "handle", JStr("Unknown"));
    }
  }

  lemma SuffixSafe(value: string, suffix: string)
    requires NoNewlineDash(value) && '\n' !in suffix && suffix != [] && suffix[0] != '-'
    ensures NoNewlineDash(value + suffix)
  {
    NoNewlineNoDash(suffix);
    NoNewlineDashConcat(value, suffix);
  }

  lemma ProfileValuesSafe(p: Record)
    requires DashSafe(JObj(p))
    ensures ValuesOk(ProfileValues(p))
  {
    PlainFieldSafe(p, "handle", JStr("Unknown"));
    FullNameSafe(p);
    PlainFieldSafe(p, "rating", JStr("Unrated"));
    PlainFieldSafe(p, "rank", JStr("Unranked"));
    PlainFieldSafe(p, "maxRating", JStr("N/A"));
    PlainFieldSafe(p, "maxRank", JStr("N/A"));
    PlainFieldSafe(p, "country", JStr("Unknown"));
    PlainFieldSafe(p, "city", JStr("Unknown"));
    PlainFieldSafe(p, "organization", JStr("None"));
    PlainFieldSafe(p, "contribution", JInt(0));
    PlainFieldSafe(p, "friendOfCount", JInt(0));
  }

  /** A formatted Profile is safe to join with the item separator. */
  lemma FormatProfileSafe(profile: Json)
    requires DashSafe(profile)
    ensures SeparatorSafe(FormatProfile(profile))
  {
    FieldsSafe(profile);
    ProfileValuesSafe(Fields(profile));
    ProfileCaptionsOk();
    RenderSafe(ProfileCaptions, ProfileValues(Fields(profile)));
  }

  lemma BlogEntryValuesSafe(e: Record)
    requires DashSafe(JObj(e))
    ensures ValuesOk(BlogEntryValues(e))
  {
    PlainFieldSafe(e, "id", JStr("N/A"));
    PlainFieldSafe(e, "title", JStr("No Title"));
    PlainFieldSafe(e, "authorHandle", JStr("Unknown"));
    PlainFieldSafe(e, "creationTimeSeconds", JStr("N/A"));
    PlainFieldSafe(e, "rating", JInt(0));
    TagListSafe(Get(e, "tags", JArr([])));
  }

  /** A formatted BlogEntry is safe to join with the item separator. */
  lemma FormatBlogEntrySafe(entry: Json)
    requires DashSafe(entry)
    ensures SeparatorSafe(FormatBlogEntry(entry))
  {
    FieldsSafe(entry);
    BlogEntryValuesSafe(Fields(entry));
    BlogEntryCaptionsOk();
    RenderSafe(BlogEntryCaptions, BlogEntryValues(Fields(entry)));
  }

  lemma ContestValuesSafe(c: Record)
    requires DashSafe(JObj(c))
    ensures ValuesOk(ContestValues(c))
  {
    PlainFieldSafe(c, "id", JStr("N/A"));
    PlainFieldSafe(c, "name", JStr("No Name"));
    PlainFieldSafe(c, "type", JStr("Unknown"));
    PlainFieldSafe(c, "phase", JStr("Unknown"));
    PlainFieldSafe(c, "durationSeconds", JInt(0));
    SuffixSafe(Field(c, "durationSeconds", JInt(0)), " seconds");
    PlainFieldSafe(c, "startTimeSeconds", JStr("N/A"));
    PlainFieldSafe(c, "difficulty", JStr("N/A"));
  }

  /** A formatted Contest is safe to join with the item separator. */
  lemma FormatContestSafe(contest: Json)
    requires DashSafe(contest)
    ensures SeparatorSafe(FormatContest(contest))
  {
    FieldsSafe(contest);
    ContestValuesSafe(Fields(contest));
    ContestCaptionsOk();
    RenderSafe(ContestCaptions, ContestValues(Fields(contest)));
  }

  lemma ProblemValuesSafe(p: Record)
    requires DashSafe(JObj(p))
    ensures ValuesOk(ProblemValues(p))
  {
    PlainFieldSafe(p, "contestId", JStr("N/A"));
    PlainFieldSafe(p, "index", JStr("N/A"));
    PlainFieldSafe(p, "name", JStr("No Name"));
    PlainFieldSafe(p, "type", JStr("Unknown"));
    PlainFieldSafe(p, "points", JStr("N/A"));
    PlainFieldSafe(p, "rating", JStr("Unrated"));
    TagListSafe(Get(p, "tags", JArr([])));
  }

  /** A formatted Problem is safe to join with the item separator. */
  lemma FormatProblemSafe(problem: Json)
    requires DashSafe(problem)
    ensures SeparatorSafe(FormatProblem(problem))
  {
    FieldsSafe(problem);
    ProblemValuesSafe(Fields(problem));
    ProblemCaptionsOk();
    RenderSafe(ProblemCaptions, ProblemValues(Fields(problem)));
  }

  lemma FullNameSafe(p: Record)
    requires DashSafe(JObj(p))
    ensures NoNewlineDash(FullName(p))
  {
    var first, last := Field(p, "firstName", JStr("")), Field(p, "lastName", JStr(""));
    PlainFieldSafe(p, "firstName", JStr(""));
    PlainFieldSafe(p, "lastName", JStr(""));
    SuffixSafe(first, " ");
    NoNewlineDashConcat(first + " ", last);
  }

  lemma ProblemTitleSafe(problem: Record)
    requires DashSafe(JObj(problem))
    ensures NoNewlineDash(ProblemTitle(problem))
  {
    var index, name := Field(problem, "index", JStr("N/A")), Field(problem, "name", JStr("No Name"));
    PlainFieldSafe(problem, "index", JStr("N/A"));
    PlainFieldSafe(problem, "name", JStr("No Name"));
    SuffixSafe(index, " - ");
    NoNewlineDashConcat(index + " - ", name);
  }

  lemma SubmissionValuesSafe(s: Record)
    requires DashSafe(JObj(s))
    ensures ValuesOk(SubmissionValues(s))
  {
    PlainFieldSafe(s, "id", JStr("N/A"));
    PlainFieldSafe(s, "contestId", JStr("N/A"));
    SubRecordSafe(s, "problem");
    ProblemTitleSafe(Fields(Get(s, "problem", NoRecord)));
    SubRecordSafe(s, "author");
    MemberHandleSafe(Fields(Get(s, "author", NoRecord)));
    PlainFieldSafe(s, "programmingLanguage", JStr("Unknown"));
    PlainFieldSafe(s, "verdict", JStr("Unknown"));
    PlainFieldSafe(s, "timeConsumedMillis", JInt(0));
    SuffixSafe(Field(s, "timeConsumedMillis", JInt(0)), " ms");
    PlainFieldSafe(s, "memoryConsumedBytes", JInt(0));
    SuffixSafe(Field(s, "memoryConsumedBytes", JInt(0)), " bytes");
    PlainFieldSafe(s, "creationTimeSeconds", JStr("N/A"));
  }

  /** A formatted Submission is safe to join with the item separator. */
  lemma FormatSubmissionSafe(submission: Json)
    requires DashSafe(submission)
    ensures SeparatorSafe(FormatSubmission(submission))
  {
    FieldsSafe(submission);
    SubmissionValuesSafe(Fields(submission));
    SubmissionCaptionsOk();
    RenderSafe(SubmissionCaptions, SubmissionValues(Fields(submission)));
  }

  lemma CommentValuesSafe(c: Record)
    requires DashSafe(JObj(c))
    ensures ValuesOk(CommentValues(c))
  {
    PlainFieldSafe(c, "id", JStr("N/A"));
    PlainFieldSafe(c, "commentatorHandle", JStr("Unknown"));
    PlainFieldSafe(c, "text", JStr("No text"));
    AbbreviateNoNewlineDash(Field(c, "text", JStr("No text")), 200);
    PlainFieldSafe(c, "creationTimeSeconds", JStr("N/A"));
    PlainFieldSafe(c, "rating", JInt(0));
  }

  /** A formatted Comment is safe to join with the item separator. */
  lemma FormatCommentSafe(comment: Json)
    requires DashSafe(comment)
    ensures SeparatorSafe(FormatComment(comment))
  {
    FieldsSafe(comment);
    CommentValuesSafe(Fields(comment));
    CommentCaptionsOk();
    RenderSafe(CommentCaptions, CommentValues(Fields(comment)));
  }

  lemma HackValuesSafe(h: Record)
    requires DashSafe(JObj(h))
    ensures ValuesOk(HackValues(h))
  {
    PlainFieldSafe(h, "id", JStr("N/A"));
    SubRecordSafe(h, "hacker");
    PlainFieldSafe(Fields(Get(h, "hacker", NoRecord)), "handle", JStr("Unknown"));
    SubRecordSafe(h, "defender");
    PlainFieldSafe(Fields(Get(h, "defender", NoRecord)), "handle", JStr("Unknown"));
    SubRecordSafe(h, "problem");
    PlainFieldSafe(Fields(Get(h, "problem", NoRecord)), "index", JStr("N/A"));
    PlainFieldSafe(h, "verdict", JStr("Unknown"));
    PlainFieldSafe(h, "creationTimeSeconds", JStr("N/A"));
  }

  /** A formatted Hack is safe to join with the item separator. */
  lemma FormatHackSafe(hack: Json)
    requires DashSafe(hack)
    ensures SeparatorSafe(FormatHack(hack))
  {
    FieldsSafe(hack);
    HackValuesSafe(Fields(hack));
    HackCaptionsOk();
    RenderSafe(HackCaptions, HackValues(Fields(hack)));
  }

  lemma RatingChangeValuesSafe(c: Record)
    requires DashSafe(JObj(c))
    ensures ValuesOk(RatingChangeValues(c))
  {
    PlainFieldSafe(c, "handle", JStr("Unknown"));
    PlainFieldSafe(c, "rank", JStr("N/A"));
    PlainFieldSafe(c, "oldRating", JStr("N/A"));
    PlainFieldSafe(c, "newRating", JStr("N/A"));
  }

  /** A formatted RatingChange is safe to join with the item separator. */
  lemma FormatRatingChangeSafe(change: Json)
    requires DashSafe(change)
    ensures SeparatorSafe(FormatRatingChange(change))
  {
    FieldsSafe(change);
    RatingChangeValuesSafe(Fields(change));
    RatingChangeCaptionsOk();
    RenderSafe(RatingChangeCaptions, RatingChangeValues(Fields(change)));
  }

  lemma StandingsRowValuesSafe(r: Record)
    requires DashSafe(JObj(r))
    ensures ValuesOk(StandingsRowValues(r))
  {
    PlainFieldSafe(r, "rank", JStr("N/A"));
    SubRecordSafe(r, "party");
    MemberHandleSafe(Fields(Get(r, "party", NoRecord)));
    PlainFieldSafe(r, "points", JInt(0));
    PlainFieldSafe(r, "penalty", JInt(0));
    PlainFieldSafe(r, "successfulHackCount", JInt(0));
    PlainFieldSafe(r, "unsuccessfulHackCount", JInt(0));
  }

  /** A formatted StandingsRow is safe to join with the item separator. */
  lemma FormatStandingsRowSafe(row: Json)
    requires DashSafe(row)
    ensures SeparatorSafe(FormatStandingsRow(row))
  {
    FieldsSafe(row);
    StandingsRowValuesSafe(Fields(row));
    StandingsRowCaptionsOk();
    RenderSafe(StandingsRowCaptions, StandingsRowValues(Fields(row)));
  }

  lemma ActionValuesSafe(a: Record)
    requires DashSafe(JObj(a))
    ensures ValuesOk(ActionValues(a))
  {
    PlainFieldSafe(a, "timeSeconds", JStr("N/A"));
    SubRecordSafe(a, "blogEntry");
    PlainFieldSafe(Fields(Get(a, "blogEntry", NoRecord)), "title", JStr("No Title"));
    var comment := Get(a, "comment", NoRecord);
    if Truthy(comment) {
      FieldsSafe(comment);
      PlainFieldSafe(Fields(comment), "text", JStr("No comment"));
      AbbreviateNoNewlineDash(Field(Fields(comment), "text", JStr("No comment")), 100);
    } else {
      NoNewlineNoDash("N/A...");
    }
  }

  /** A formatted Action is safe to join with the item separator. */
  lemma FormatActionSafe(action: Json)
    requires DashSafe(action)
    ensures SeparatorSafe(FormatAction(action))
  {
    FieldsSafe(action);
    ActionValuesSafe(Fields(action));
    ActionCaptionsOk();
    RenderSafe(ActionCaptions, ActionValues(Fields(action)));
  }

  lemma RatingHistoryValuesSafe(c: Record)
    requires DashSafe(JObj(c))
    ensures ValuesOk(RatingHistoryValues(c))
  {
    PlainFieldSafe(c, "contestName", JStr("Unknown"));
    PlainFieldSafe(c, "rank", JStr("N/A"));
    PlainFieldSafe(c, "oldRating", JStr("N/A"));
    PlainFieldSafe(c, "newRating", JStr("N/A"));
    PlainFieldSafe(c, "ratingUpdateTimeSeconds", JStr("N/A"));
  }

  /** A formatted RatingHistory is safe to join with the item separator. */
  lemma FormatRatingHistoryEntrySafe(change: Json)
    requires DashSafe(change)
    ensures SeparatorSafe(FormatRatingHistoryEntry(change))
  {
    FieldsSafe(change);
    RatingHistoryValuesSafe(Fields(change));
    RatingHistoryCaptionsOk();
    RenderSafe(RatingHistoryCaptions, RatingHistoryValues(Fields(change)));
  }

  // ---------------------------------------------------------------------
  // Missing keys, as the formatted text shows them

  /** Values that fit on one line each. */
  predicate OneLine(values: seq<string>) {
    forall k :: 0 <= k < |values| ==> '\n' !in values[k]
  }

  /** Split at its newlines, a block of one-line values gives back its
      "Label: value" lines, one per caption and in order. */
  lemma RenderLines(captions: seq<string>, values: seq<string>)
    requires |captions| == |values| > 0
    requires CaptionsOk(captions) && OneLine(values)
    ensures |Lines(Render(captions, values))| == |captions|
    ensures forall k :: 0 <= k < |captions| ==>
      Lines(Render(captions, values))[k] == Labelled(captions[k], values[k])
  {
    var lines := seq(|captions|, k requires 0 <= k < |captions| => Labelled(captions[k], values[k]));
    forall k | 0 <= k < |lines|
      ensures '\n' !in lines[k]
    {
      assert lines[k] == captions[k] + ": " + values[k];
    }
    LinesOfJoin(lines);
  }

  /** A profile whose values fit on one line each shows, for every missing
      key, the line of its caption and default; the other blocks likewise. */
  lemma ProfileDefaultLines(p: Record)
    requires OneLine(ProfileValues(p))
    ensures |Lines(FormatProfile(JObj(p)))| == 11
    ensures "handle" !in p ==>
      Lines(FormatProfile(JObj(p)))[0] == Labelled("Handle", "Unknown")
    ensures "firstName" !in p && "lastName" !in p ==>
      Lines(FormatProfile(JObj(p)))[1] == Labelled("Name", " ")
    ensures "rating" !in p ==>
      Lines(FormatProfile(JObj(p)))[2] == Labelled("Rating", "Unrated")
    ensures "rank" !in p ==>
      Lines(FormatProfile(JObj(p)))[3] == Labelled("Rank", "Unranked")
    ensures "maxRating" !in p ==>
      Lines(FormatProfile(JObj(p)))[4] == Labelled("Max Rating", "N/A")
    ensures "maxRank" !in p ==>
      Lines(FormatProfile(JObj(p)))[5] == Labelled("Max Rank", "N/A")
    ensures "country" !in p ==>
      Lines(FormatProfile(JObj(p)))[6] == Labelled("Country", "Unknown")
    ensures "city" !in p ==>
      Lines(FormatProfile(JObj(p)))[7] == Labelled("City", "Unknown")
    ensures "organization" !in p ==>
      Lines(FormatProfile(JObj(p)))[8] == Labelled("Organization", "None")
    ensures "contribution" !in p ==>
      Lines(FormatProfile(JObj(p)))[9] == Labelled("Contribution", "0")
    ensures "friendOfCount" !in p ==>
      Lines(FormatProfile(JObj(p)))[10] == Labelled("Friend Count", "0")
  {
    ProfileDefaults(p);
    ProfileCaptionsOk();
    RenderLines(ProfileCaptions, ProfileValues(p));
  }

  lemma BlogEntryDefaultLines(e: Record)
    requires OneLine(BlogEntryValues(e))
    ensures |Lines(FormatBlogEntry(JObj(e)))| == 6
    ensures "id" !in e ==>
      Lines(FormatBlogEntry(JObj(e)))[0] == Labelled("ID", "N/A")
    ensures "title" !in e ==>
      Lines(FormatBlogEntry(JObj(e)))[1] == Labelled("Title", "No Title")
    ensures "authorHandle" !in e ==>
      Lines(FormatBlogEntry(JObj(e)))[2] == Labelled("Author", "Unknown")
    ensures "creationTimeSeconds" !in e ==>
      Lines(FormatBlogEntry(JObj(e)))[3] == Labelled("Creation Time", "N/A")
    ensures "rating" !in e ==>
      Lines(FormatBlogEntry(JObj(e)))[4] == Labelled("Rating", "0")
    ensures "tags" !in e ==>
      Lines(FormatBlogEntry(JObj(e)))[5] == Labelled("Tags", "")
  {
    BlogEntryDefaults(e);
    BlogEntryCaptionsOk();
    RenderLines(BlogEntryCaptions, BlogEntryValues(e));
  }

  lemma ContestDefaultLines(c: Record)
    requires OneLine(ContestValues(c))
    ensures |Lines(FormatContest(JObj(c)))| == 7
    ensures "id" !in c ==>
      Lines(FormatContest(JObj(c)))[0] == Labelled("ID", "N/A")
    ensures "name" !in c ==>
      Lines(FormatContest(JObj(c)))[1] == Labelled("Name", "No Name")
    ensures "type" !in c ==>
      Lines(FormatContest(JObj(c)))[2] == Labelled("Type", "Unknown")
    ensures "phase" !in c ==>
      Lines(FormatContest(JObj(c)))[3] == Labelled("Phase", "Unknown")
    ensures "durationSeconds" !in c ==>
      Lines(FormatContest(JObj(c)))[4] == Labelled("Duration", "0 seconds")
    ensures "startTimeSeconds" !in c ==>
      Lines(FormatContest(JObj(c)))[5] == Labelled("Start Time", "N/A")
    ensures "difficulty" !in c ==>
      Lines(FormatContest(JObj(c)))[6] == Labelled("Difficulty", "N/A")
  {
    ContestDefaults(c);
    ContestCaptionsOk();
    RenderLines(ContestCaptions, ContestValues(c));
  }

  lemma ProblemDefaultLines(p: Record)
    requires OneLine(ProblemValues(p))
    ensures |Lines(FormatProblem(JObj(p)))| == 7
    ensures "contestId" !in p ==>
      Lines(FormatProblem(JObj(p)))[0] == Labelled("Contest ID", "N/A")
    ensures "index" !in p ==>
      Lines(FormatProblem(JObj(p)))[1] == Labelled("Index", "N/A")
    ensures "name" !in p ==>
      Lines(FormatProblem(JObj(p)))[2] == Labelled("Name", "No Name")
    ensures "type" !in p ==>
      Lines(FormatProblem(JObj(p)))[3] == Labelled("Type", "Unknown")
    ensures "points" !in p ==>
      Lines(FormatProblem(JObj(p)))[4] == Labelled("Points", "N/A")
    ensures "rating" !in p ==>
      Lines(FormatProblem(JObj(p)))[5] == Labelled("Rating", "Unrated")
    ensures "tags" !in p ==>
      Lines(FormatProblem(JObj(p)))[6] == Labelled("Tags", "")
  {
    ProblemDefaults(p);
    ProblemCaptionsOk();
    RenderLines(ProblemCaptions, ProblemValues(p));
  }

  lemma SubmissionDefaultLines(s: Record)
    requires OneLine(SubmissionValues(s))
    ensures |Lines(FormatSubmission(JObj(s)))| == 9
    ensures "id" !in s ==>
      Lines(FormatSubmission(JObj(s)))[0] == Labelled("ID", "N/A")
    ensures "contestId" !in s ==>
      Lines(FormatSubmission(JObj(s)))[1] == Labelled("Contest ID", "N/A")
    ensures "problem" !in s ==>
      Lines(FormatSubmission(JObj(s)))[2] == Labelled("Problem", "N/A - No Name")
    ensures "author" !in s ==>
      Lines(FormatSubmission(JObj(s)))[3] == Labelled("Author", "Unknown")
    ensures "programmingLanguage" !in s ==>
      Lines(FormatSubmission(JObj(s)))[4] == Labelled("Programming Language", "Unknown")
    ensures "verdict" !in s ==>
      Lines(FormatSubmission(JObj(s)))[5] == Labelled("Verdict", "Unknown")
    ensures "timeConsumedMillis" !in s ==>
      Lines(FormatSubmission(JObj(s)))[6] == Labelled("Time Consumed", "0 ms")
    ensures "memoryConsumedBytes" !in s ==>
      Lines(FormatSubmission(JObj(s)))[7] == Labelled("Memory Consumed", "0 bytes")
    ensures "creationTimeSeconds" !in s ==>
      Lines(FormatSubmission(JObj(s)))[8] == Labelled("Creation Time", "N/A")
  {
    SubmissionDefaults(s);
    SubmissionCaptionsOk();
    RenderLines(SubmissionCaptions, SubmissionValues(s));
  }

  lemma CommentDefaultLines(c: Record)
    requires OneLine(CommentValues(c))
    ensures |Lines(FormatComment(JObj(c)))| == 5
    ensures "id" !in c ==>
      Lines(FormatComment(JObj(c)))[0] == Labelled("ID", "N/A")
    ensures "commentatorHandle" !in c ==>
      Lines(FormatComment(JObj(c)))[1] == Labelled("Author", "Unknown")
    ensures "text" !in c ==>
      Lines(FormatComment(JObj(c)))[2] == Labelled("Text", "No text...")
    ensures "creationTimeSeconds" !in c ==>
      Lines(FormatComment(JObj(c)))[3] == Labelled("Creation Time", "N/A")
    ensures "rating" !in c ==>
      Lines(FormatComment(JObj(c)))[4] == Labelled("Rating", "0")
  {
    CommentDefaults(c);
    CommentCaptionsOk();
    RenderLines(CommentCaptions, CommentValues(c));
  }

  lemma HackDefaultLines(h: Record)
    requires OneLine(HackValues(h))
    ensures |Lines(FormatHack(JObj(h)))| == 6
    ensures "id" !in h ==>
      Lines(FormatHack(JObj(h)))[0] == Labelled("ID", "N/A")
    ensures "hacker" !in h ==>
      Lines(FormatHack(JObj(h)))[1] == Labelled("Hacker", "Unknown")
    ensures "defender" !in h ==>
      Lines(FormatHack(JObj(h)))[2] == Labelled("Defender", "Unknown")
    ensures "problem" !in h ==>
      Lines(FormatHack(JObj(h)))[3] == Labelled("Problem", "N/A")
    ensures "verdict" !in h ==>
      Lines(FormatHack(JObj(h)))[4] == Labelled("Verdict", "Unknown")
    ensures "creationTimeSeconds" !in h ==>
      Lines(FormatHack(JObj(h)))[5] == Labelled("Creation Time", "N/A")
  {
    HackDefaults(h);
    HackCaptionsOk();
    RenderLines(HackCaptions, HackValues(h));
  }

  lemma RatingChangeDefaultLines(c: Record)
    requires OneLine(RatingChangeValues(c))
    ensures |Lines(FormatRatingChange(JObj(c)))| == 4
    ensures "handle" !in c ==>
      Lines(FormatRatingChange(JObj(c)))[0] == Labelled("Handle", "Unknown")
    ensures "rank" !in c ==>
      Lines(FormatRatingChange(JObj(c)))[1] == Labelled("Rank", "N/A")
    ensures "oldRating" !in c ==>
      Lines(FormatRatingChange(JObj(c)))[2] == Labelled("Old Rating", "N/A")
    ensures "newRating" !in c ==>
      Lines(FormatRatingChange(JObj(c)))[3] == Labelled("New Rating", "N/A")
  {
    RatingChangeDefaults(c);
    RatingChangeCaptionsOk();
    RenderLines(RatingChangeCaptions, RatingChangeValues(c));
  }

  lemma StandingsRowDefaultLines(row: Record)
    requires OneLine(StandingsRowValues(row))
    ensures |Lines(FormatStandingsRow(JObj(row)))| == 6
    ensures "rank" !in row ==>
      Lines(FormatStandingsRow(JObj(row)))[0] == Labelled("Rank", "N/A")
    ensures "party" !in row ==>
      Lines(FormatStandingsRow(JObj(row)))[1] == Labelled("Handle", "Unknown")
    ensures "points" !in row ==>
      Lines(FormatStandingsRow(JObj(row)))[2] == Labelled("Points", "0")
    ensures "penalty" !in row ==>
      Lines(FormatStandingsRow(JObj(row)))[3] == Labelled("Penalty", "0")
    ensures "successfulHackCount" !in row ==>
      Lines(FormatStandingsRow(JObj(row)))[4] == Labelled("Successful Hacks", "0")
    ensures "unsuccessfulHackCount" !in row ==>
      Lines(FormatStandingsRow(JObj(row)))[5] == Labelled("Unsuccessful Hacks", "0")
  {
    StandingsRowDefaults(row);
    StandingsRowCaptionsOk();
    RenderLines(StandingsRowCaptions, StandingsRowValues(row));
  }

  lemma ActionDefaultLines(a: Record)
    requires OneLine(ActionValues(a))
    ensures |Lines(FormatAction(JObj(a)))| == 3
    ensures "timeSeconds" !in a ==>
      Lines(FormatAction(JObj(a)))[0] == Labelled("Time", "N/A")
    ensures "blogEntry" !in a ==>
      Lines(FormatAction(JObj(a)))[1] == Labelled("Blog Entry", "No Title")
    ensures "comment" !in a || !Truthy(a["comment"]) ==>
      Lines(FormatAction(JObj(a)))[2] == Labelled("Comment", "N/A...")
    ensures "comment" in a && Truthy(a["comment"]) && "text" !in Fields(a["comment"]) ==>
      Lines(FormatAction(JObj(a)))[2] == Labelled("Comment", "No comment...")
  {
    ActionDefaults(a);
    ActionCaptionsOk();
    RenderLines(ActionCaptions, ActionValues(a));
  }

  lemma RatingHistoryDefaultLines(c: Record)
    requires OneLine(RatingHistoryValues(c))
    ensures |Lines(FormatRatingHistoryEntry(JObj(c)))| == 5
    ensures "contestName" !in c ==>
      Lines(FormatRatingHistoryEntry(JObj(c)))[0] == Labelled("Contest", "Unknown")
    ensures "rank" !in c ==>
      Lines(FormatRatingHistoryEntry(JObj(c)))[1] == Labelled("Rank", "N/A")
    ensures "oldRating" !in c ==>
      Lines(FormatRatingHistoryEntry(JObj(c)))[2] == Labelled("Old Rating", "N/A")
    ensures "newRating" !in c ==>
      Lines(FormatRatingHistoryEntry(JObj(c)))[3] == Labelled("New Rating", "N/A")
    ensures "ratingUpdateTimeSeconds" !in c ==>
      Lines(FormatRatingHistoryEntry(JObj(c)))[4] == Labelled("Contest Time", "N/A")
  {
    RatingHistoryDefaults(c);
    RatingHistoryCaptionsOk();
    RenderLines(RatingHistoryCaptions, RatingHistoryValues(c));
  }
}
