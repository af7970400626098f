# Codeforces MCP server: request and reply shaping

The server exposes fifteen read-only tools over the Codeforces REST API. Each
tool does three things:

- it turns its typed arguments into one `GET https://codeforces.com/api/<method>`
  with a parameter map;
- it classifies the decoded JSON payload;
- it renders the result as text.

For the text it uses `.get` defaults for every field, cuts free text to a
prefix and joins the items with the separator line `"\n---\n"`. This project
models that layer of `mcpserver/app.py` in Dafny and proves what it promises.

The model has five modules:

- `Text`: Python's `str.join`, `str.split` at newlines (`Lines`), the
  `s[:n] + "..."` truncation, one-character `str.replace`, and the count of
  separator occurrences in a string.
- `Values`: decoded JSON (`Json`), Python truthiness, `dict.get` with a default,
  and `str()` as an f-string renders a value (`Show`).
- `Records`: the per-entity formatters. Each record becomes a caption list and a
  value list, and `Render` lays them out as `"Caption: value"` lines joined with
  newlines. Formatters that are written inline in a handler's loop get their own
  formatter here too (comment, hack, rating change, standings row, recent
  action, rating history entry).
- `Requests`: the parameter builders. Handlers that build their parameter dict
  step by step are methods that update a local map; handlers that pass a
  literal dict are functions.
- `Replies`: the classifier and the fifteen replies.
  - Each reply takes the payload the API client produced, an `Option<Json>`:
    `None` stands for every failure the client swallows.
  - The six handlers that collect their lines in a `for` loop with `append` are
    methods with that loop (`AppendFormatted`). Each is proved equal to its
    reply function.

A handler is its request builder, then the network call, then its reply
function. The network call is not modelled, so the two halves are stated and
proved separately.

Two properties carry most of the weight:

- **Classification.** For the twelve list handlers, whose items are the
  result itself, the reply is the "Unable to fetch …" message exactly when the
  payload is missing, is not an object, or has no `"result"` key. It is the
  "No … found." message exactly when the result is falsy. Otherwise the reply
  is the join of the formatted items of the result, in order (the first 20 or
  50 under a cap). An item never starts with 'U' or 'N', so the join is
  neither message. A truthy result that is not a list has no items here, and
  its reply is the empty string. The other three handlers differ:
  - the problem list tests `result.problems` for falsiness instead of the
    result, so a result `{"problems": []}` gives "No problems found.";
  - the blog entry reply has no "No … found." message: any usable payload
    gives the formatted entry followed by its content line;
  - the standings reply has no "No … found." message either: any usable
    payload gives the "Contest Info:" header with the formatted contest,
    then "Standings:" and the formatted rows joined with the separator.
- **Separator count.** Joining n ≥ 1 formatted items gives exactly n − 1
  occurrences of `"\n---\n"`, and a single item comes back unchanged.
  - This is proved for items whose strings never have a newline directly
    followed by `-` (`DashSafe`).
  - The weaker-looking condition "the items contain no separator" is not
    enough. An item ending in `"\n---"`, or a next item starting with
    `"---\n"`, would create an extra occurrence across the seam.
  - Under `DashSafe` every formatted item is `SeparatorSafe`: it is non-empty,
    does not start with `-`, and has no newline directly followed by `-`. Items
    of that kind cannot combine into a separator.

## Model

| member | source | states |
|---|---|---|
| `Text.Min` | mcpserver/app.py:320 | `min(a, b)` is at most each argument and equal to one of them |
| `Text.Join` | mcpserver/app.py:113 | `sep.join(xs)` begins with the first item |
| `Text.JoinLength` | mcpserver/app.py:113 | a join of n ≥ 1 items is as long as the items plus n − 1 separators |
| `Text.JoinSeparatorCount` | mcpserver/app.py:113 | n ≥ 1 separator-safe items joined with `"\n---\n"` contain exactly n − 1 occurrences of it; a single item is returned as it is |
| `Text.Abbreviate` | mcpserver/app.py:109 | `s[:n] + "..."` has length `min(len(s), n) + 3`, starts with a prefix of `s`, always ends in `"..."`, and is `s + "..."` when nothing is cut |
| `Text.ReplaceChar` | mcpserver/app.py:370 | `s.replace(a, b)` has the length of `s` and differs from it exactly at the positions holding `a`, which now hold `b` |
| `Text.ReplaceCharConcat` | mcpserver/app.py:370 | replacement distributes over concatenation |
| `Text.LinesOfJoin` | mcpserver/app.py:31-41 | splitting newline-free lines joined with `"\n"` at the newlines gives back exactly those lines |
| `Values.FalsyValues` | mcpserver/app.py:102 | a value is falsy exactly when it is `None`, `False`, `0`, `0.0`, `""`, `[]` or `{}`, as `if not data["result"]` tests it |
| `Values.Field` | mcpserver/app.py:31-41 | `f"{rec.get(key, default)}"` renders the stored value when the key is present and the default otherwise |
| `Values.NatToString` | mcpserver/app.py:40-41 | `str()` of a non-negative integer is a non-empty string of decimal digits with no leading zero; it starts with '0' exactly for 0, which is "0" |
| `Values.NatToStringRoundTrip` | mcpserver/app.py:40-41 | reading those digits back gives the number |
| `Values.IntToString` | mcpserver/app.py:40-41 | `str()` of an integer starts with '-' exactly for negatives, and the rest is digits with no leading zero whose value is the magnitude |
| `Values.ShowCases` | mcpserver/app.py:31-41 | what an f-string shows for each kind of value: the string itself, "None", "True"/"False", the integer's digits, an integral float's digits then ".0", placeholders for lists and dicts |
| `Records.Render` | mcpserver/app.py:31-41 | a block starts with its first `"Caption: value"` line |
| `Records.RenderLines` | mcpserver/app.py:31-41 | split at its newlines, a block of one-line values is exactly its `"Caption: value"` lines, one per caption, in order |
| `Records.TagList` | mcpserver/app.py:51 | `", ".join(tags)` is empty for no tags, the tag itself for one, and for more the first tag, ", ", then the join of the remaining tags: every tag, in order |
| `Records.MemberHandle` | mcpserver/app.py:81 | the author is `members[0].handle` (default "Unknown") when `members` is a non-empty list, and "Unknown" when it is missing or empty |
| `Records.FormatProfile` | mcpserver/app.py:29-41 | a profile block starts with "Handle: " |
| `Records.ProfileDefaults` | mcpserver/app.py:31-41 | each missing profile key shows its default: Unknown, " " for the name, Unrated, Unranked, N/A, N/A, Unknown, Unknown, None, 0, 0 |
| `Records.ProfileDefaultLines` | mcpserver/app.py:29-41 | when every value fits on one line, the text of the block has one line per caption, and the line of each missing key is its caption with the default (e.g. "Rating: Unrated") |
| `Records.FormatProfileSafe` | mcpserver/app.py:29-41 | a profile whose strings never start a line with `-` formats to a separator-safe block |
| `Records.FormatBlogEntry` | mcpserver/app.py:44-51 | a blog entry block starts with "ID: " |
| `Records.BlogEntryDefaults` | mcpserver/app.py:46-51 | missing blog entry keys show N/A, No Title, Unknown, N/A, 0, and no tags |
| `Records.BlogEntryDefaultLines` | mcpserver/app.py:44-51 | when every value fits on one line, the text of the block has one line per caption, and the line of each missing key is its caption with the default (e.g. "Title: No Title") |
| `Records.FormatBlogEntrySafe` | mcpserver/app.py:44-51 | a dash-safe blog entry formats to a separator-safe block |
| `Records.FormatContest` | mcpserver/app.py:54-62 | a contest block starts with "ID: " |
| `Records.ContestDefaults` | mcpserver/app.py:56-62 | missing contest keys show N/A, No Name, Unknown, Unknown, "0 seconds", N/A, N/A |
| `Records.ContestDefaultLines` | mcpserver/app.py:54-62 | when every value fits on one line, the text of the block has one line per caption, and the line of each missing key is its caption with the default (e.g. "Name: No Name") |
| `Records.FormatContestSafe` | mcpserver/app.py:54-62 | a dash-safe contest formats to a separator-safe block |
| `Records.FormatProblem` | mcpserver/app.py:65-73 | a problem block starts with "Contest ID: " |
| `Records.ProblemDefaults` | mcpserver/app.py:67-73 | missing problem keys show N/A, N/A, No Name, Unknown, N/A, Unrated, and no tags |
| `Records.ProblemDefaultLines` | mcpserver/app.py:65-73 | when every value fits on one line, the text of the block has one line per caption, and the line of each missing key is its caption with the default (e.g. "Rating: Unrated") |
| `Records.FormatProblemSafe` | mcpserver/app.py:65-73 | a dash-safe problem formats to a separator-safe block |
| `Records.FormatSubmission` | mcpserver/app.py:76-87 | a submission block starts with "ID: " |
| `Records.SubmissionDefaults` | mcpserver/app.py:78-87 | missing submission keys show their defaults; a missing problem shows "N/A - No Name" and a missing author "Unknown" |
| `Records.ProblemTitleDefault` | mcpserver/app.py:80 | a problem with no index and no name is shown as "N/A - No Name" |
| `Records.SubmissionDefaultLines` | mcpserver/app.py:76-87 | when every value fits on one line, the text of the block has one line per caption, and the line of each missing key is its caption with the default (e.g. "Problem: N/A - No Name") |
| `Records.FormatSubmissionSafe` | mcpserver/app.py:76-87 | a dash-safe submission formats to a separator-safe block |
| `Records.FormatComment` | mcpserver/app.py:107-111 | a comment block starts with "ID: " |
| `Records.CommentDefaults` | mcpserver/app.py:107-111 | missing comment keys show N/A, Unknown, "No text...", N/A, 0 |
| `Records.CommentDefaultLines` | mcpserver/app.py:107-111 | when every value fits on one line, the text of the block has one line per caption, and the line of each missing key is its caption with the default (e.g. "Text: No text...") |
| `Records.CommentTextTruncated` | mcpserver/app.py:109 | the comment text shows at most its first 200 characters, then "..." even when nothing was cut |
| `Records.FormatCommentSafe` | mcpserver/app.py:107-111 | a dash-safe comment formats to a separator-safe block |
| `Records.FormatHack` | mcpserver/app.py:156-161 | a hack block starts with "ID: " |
| `Records.HackDefaults` | mcpserver/app.py:156-161 | missing hack keys, and missing hacker, defender or problem records, show their defaults |
| `Records.HackDefaultLines` | mcpserver/app.py:156-161 | when every value fits on one line, the text of the block has one line per caption, and the line of each missing key is its caption with the default (e.g. "Verdict: Unknown") |
| `Records.FormatHackSafe` | mcpserver/app.py:156-161 | a dash-safe hack formats to a separator-safe block |
| `Records.FormatRatingChange` | mcpserver/app.py:209-212 | a rating change block starts with "Handle: " |
| `Records.RatingChangeDefaults` | mcpserver/app.py:209-212 | missing rating change keys show Unknown, N/A, N/A, N/A |
| `Records.RatingChangeDefaultLines` | mcpserver/app.py:209-212 | when every value fits on one line, the text of the block has one line per caption, and the line of each missing key is its caption with the default (e.g. "Handle: Unknown") |
| `Records.FormatRatingChangeSafe` | mcpserver/app.py:209-212 | a dash-safe rating change formats to a separator-safe block |
| `Records.FormatStandingsRow` | mcpserver/app.py:245-252 | a standings row starts with "Rank: " |
| `Records.StandingsRowDefaults` | mcpserver/app.py:245-252 | missing row keys show N/A, Unknown (no party), 0, 0, 0, 0 |
| `Records.StandingsRowDefaultLines` | mcpserver/app.py:245-252 | when every value fits on one line, the text of the block has one line per caption, and the line of each missing key is its caption with the default (e.g. "Points: 0") |
| `Records.FormatStandingsRowSafe` | mcpserver/app.py:245-252 | a dash-safe standings row formats to a separator-safe block |
| `Records.FormatAction` | mcpserver/app.py:354-356 | a recent action block starts with "Time: " |
| `Records.ActionDefaults` | mcpserver/app.py:354-356 | a missing time or blog entry shows N/A or No Title; a missing or falsy comment shows "N/A..."; a comment without text shows "No comment..." |
| `Records.ActionDefaultLines` | mcpserver/app.py:354-356 | when every value fits on one line, the text of the block has one line per caption, and the line of each missing key is its caption with the default (e.g. "Comment: N/A...") |
| `Records.ActionComment` | mcpserver/app.py:356 | a truthy comment shows at most the first 100 characters of its text, as a prefix, then "..."; a missing or falsy one shows "N/A..." |
| `Records.FormatActionSafe` | mcpserver/app.py:354-356 | a dash-safe action formats to a separator-safe block |
| `Records.FormatRatingHistoryEntry` | mcpserver/app.py:452-456 | a rating history block starts with "Contest: " |
| `Records.RatingHistoryDefaults` | mcpserver/app.py:452-456 | missing rating history keys show Unknown, N/A, N/A, N/A, N/A |
| `Records.RatingHistoryDefaultLines` | mcpserver/app.py:452-456 | when every value fits on one line, the text of the block has one line per caption, and the line of each missing key is its caption with the default (e.g. "Contest: Unknown") |
| `Records.FormatRatingHistoryEntrySafe` | mcpserver/app.py:452-456 | a dash-safe rating history entry formats to a separator-safe block |
| `Requests.NormalizeHandles` | mcpserver/app.py:370 | the sent handle list has the input's length, contains no `,`, and differs from the input only where it had `,`, which is now `;` |
| `Requests.NormalizeHandlesIdempotent` | mcpserver/app.py:370 | normalising twice equals normalising once |
| `Requests.NormalizeHandlesKeepsSemicolonLists` | mcpserver/app.py:370 | a list without commas is sent unchanged |
| `Requests.NormalizeHandlesJoin` | mcpserver/app.py:370 | comma-free handles joined with `,` are sent joined with `;` |
| `Requests.NormalizeHandlesExample` | mcpserver/app.py:370 | "tourist,Petr" is sent as "tourist;Petr" |
| `Requests.BlogCommentsRequest` | mcpserver/app.py:97 | `blogEntry.comments` with exactly the `blogEntryId` parameter |
| `Requests.BlogEntryRequest` | mcpserver/app.py:123 | `blogEntry.view` with exactly the `blogEntryId` parameter |
| `Requests.ContestHacksRequest` | mcpserver/app.py:142-146 | `contestId` always; `asManager` present, as "true", exactly when asked for; no other key |
| `Requests.ContestListRequest` | mcpserver/app.py:174-180 | `gym` present, as "true", exactly when set; `groupCode` exactly when non-empty; no other key |
| `Requests.ContestRatingChangesRequest` | mcpserver/app.py:199 | `contest.ratingChanges` with exactly the `contestId` parameter |
| `Requests.ContestStandingsRequest` | mcpserver/app.py:229-235 | `contestId`, `from`, `count` always and unclamped; `handles` exactly when non-empty, passed through unchanged; `showUnofficial` as "true" exactly when set |
| `Requests.ContestStatusRequest` | mcpserver/app.py:268-272 | `contestId`, `from`, `count` always; `handle` exactly when non-empty |
| `Requests.ProblemsetProblemsRequest` | mcpserver/app.py:293-299 | `tags` and `problemsetName` each present exactly when non-empty; nothing else |
| `Requests.ProblemsetRecentStatusRequest` | mcpserver/app.py:320-324 | the sent `count` is at most 1000, equals the argument whenever that is at most 1000 (negative values included), and is 1000 otherwise |
| `Requests.RecentActionsRequest` | mcpserver/app.py:344 | the sent `maxCount` is at most 100, equals the argument whenever that is at most 100, and is 100 otherwise |
| `Requests.RecentActionsClampExample` | mcpserver/app.py:344 | a request for 500 actions sends `maxCount` 100 |
| `Requests.UserInfoRequest` | mcpserver/app.py:370-374 | `handles` always, normalised; `checkHistoricHandles` present, as "false", exactly when switched off |
| `Requests.UserBlogEntriesRequest` | mcpserver/app.py:393 | `user.blogEntries` with exactly the `handle` parameter |
| `Requests.UserRatedListRequest` | mcpserver/app.py:415-423 | `activeOnly` as "true" exactly when set; `includeRetired` as "false" exactly when switched off; `contestId` exactly when given and non-zero |
| `Requests.UserRatingRequest` | mcpserver/app.py:442 | `user.rating` with exactly the `handle` parameter |
| `Requests.UserStatusRequest` | mcpserver/app.py:470-472 | `user.status` with exactly `handle`, `from` and `count` |
| `Replies.Classify` | mcpserver/app.py:99 | a payload is usable exactly when it is an object with a `"result"` key, and then the result is that key's value |
| `Replies.Shown` | mcpserver/app.py:188 | the shown items are a prefix of the result, all of it when uncapped and `min(len, n)` items under a cap n |
| `Replies.FormatEach` | mcpserver/app.py:188 | the list comprehension formats every item, in order |
| `Replies.ListReply` | mcpserver/app.py:99-113 | an unusable payload gives the "Unable" message, a falsy result the "No … found." message, and a truthy one the join of its shown items, formatted in order |
| `Replies.ListReplyOutcome` | mcpserver/app.py:99-113 | the reply is the "Unable" message exactly when the payload is unusable, and the "No … found." message exactly when the result is falsy |
| `Replies.ListReplySeparators` | mcpserver/app.py:113 | with n ≥ 1 dash-safe items shown, the reply holds n − 1 separators, and one item is returned alone |
| `Replies.AppendFormatted` | mcpserver/app.py:105-111 | the `for`/`append` loop produces the formatted items in order |
| `Replies.BlogCommentsReply` | mcpserver/app.py:99-113 | "Unable to fetch blog comments." and "No comments found." exactly in their cases; otherwise every item of the result formatted in order and joined with the separator |
| `Replies.GetBlogComments` | mcpserver/app.py:97-113 | the handler's loop computes `BlogCommentsReply` |
| `Replies.BlogCommentsSeparators` | mcpserver/app.py:113 | n dash-safe comments give n − 1 separators; one comment is returned alone |
| `Replies.BlogEntryReply` | mcpserver/app.py:125-130 | "Unable to fetch blog entry." exactly for an unusable payload; otherwise the formatted entry followed by its content line |
| `Replies.BlogContent` | mcpserver/app.py:130 | the content shows at most the first 500 characters of the text, as a prefix, then "..." even when nothing was cut; "No content..." when there is no text |
| `Replies.ContestHacksReply` | mcpserver/app.py:148-163 | "Unable to fetch contest hacks." and "No hacks found." exactly in their cases; otherwise every item of the result formatted in order and joined with the separator |
| `Replies.GetContestHacks` | mcpserver/app.py:146-163 | the handler's loop computes `ContestHacksReply` |
| `Replies.ContestHacksSeparators` | mcpserver/app.py:163 | n dash-safe hacks give n − 1 separators |
| `Replies.ContestListReply` | mcpserver/app.py:182-189 | the two messages exactly in their cases; otherwise the join of the first `min(len, 20)` contests, in order |
| `Replies.ContestListSeparators` | mcpserver/app.py:188-189 | n dash-safe contests give `min(n, 20) − 1` separators |
| `Replies.ContestRatingChangesReply` | mcpserver/app.py:201-214 | the two messages exactly in their cases; otherwise the join of the first `min(len, 50)` changes, in order |
| `Replies.GetContestRatingChanges` | mcpserver/app.py:199-214 | the handler's loop over `[:50]` computes `ContestRatingChangesReply` |
| `Replies.ContestRatingChangesSeparators` | mcpserver/app.py:208-214 | n dash-safe changes give `min(n, 50) − 1` separators |
| `Replies.StandingsReply` | mcpserver/app.py:237-254 | "Unable to fetch contest standings." exactly for an unusable payload; otherwise "Contest Info:", the formatted contest (`{}` when missing), "Standings:", then every row formatted in order and joined with the separator, even for an empty result |
| `Replies.StandingsSeparators` | mcpserver/app.py:243-254 | for a dash-safe result the reply holds n − 1 separators for n ≥ 1 rows and none for no rows: the header adds none |
| `Replies.GetContestStandings` | mcpserver/app.py:235-254 | the handler's loop over the rows computes `StandingsReply` |
| `Replies.ContestStatusReply` | mcpserver/app.py:274-281 | "Unable to fetch contest submissions." and "No submissions found." exactly in their cases; otherwise every item of the result formatted in order and joined with the separator |
| `Replies.ContestStatusSeparators` | mcpserver/app.py:281 | n dash-safe submissions give n − 1 separators |
| `Replies.ProblemsetProblemsReply` | mcpserver/app.py:301-309 | "Unable to fetch problems." for an unusable payload; "No problems found." exactly when `result.problems` is falsy; otherwise the first `min(len, 50)` problems joined |
| `Replies.ProblemsetProblemsSeparators` | mcpserver/app.py:304-309 | n dash-safe problems give `min(n, 50) − 1` separators |
| `Replies.ProblemsetRecentStatusReply` | mcpserver/app.py:326-333 | "Unable to fetch recent submissions." and "No submissions found." exactly in their cases; otherwise every item of the result formatted in order and joined with the separator |
| `Replies.ProblemsetRecentStatusSeparators` | mcpserver/app.py:333 | n dash-safe submissions give n − 1 separators |
| `Replies.RecentActionsReply` | mcpserver/app.py:346-358 | "Unable to fetch recent actions." and "No recent actions found." exactly in their cases; otherwise every item of the result formatted in order and joined with the separator |
| `Replies.GetRecentActions` | mcpserver/app.py:344-358 | the handler's loop computes `RecentActionsReply` |
| `Replies.RecentActionsSeparators` | mcpserver/app.py:358 | n dash-safe actions give n − 1 separators |
| `Replies.UserProfilesReply` | mcpserver/app.py:376-383 | "Unable to fetch profiles or no profiles found." and "No profiles found." exactly in their cases; otherwise every item of the result formatted in order and joined with the separator |
| `Replies.UserProfilesSeparators` | mcpserver/app.py:382-383 | n dash-safe profiles give n − 1 separators, so two profiles are one separator apart |
| `Replies.UserBlogEntriesReply` | mcpserver/app.py:395-402 | "Unable to fetch blog entries." and "No blog entries found." exactly in their cases; otherwise every item of the result formatted in order and joined with the separator |
| `Replies.UserBlogEntriesSeparators` | mcpserver/app.py:402 | n dash-safe entries give n − 1 separators |
| `Replies.UserRatedListReply` | mcpserver/app.py:425-432 | the two messages exactly in their cases; otherwise the join of the first `min(len, 50)` users, in order |
| `Replies.UserRatedListSeparators` | mcpserver/app.py:431-432 | n dash-safe users give `min(n, 50) − 1` separators |
| `Replies.UserRatingHistoryReply` | mcpserver/app.py:444-458 | "Unable to fetch rating history." and "No rating history found." exactly in their cases; otherwise every item of the result formatted in order and joined with the separator |
| `Replies.GetUserRatingHistory` | mcpserver/app.py:442-458 | the handler's loop computes `UserRatingHistoryReply` |
| `Replies.UserRatingHistorySeparators` | mcpserver/app.py:458 | n dash-safe entries give n − 1 separators |
| `Replies.UserSubmissionsReply` | mcpserver/app.py:474-481 | "Unable to fetch user submissions." and "No submissions found." exactly in their cases; otherwise every item of the result formatted in order and joined with the separator |
| `Replies.UserSubmissionsSeparators` | mcpserver/app.py:481 | n dash-safe submissions give n − 1 separators |

## Left out

- `make_api_request` (the httpx GET with a 30-second timeout, `raise_for_status`,
  the JSON decode, and the `print` of swallowed exceptions) is not modelled. Its
  outcome is the `Option<Json>` each reply takes, where `None` stands for every
  failure.
- The FastMCP server object, tool registration, `async`/`await`, and the
  `__main__` transport selection are framework and I/O concerns and are not
  modelled.
- `Values.Show` renders strings, `None`, booleans and integers as Python's
  `str()` does. A JSON number with a fraction part is an exact real here, not
  a binary double, so floats are approximated:
  - an integral float between −10^16 and 10^16 is rendered as its integer
    digits then ".0", which is Python's output only when the double holds the
    value exactly (below 2^53 in magnitude; 9007199254740993.0 decodes to
    9007199254740992.0 in Python);
  - negative zero is not distinguished from zero (Python prints "-0.0");
  - other floats, lists and dicts become the placeholders `<float>`, `[...]`
    and `{...}`, because Python's float and container `repr` is not modelled.
- Where Python would raise or behave by accident, the model reads the value as
  empty instead. These cases are:
  - a payload, record or sub-record that is not an object (including a key
    present with value `null`, on which `.get` raises), which is read as `{}`;
  - a truthy `result` that is not a list (Python iterates over its keys or
    characters), which is read as `[]`, so its reply is the empty string;
  - a standings `rows` value or a `problems` value that is not a list, read as
    `[]` in the same way;
  - a non-string text sliced with `[:n]`, whose rendering is sliced instead;
  - a non-string tag in `", ".join(...)`, which is rendered instead of raising;
  - a `tags` value that is not a list, which the model shows as no tags. Python
    joins a string's characters (`"ab"` shows as "a, b") or an object's keys
    (`{"x": 1}` shows as "x"), and raises on `null`, a number or a boolean;
  - a truthy `members` value that is not a list, for which the handle is "Unknown".
- `Text.JoinSeparatorCount`: the n − 1 count is proved for items that never
  have a newline directly followed by `-`, which is stronger than "the items
  contain no separator". The weaker hypothesis does not imply the count: `["a\n---", "b"]`
  joins to a string with two occurrences.
- The same hypothesis applies to each `Replies.*Separators` lemma (`DashSafe`
  payloads).
- JSON strings are sequences of Dafny `char`, which are Unicode scalar values.
  A string that Python decodes with a lone surrogate, such as `"\ud800"`,
  cannot be represented.
- Tool argument defaults are not modelled. The request builders take every
  argument explicitly, so the signature defaults are not part of the model:
  `from_rank=1`, `from_sub=1`, `count=10`, `max_count=30`, `as_manager=False`, `gym=False`,
  `show_unofficial=False`, `check_historic_handles=True`, `active_only=False`,
  `include_retired=True`, and `None` for the optional strings and ids.
- `Records.*DefaultLines`: the line-by-line view of a block is stated for
  values that fit on one line. A value holding a newline spreads over several
  lines of the text, and then only the value-level `*Defaults` lemmas apply.
- The tool handlers are not modelled as single members from arguments to
  text. Each handler is its request builder followed by its reply, with the
  network call in between left out.
