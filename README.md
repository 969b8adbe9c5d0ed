# AIsuko date-plan board: a verified model

AIsuko is a date-plan board. Users submit a date plan, which an AI evaluator scores.
Plans are ranked by score, can be searched, liked (once per device) and commented on,
and the AI can be asked for a plan suggestion. The server is a FastAPI application
over MySQL; the client is a React application.

This project models, in Dafny, the parts of the system whose behaviour can be stated
exactly:

- **Server database layer** (`database.dfy`, class `Database.Db`): the
  `date_plans`, `user_comments`, `plan_likes` and `comment_likes` tables as fields,
  with auto-increment ids and foreign keys kept as an invariant. Each like table is a
  set of `(entity id, device id)` pairs because of its unique key. The like
  operations, the batched like counts and the ranking and comment queries are
  methods proved against specification functions.
- **Server endpoints** (`api.dfy`, `moderation.dfy`): NG-word loading and the
  NG-word check, plan scoring with its stored columns and `final_score` lookup,
  comment posting, like toggling, like status and AI suggestions.
- **Client** (one module per file): the device id in local storage, the shared
  selection and the layout, the plan and comment like buttons, the ranking page,
  the comments section, the search page (number extraction, stable sorts, gender
  filter), the submission form (field edits, date input, validation, error display)
  and the AI plan page.

Shared helpers:

- `text.dfy`: Python `strip` and JavaScript `trim`, each with its own whitespace set;
  substring search; `join`.
- `sorting.dfy`: a stable sort by an integer key. It stands for SQL `ORDER BY` and for
  `Array.prototype.sort`, which is stable since ECMAScript 2019, section 22.1.3.27.
- `records.dfy`: the JSON records.
- `http.dfy`: what `fetch` delivers, and how the forms turn a failure into a message.

Each async client handler is split at its `await` into two atomic steps:

- a `Begin…` or `Click` method, which returns the request it sends;
- a `Complete…` method, which receives the reply as an input.

The end-to-end methods (`…SubmitToServer`, `LikeButton.ClickPlanButton` and the like)
chain a client step, the server method and the client completion. They prove what a
user sees after one round trip.

JSON fields that may be absent (JavaScript `undefined`) and SQL `NULL` are `Option`
values. The following are parameters of the model:

- the clock;
- the random id fragment;
- the AI evaluator and suggester;
- the composite and deviation scores;
- JavaScript `isNaN`;
- the weekday of a date.

Four behaviours are modelled as written, though they may surprise:

- A like toggle the server cannot apply (the plan or comment is gone) is answered
  with status 200 and only an `error` key. The like button commits the missing
  `liked` and `like_count` as undefined (`LikeButton.ClickPlanButtonOnMissingPlan`).
- The AI page does not look at the response status. An NG-word refusal is shown as
  the suggestion (its `{detail}` body), and the error stays empty
  (`AiPlanPage.SubmitToServer`).
- The router matches paths without regard to ASCII case and with any trailing `/`,
  but the layout compares the path exactly. So "/ranking/" and "/Ranking" show the
  ranking page in two columns, with no detail sidebar
  (`App.RankingPageWithSlashInTwoColumns`, `App.CapitalisedRankingInTwoColumns`).
- The comments section stays mounted when the selection moves to another plan. Its
  list, inputs and error carry over until the new fetch lands, and stay for good if
  that fetch fails (`CommentsSection.SwitchPlanFetchFails`).

## Model

| member | source | states |
|---|---|---|
| `Text.Strip` | server/main.py:28 | the result is a slice of the input that starts and ends on non-whitespace, everything cut away being whitespace |
| `Text.BlankIffStripEmpty` | client/src/components/CommentsSection.js:29 | `!s.trim()` holds exactly when every character of `s` is whitespace |
| `Text.StripIdempotent` | server/main.py:28 | stripping a stripped line changes nothing, so every loaded NG word is its own strip |
| `Text.JoinContainsParts` | server/main.py:89-90 | every field value occurs in the space-joined submission |
| `Text.ContainsTransitive` | server/main.py:94-95 | a word inside a field is inside any text that contains the field |
| `Sorting.Insert` | client/src/pages/SearchPage.js:42 | inserting adds exactly one element, as a multiset |
| `Sorting.InsertSorted` | client/src/pages/SearchPage.js:42 | inserting into a sorted sequence keeps it sorted |
| `Sorting.SortBy` | client/src/pages/SearchPage.js:42 | the sort result is a permutation of the input, ascending by key |
| `Sorting.InsertWithKey` | client/src/pages/SearchPage.js:42 | insertion puts the element first among its key's equals and leaves every other key's subsequence alone |
| `Sorting.SortByStable` | client/src/pages/SearchPage.js:42 | the sort is stable: each key's subsequence keeps its order |
| `Sorting.SortByUnique` | client/src/pages/SearchPage.js:42 | any sorted, stable result equals `SortBy`, so any stable sort algorithm gives the modelled order |
| `Sorting.SortedSameGroupsEqual` | server/database.py:142 | two sorted sequences with the same subsequence for every key are equal |
| `Database.Likers` | server/database.py:431-442 | the devices counted for an entity are exactly those paired with it in the like table |
| `Database.LikersAfterAdd` | server/database.py:399-415 | a new like raises that entity's count by one and no other entity's |
| `Database.LikersAfterRemove` | server/database.py:417-429 | removing a like lowers that entity's count by one and no other entity's |
| `Database.LikersBound` | server/database.py:431-442 | no entity has more likes than the table has rows |
| `Database.CommentsOf` | server/database.py:195-200 | the query's rows are exactly the comments of the requested plan |
| `Database.NewestFirstIsThePlansComments` | server/database.py:195-200 | the ordered comment query returns the plan's comments, each row once |
| `Database.CountLikes` | server/database.py:457-477 | empty ids give `{}`; otherwise the keys are exactly the ids, each mapped to its like count, 0 when it has none |
| `Database.Db.constructor` | server/database.py:27-100 | fresh tables are empty and satisfy the id and foreign-key invariant |
| `Database.Db.SaveDatePlanDetailed` | server/database.py:114-133 | exactly one row is appended; its id is new and is returned |
| `Database.Db.SaveUserComment` | server/database.py:179-189 | a comment is appended under a fresh id iff its plan exists; otherwise the table is unchanged |
| `Database.Db.ApplyScores` | server/database.py:306-311 | each plan's score is replaced by its recomputed score; ids, order and other columns are unchanged |
| `Database.Db.GetRanking` | server/database.py:135-177 | every plan in descending score order, each with its like count, 0 by default |
| `Database.Db.GetUserComments` | server/database.py:191-221 | the plan's comments newest first, each with its like count |
| `Database.Db.SavePlanLike` | server/database.py:399-415 | returns true and adds the pair iff the pair is absent and the plan exists; otherwise the table is unchanged |
| `Database.Db.RemovePlanLike` | server/database.py:417-429 | returns true iff the pair was present; afterwards it is absent |
| `Database.Db.CheckPlanLiked` | server/database.py:444-455 | true iff the pair is in `plan_likes`; nothing changes |
| `Database.Db.GetPlanLikeCount` | server/database.py:431-442 | the number of devices that like the plan; nothing changes |
| `Database.Db.GetLikesForPlans` | server/database.py:457-477 | `{}` for no ids; otherwise each requested id mapped to its count, 0 by default |
| `Database.Db.SaveCommentLike` | server/database.py:318-334 | as `SavePlanLike`, over `comment_likes` |
| `Database.Db.RemoveCommentLike` | server/database.py:336-348 | as `RemovePlanLike`, over `comment_likes` |
| `Database.Db.CheckCommentLiked` | server/database.py:363-374 | true iff the pair is in `comment_likes` |
| `Database.Db.GetCommentLikeCount` | server/database.py:350-361 | the number of devices that like the comment |
| `Database.Db.GetLikesForComments` | server/database.py:376-397 | as `GetLikesForPlans`, over `comment_likes` |
| `Moderation.LoadNgWords` | server/main.py:26-32 | the words are the stripped non-blank lines, each non-empty; no words when the file is missing |
| `Moderation.WordsOfLines` | server/main.py:28 | every non-blank line contributes its strip, and every word is a non-empty stripped line |
| `Moderation.FindNgWord` | server/main.py:94-98 | rejects iff some NG word is a substring of the checked text |
| `Moderation.ContainsStripped` | server/main.py:89-95 | a word without edge whitespace occurs in the stripped text iff it occurs in the unstripped text |
| `Moderation.CostDisplay` | server/main.py:104 | the label is the cost followed by 円, with an empty cost and "0" both shown as 0円 |
| `Api.FieldWordIsCaught` | server/main.py:89-98 | an NG word in any one request field is found in the checked submission text |
| `Api.FindFinalScore` | server/main.py:160-164 | the score of the first ranking entry with the plan's id, and 0 when there is none |
| `Api.RankingHoldsPlan` | server/main.py:157-164 | with unique ids, the ranking holds each stored plan, and only that plan under its id |
| `Api.RankedScore` | server/main.py:157-164 | the score read back from the ranking is the stored plan's score |
| `Api.ScoreFoundByIdIsStored` | server/main.py:160-164 | a score found in the ranking under a stored plan's id is that plan's own score |
| `Api.ScoreDatePlan` | server/main.py:85-181 | 400 iff an NG word occurs in the joined, stripped submission, and nothing is stored then; otherwise exactly one plan is stored with the evaluated columns, all scores are updated, and the reply carries the new plan's final score, comment, plan text and sub-scores |
| `Api.AddComment` | server/main.py:191-210 | 400 when the stripped comment holds an NG word; 500 when the plan does not exist; otherwise the unstripped comment is stored under the path's plan id. The username is not checked |
| `Api.GetComments` | server/main.py:213-219 | the plan's comments, newest first, with like counts |
| `Api.GetDatePlanRanking` | server/main.py:185-188 | every plan once, highest score first, each with its like count |
| `Api.ToggledCount` | server/main.py:257-281 | after a toggle the entity's count is one lower or one higher; other entities' counts are unchanged |
| `Api.ToggleTwiceRestores` | server/main.py:257-281 | two toggles with the same key restore the like set |
| `Api.TogglePlanLike` | server/main.py:257-281 | a prior like is removed with `liked` false; otherwise one is added with `liked` true, or an `error` body comes back when the plan is gone; `like_count` is the count after the change |
| `Api.GetPlanLikeStatus` | server/main.py:283-291 | (whether this device likes the plan, the plan's count); nothing changes |
| `Api.ToggleCommentLike` | server/main.py:221-245 | as `TogglePlanLike`, for comments |
| `Api.GetCommentLikeStatus` | server/main.py:247-255 | as `GetPlanLikeStatus`, for comments |
| `Api.TogglePlanLikeTwice` | server/main.py:257-281 | two toggles from one device restore the like set, and the second reply reports the original like state and count |
| `Api.GenerateAiDatePlan` | server/main.py:293-310 | 400 iff the stripped input holds an NG word; otherwise the suggester's answer for the unstripped input, or 500 when it fails |
| `Http.FailureMessage` | client/src/components/CommentsSection.js:47-56 | a 400 shows the server's non-empty `detail`, else the fixed fallback; any other status shows the generic server message; a thrown error shows its own message |
| `Http.ReplyOutcome` | server/main.py:98 | an `HTTPException` reaches the client as a non-ok response with its status and `detail` |
| `Http.NgRejectionShown` | client/src/pages/SubmissionPage.js:151-154 | an NG-word refusal shows the server's reason on the form |
| `DeviceId.Digit36` | client/src/utils/deviceId.js:17 | each digit value below 36 has a base-36 character that reads back as that value |
| `DeviceId.ToBase36` | client/src/utils/deviceId.js:17 | the numeral is non-empty, all base-36 digits, with no leading zero |
| `DeviceId.Base36RoundTrip` | client/src/utils/deviceId.js:17 | reading the timestamp's numeral gives the timestamp back |
| `DeviceId.GeneratedId` | client/src/utils/deviceId.js:15-18 | a generated id is never empty, so it is kept once stored |
| `DeviceId.GeneratedIdTimestamp` | client/src/utils/deviceId.js:15-18 | the text after the last `_` of a generated id is the base-36 timestamp, whatever the fragment holds |
| `DeviceId.GetDeviceId` | client/src/utils/deviceId.js:3-13 | a stored non-empty id is returned and nothing is written; otherwise a generated id is stored and returned; no other key changes |
| `DeviceId.GetDeviceIdTwice` | client/src/utils/deviceId.js:3-13 | two consecutive calls return the same id |
| `App.Selection.constructor` | client/src/App.js:13 | the selection starts empty |
| `App.Selection.Select` | client/src/App.js:33 | selecting a post makes it the selection |
| `App.PageAt` | client/src/App.js:28-38 | each of the four route paths renders a page, a rendered path starts with `/`, and the ranking page is rendered iff the path is "/ranking" up to ASCII case and trailing `/` |
| `App.RankingRouteOnly` | client/src/App.js:29-34 | a path the ranking route matches matches no route listed before it |
| `App.LayoutAt` | client/src/App.js:18-25 | three columns iff the path is exactly "/ranking", and the three-column layout only ever frames the ranking page |
| `App.TrailingSlashMatches` | client/src/App.js:28-38 | a route still matches its path with a trailing `/` |
| `App.RankingPageWithSlashInTwoColumns` | client/src/App.js:18-42 | "/ranking/" renders the ranking page in two columns without the detail sidebar |
| `App.CapitalisedRankingInTwoColumns` | client/src/App.js:18-42 | "/Ranking" renders the ranking page in two columns without the detail sidebar |
| `App.DetailSidebar` | client/src/App.js:42 | the detail sidebar is drawn only in the three-column layout, on the ranking page, and shows the current selection |
| `LikeButton.ToggleBody` | client/src/components/PlanLikeButton.js:48-51 | a successful toggle gives defined `liked` and `like_count`; an `error` body leaves both undefined |
| `LikeButton.StatusBody` | client/src/components/PlanLikeButton.js:18-21 | the status body carries the server's like state and count |
| `LikeButton.LikeButton.constructor` | client/src/components/PlanLikeButton.js:5-8 | not liked, the initial count, not loading |
| `LikeButton.LikeButton.CompleteStatusFetch` | client/src/components/PlanLikeButton.js:10-29 | an ok status reply overwrites both cells; a failure leaves them unchanged |
| `LikeButton.LikeButton.Click` | client/src/components/PlanLikeButton.js:31-46 | a click while loading sends nothing; otherwise loading starts and the request carries the entity id and the device id |
| `LikeButton.LikeButton.CompleteToggle` | client/src/components/PlanLikeButton.js:48-64 | an ok reply commits `liked` and `like_count` and notifies the owner with exactly those; a failure changes and notifies nothing; loading ends on every path |
| `LikeButton.FetchPlanStatus` | client/src/components/PlanLikeButton.js:10-29 | after the status fetch the button shows the server's state for this device |
| `LikeButton.ClickPlanButton` | client/src/components/PlanLikeButton.js:31-65 | one answered click toggles the like set, and the button shows the new state and count |
| `LikeButton.ClickPlanButtonTwice` | client/src/components/PlanLikeButton.js:31-65 | two answered clicks restore the like set and the original state and count |
| `LikeButton.ClickCommentButton` | client/src/components/CommentLikeButton.js:30-64 | as `ClickPlanButton`, for a comment |
| `LikeButton.ClickPlanButtonOnMissingPlan` | server/main.py:274-279 | a toggle for a plan that is gone changes no like and leaves the button's cells undefined |
| `RankingPage.PatchLikeCount` | client/src/pages/RankingPage.js:77-86 | only the entry with the id gets the new count; length, order and other entries are unchanged |
| `RankingPage.PatchKeepsEntries` | client/src/pages/RankingPage.js:77-86 | a patch changes no field other than the like count |
| `RankingPage.PatchTwiceKeepsLast` | client/src/pages/RankingPage.js:77-86 | the newest patch of an entry wins |
| `RankingPage.PatchesCommute` | client/src/pages/RankingPage.js:77-86 | patches of different entries commute |
| `RankingPage.Page.constructor` | client/src/pages/RankingPage.js:7-9 | empty ranking, loading, no error |
| `RankingPage.Page.CompleteFetch` | client/src/pages/RankingPage.js:11-31 | success replaces the ranking and selects its first entry, drawn as selected, when there is one; failure sets the error and keeps the ranking; loading ends either way |
| `RankingPage.Page.Click` | client/src/pages/RankingPage.js:46-48 | clicking an entry selects it; afterwards the entries drawn as selected are exactly those with its id |
| `RankingPage.Page.OnLikeChange` | client/src/pages/RankingPage.js:77-86 | the ranking is patched for that entry |
| `CommentsSection.PatchLikeCount` | client/src/components/CommentsSection.js:143-151 | only the comment with the id gets the new count |
| `CommentsSection.PatchAbsentId` | client/src/components/CommentsSection.js:143-151 | a patch for an absent id changes nothing |
| `CommentsSection.CommentPost` | client/src/components/CommentsSection.js:29-45 | a post carries the plan id with the trimmed name and comment |
| `CommentsSection.CommentPostRefusesBlank` | client/src/components/CommentsSection.js:29-32 | nothing is sent iff the name or the comment is blank; a sent post has neither empty |
| `CommentsSection.Section.constructor` | client/src/components/CommentsSection.js:4-10 | empty list and inputs, not loading, no error |
| `CommentsSection.Section.BeginFetch` | client/src/components/CommentsSection.js:13-14 | no request without a plan id; otherwise the plan's comments are requested |
| `CommentsSection.Section.CompleteFetch` | client/src/components/CommentsSection.js:16-23 | success sets the list to `data.comments`, or `[]` when absent; failure sets the error and keeps the list |
| `CommentsSection.Section.BeginSubmit` | client/src/components/CommentsSection.js:27-45 | a blank name or comment sets the fill-in error and sends nothing; otherwise loading starts and the trimmed post is sent |
| `CommentsSection.Section.CompleteSubmit` | client/src/components/CommentsSection.js:47-67 | success clears the comment and the error, keeps the name and asks for a refetch; failure shows the mapped message; loading ends on every path |
| `CommentsSection.Section.ChangePlan` | client/src/components/CommentsSection.js:70-73 | a new plan id changes only the id: the list, the inputs and the error carry over, and the comments are refetched iff the id differs and is set |
| `CommentsSection.SwitchPlanFetchFails` | client/src/components/CommentsSection.js:13-24 | after a move to another plan whose fetch fails, the previous plan's comments and the typed comment stay, under the new plan, next to the error |
| `CommentsSection.Section.OnLikeChange` | client/src/components/CommentsSection.js:143-151 | the list is patched for that comment |
| `CommentsSection.SubmitToServer` | client/src/components/CommentsSection.js:27-68 | an NG-word comment shows the server's reason and stores nothing; otherwise one row is stored under the section's plan id with the trimmed name and comment, and the box is cleared |
| `SearchPage.Decimal` | client/src/pages/SearchPage.js:36-39 | a decimal numeral is non-empty and all digits |
| `SearchPage.DecimalValue` | client/src/pages/SearchPage.js:36-39 | `parseInt` of a numeral gives its value |
| `SearchPage.FirstDigitRunUnique` | client/src/pages/SearchPage.js:37 | `/\d+/` has at most one first match |
| `SearchPage.ExtractNumber` | client/src/pages/SearchPage.js:36-39 | the value of the first maximal run of ASCII digits; 0 for a missing or digit-free text |
| `SearchPage.ExtractsWrittenNumber` | client/src/pages/SearchPage.js:36-39 | a number between a digit-free prefix and a non-digit unit reads back as itself |
| `SearchPage.AgeExample` | client/src/pages/SearchPage.js:36-39 | "25歳" gives 25 |
| `SearchPage.ByAgeIsStableAscending` | client/src/pages/SearchPage.js:41-44 | a permutation of the results, ascending by age, with ties in their original order |
| `SearchPage.ByDateCountIsStableDescending` | client/src/pages/SearchPage.js:46-49 | a permutation, descending by the date count, with stable ties |
| `SearchPage.ByCostIsStableAscending` | client/src/pages/SearchPage.js:51-54 | a permutation, ascending by cost, with stable ties |
| `SearchPage.ByGender` | client/src/pages/SearchPage.js:56-59 | keeps exactly the results whose gender equals the argument |
| `SearchPage.ByGenderOfConcat` | client/src/pages/SearchPage.js:56-59 | the filter keeps the original order |
| `SearchPage.Page.constructor` | client/src/pages/SearchPage.js:4-9 | empty query, lists and error, not yet searched |
| `SearchPage.Page.CompleteFetch` | client/src/pages/SearchPage.js:11-30 | success sets both lists to the data, clears the error and selects the first result; failure sets the error, empties both lists and keeps the selection; the page has searched either way |
| `SearchPage.Page.SortByAge` | client/src/pages/SearchPage.js:41-44 | the shown list is the age sort of the fetched results |
| `SearchPage.Page.SortByDateCount` | client/src/pages/SearchPage.js:46-49 | the shown list is the date-count sort of the fetched results |
| `SearchPage.Page.SortByCost` | client/src/pages/SearchPage.js:51-54 | the shown list is the cost sort of the fetched results |
| `SearchPage.Page.FilterByGender` | client/src/pages/SearchPage.js:56-59 | the shown list is the gender filter of the fetched results |
| `SearchPage.FilterThenSortByAge` | client/src/pages/SearchPage.js:41-59 | operations do not compound: a sort after a filter sorts all results, and the results are never modified |
| `SubmissionPage.Set` | client/src/pages/SubmissionPage.js:68-74 | the named field gets the value; every other field is unchanged |
| `SubmissionPage.FieldIndex` | server/main.py:89 | each form field is the request value at its position |
| `SubmissionPage.Validate` | client/src/pages/SubmissionPage.js:120-131 | the required-field error iff a required field is empty; the numeric error iff all are present but one numeric field is not a number; no error otherwise |
| `SubmissionPage.OptionalFieldsIgnored` | client/src/pages/SubmissionPage.js:120-125 | the notes and the weekday play no part in validation |
| `SubmissionPage.NgWordInAnyFieldCaught` | server/main.py:89-98 | an NG word typed into any one field is caught by the server |
| `SubmissionPage.Page.constructor` | client/src/pages/SubmissionPage.js:6-21 | empty form, no result, popup closed, not loading, no error |
| `SubmissionPage.Page.HandleInputChange` | client/src/pages/SubmissionPage.js:68-74 | only the named field changes |
| `SubmissionPage.Page.HandleDateChange` | client/src/pages/SubmissionPage.js:74-108 | an empty value clears date and weekday; an invalid date changes nothing; otherwise date and weekday are set |
| `SubmissionPage.Page.BeginSubmit` | client/src/pages/SubmissionPage.js:117-144 | an invalid form shows the validation message and sends nothing; a valid one starts loading, clears the result and the error, and posts the form |
| `SubmissionPage.Page.CompleteSubmit` | client/src/pages/SubmissionPage.js:146-171 | success stores the result and opens the popup; failure shows the mapped message; loading ends on every path |
| `SubmissionPage.Page.ClosePopup` | client/src/pages/SubmissionPage.js:110-115 | the popup closes |
| `SubmissionPage.SubmitToServer` | client/src/pages/SubmissionPage.js:117-172 | an NG-word submission shows the server's reason and stores nothing; any other is stored as one row holding the form's evaluated columns, rescored, and the popup shows that row's score with the evaluation's comment, plan text and sub-scores |
| `AiPlanPage.DataOf` | client/src/pages/AIPlanPage.js:80-81 | a parsed reply never carries `error`; it is a suggestion iff the reply was a success |
| `AiPlanPage.Page.constructor` | client/src/pages/AIPlanPage.js:8-12 | empty input, no suggestion, not loading, no errors |
| `AiPlanPage.Page.HandleChange` | client/src/pages/AIPlanPage.js:117-123 | editing the text clears the input error |
| `AiPlanPage.Page.BeginSubmit` | client/src/pages/AIPlanPage.js:58-78 | blank input sets the prompt and the input error and sends nothing; otherwise loading starts, the error and the suggestion are cleared and the text is sent as typed |
| `AiPlanPage.Page.CompleteSubmit` | client/src/pages/AIPlanPage.js:80-91 | a body with `error` shows it; any other body becomes the suggestion; a thrown error shows the communication message; loading ends on every path |
| `AiPlanPage.Page.HandleClear` | client/src/pages/AIPlanPage.js:94-99 | the text, suggestion, error and input error return to their initial values |
| `AiPlanPage.SubmitToServer` | client/src/pages/AIPlanPage.js:58-92 | an NG-word refusal is shown as the suggestion with no error; an accepted request shows the suggester's answer |

## Left out

- SQL, connections, `init_db` and the startup retry loop are I/O. The tables are fields of `Database.Db`, and schema creation is the constructor.
- The server handles one request at a time: each endpoint runs to completion before the next starts. So the race between `check_*_liked` and the following delete or insert is not modelled. In a concurrent server, another request can delete the row in between, which gives the "いいねの解除に失敗しました" reply (server/main.py:234-235, 270-271). Another request can also insert the same pair in between, which gives the unique-key half of "いいねの追加に失敗しました". In the model the delete after a successful check always succeeds, and the insert fails only when the plan or comment is gone.
- MySQL errors other than the foreign-key and unique-key violations are not modelled, and neither are the exception paths they trigger (the `{"error": str(e)}` bodies and most 500 replies).
- `search_dates` and its `LIKE` matching depend on MySQL collation. Search results are an input of `SearchPage.Page.CompleteFetch`.
- `calculate_composite_score`, `calculate_deviation_score` and `update_all_deviation_scores` are floating-point arithmetic. The composite score is the `composite` parameter, and the recomputed scores are the `rescored` map applied by `Database.Db.ApplyScores`.
- The AI evaluator and suggester, which call Gemini, are the `evaluate` and `suggest` parameters.
- The clock (`created_at`, `Date.now`) and `Math.random` are inputs. The random fragment of a device id is a parameter.
- `strftime` formatting of `created_at` is left out: the timestamp stays an integer.
- Ties in `ORDER BY score DESC` and `ORDER BY created_at DESC` are left in insertion order, which SQL does not promise. `Sorting.SortByUnique` shows that any stable order is this one.
- React rendering, CSS and the pure display components are left out. So are speech synthesis, unmounting, and the interleaving of async handlers, which are modelled as atomic begin and complete steps.
- `new Date(...).getDay()` is the `weekday` input of `SubmissionPage.Page.HandleDateChange`: `None` stands for an invalid date.
- JavaScript `isNaN` on strings is the `isNumeric` parameter of `SubmissionPage.Validate`.
- The router's percent-decoding of the path and its `basename` are not modelled: `App.PageAt` compares the path as given.
- `parseInt` precision beyond 2^53 is not modelled: numbers are unbounded.
- `read_root` and `save_date_plan` are left out. Neither is used by the client.
- The search query input, the search that runs on mount (`fetchResults('')`, client/src/pages/SearchPage.js:32-34) and the comments section's `inputError` cell are left out. None of them affects any other state, and the search itself is left out above: its reply is the input of `SearchPage.Page.CompleteFetch`.
- The rank label `第{index + 1}位` (client/src/pages/RankingPage.js:52) is rendering and is left out. The order it numbers is the one `Database.Db.GetRanking` proves descending by score.
- `DeviceId.GetDeviceId`: the fragment's own format (nine base-36 characters from `Math.random`) is not checked.
