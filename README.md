# project-dictionary, modelled in Dafny

project-dictionary is a word-dictionary app. A React Native client lets a
user look up English words, star favourites and browse a history of the
words they looked up. A Node/knex backend stores the favourites and the
history. This project models the logic at the core of both sides.

- **Token interceptor** (`TokenInterceptor`). The client's axios response
  interceptor handles failing requests:
  - a 401 carrying `token.expired` or `token.invalid` starts one refresh
    call with the stored refresh token;
  - further such 401s wait in `failedQueue` while a refresh is in flight;
  - when the refresh succeeds, every waiter is replayed with the new bearer
    token;
  - when the refresh fails, every waiter is rejected and the user is signed
    out;
  - every other error is normalised into an `AppError`;
  - the handle returned by registration ejects the interceptor.
- **Grouping by day.** `DayGroups` is the common specification of "file
  each item under the text before the first space of a timestamp, sections
  in first-occurrence order". Two `transformData` loops are proved against
  it:
  - `FavoritesByDay` models the favourites list, which also renumbers the
    items;
  - `HistoryByDay` models the history hook.
- **Pagination** (`Pagination`). The `usePagination` hook shows a window
  of the data: 24 items, then 9 more each time the list end is reached. The
  delayed load reads the data and the window length captured when it was
  armed.
- **Word screen** (`WordScreen`):
  - previous/next navigation through the word list, and the buttons'
    disabled flags;
  - history registration on Next and Previous;
  - the favourite star;
  - the definition cache;
  - the text fallbacks of the display.
- **History card time** (`ListCard`): "YYYY-MM-DD HH:MM:SS" becomes "HH:MM".
- **Backend controllers:**
  - `FavoriteController`: validation, then an upsert on (word, user_id),
    then deletion of an 'N' row; the favourites list is filtered and
    ordered newest first;
  - `WordsController`: the words left-joined with the user's favourites,
    with 'N' as the default, ordered by word;
  - `HistoryController`: validation and append; the user's history,
    newest first.

Shared modules:
- `Wrappers`: Option and Result.
- `Seqs`: first index of an element.
- `Strings`: JavaScript `split` on one character.
- `Ordering`: `ORDER BY` as insertion sorts proved sorted and a
  permutation.
- `Requests`: the backend's `AppError`, replies and truthiness.

## How the model is built

Code that the source writes as expressions is modelled as functions:
- `convertToDesiredFormat`;
- the navigation helpers;
- the SQL queries.

Code that changes state step by step is modelled as classes or methods:
- **The interceptor's module variables, the hooks' state cells and the
  screen's state cells.** Each becomes a class. Its methods are proved to
  move its state exactly as a step function over a state value does. The
  properties are proved as lemmas about those step functions.
- **The two `transformData` loops.** Each is a method with a loop. The loop
  invariant says that the dictionary built so far is the day-grouping of
  the prefix read so far. The method's result is proved equal to
  `DayGroups.Group`.
- **The backend tables.** These are sequences of rows. The favourite and
  history handlers are classes that update the table in place.

The environment is passed in as parameters:
- the clock (`knex.fn.now()`);
- database failures;
- the dictionary API's answer;
- the refresh call's outcome;
- the value the credential store returns.

Two behaviours of the code worth noting:
- **Order of replays after a successful refresh.** The queued requests are
  replayed before the request that drove the refresh (`src/services/api.ts`
  lines 77-81). `CompleteRefresh` states this order.
- **Normalising an error that has a response with data.** The handler
  takes the backend's `message` even when it is undefined. It falls back
  to "Unknown error" only when there is no response data (`Normalize`).

## Model

| member | source | states |
|---|---|---|
| TokenInterceptor.OnFulfilled | src/services/api.ts:31 | a successful response is returned unchanged |
| TokenInterceptor.Normalize | src/services/api.ts:100-104 | with response data the AppError carries the backend's message, even an undefined one; otherwise the error's own message if truthy, else "Unknown error", so the message is always truthy there |
| TokenInterceptor.BearerHeaders | src/services/api.ts:73-74 | a replay's headers are replaced by exactly one `Authorization: Bearer <token>` entry |
| TokenInterceptor.IsSentinel | src/services/api.ts:35 | the 401 carries response data whose message is `token.expired` or `token.invalid`; which branch that selects is stated in `HandleErrorCases` |
| TokenInterceptor.HandleError | src/services/api.ts:31-105 | each failing request gets a fresh id and an outcome; every other request's outcome, the store, the default header and the replays stay as they were |
| TokenInterceptor.HandleErrorCases | src/services/api.ts:33-104 | non-401: normalised rejection, no sign-out; non-sentinel 401: sign-out once and normalised rejection; sentinel 401 without refresh token: sign-out and rejection with the original error; with a token while refreshing: queued at the end and no new refresh call; with a token while idle: it drives the refresh and exactly one refresh call is made with the stored token |
| TokenInterceptor.InitInv | src/services/api.ts:26-27 | the initial state satisfies the refresh invariant (empty queue and no driver unless refreshing, one outstanding refresh call per refresh, waiting promises are exactly queue plus driver) |
| TokenInterceptor.HandleErrorInv | src/services/api.ts:33-63 | the error handler preserves the refresh invariant |
| TokenInterceptor.CompleteRefreshInv | src/services/api.ts:64-92 | a successful refresh preserves the refresh invariant |
| TokenInterceptor.FailRefreshInv | src/services/api.ts:82-92 | a failed refresh preserves the refresh invariant |
| TokenInterceptor.SettleAllFacts | src/services/api.ts:77-86 | settling the queue gives every queued request the outcome and leaves every other request's outcome alone |
| TokenInterceptor.SettleAll | src/services/api.ts:77-86 | the outcome map after each queued promise is settled with one outcome, oldest first; its properties are stated in `SettleAllFacts` |
| TokenInterceptor.ProcessQueue | src/services/api.ts:77-79 | the `failedQueue.forEach` loop settles exactly the queued requests, as `SettleAll` |
| TokenInterceptor.CompleteRefresh | src/services/api.ts:64-92 | on success: the new pair is stored; the default header is set; the queued requests, then the driver, are replayed with the new bearer header; the driver's body is parsed if it had one; the flag is cleared and the queue is emptied; no sign-out |
| TokenInterceptor.FailRefresh | src/services/api.ts:82-92 | on failure: every queued request, oldest first, and then the driver are rejected with the refresh error, in that order; the `catch` calls sign-out once; the flag is cleared and the queue is emptied; nothing is stored or replayed |
| TokenInterceptor.JoinWhileRefreshing | src/services/api.ts:46-58 | while a refresh is in flight, any number of sentinel 401s only join the queue, in arrival order |
| TokenInterceptor.OneRefreshPerBurst | src/services/api.ts:46-63 | a burst of sentinel 401s starting while idle makes exactly one refresh call: the first request drives it and the rest queue |
| TokenInterceptor.BurstThenSuccess | src/services/api.ts:60-92 | after such a burst and a successful refresh, one refresh call was made, all k requests resume with the new bearer header, queued ones replayed before the driver, and the new pair is stored |
| TokenInterceptor.BurstThenFailure | src/services/api.ts:82-92 | after such a burst and a failed refresh, all k requests reject with the refresh error, the queued ones in arrival order and the driver last; the `catch` adds exactly one sign-out and nothing is replayed (a refresh call rejected by a non-sentinel 401 adds one more, see the next row) |
| TokenInterceptor.RefreshRejectedBy401SignsOutTwice | src/services/api.ts:33-104 | the refresh call goes through the same interceptor: a non-sentinel 401 from it signs out and rejects it with the normalised `AppError` while the refresh stays in flight, and the driver's `catch` then signs out again, two sign-outs in all |
| TokenInterceptor.Ejected | src/services/api.ts:108-110 | ejecting a handle disables exactly that interceptor |
| TokenInterceptor.EjectTwiceIsEjectOnce | src/services/api.ts:108-110 | calling the unregister function twice is the same as once |
| TokenInterceptor.ResponseInterceptors.Register | src/services/api.ts:31 | registration appends one active interceptor and returns its handle |
| TokenInterceptor.ResponseInterceptors.Eject | src/services/api.ts:108-110 | the registry afterwards is `Ejected` of the registry before |
| TokenInterceptor.TokenManager.constructor | src/services/api.ts:26-27 | the module starts idle with an empty queue |
| TokenInterceptor.TokenManager.OnError | src/services/api.ts:31-105 | the handler updates the module state exactly as `HandleError` and returns the request's id |
| TokenInterceptor.TokenManager.RefreshSucceeded | src/services/api.ts:64-92 | the module state after a successful refresh is `CompleteRefresh` of the state before |
| TokenInterceptor.TokenManager.RefreshFailed | src/services/api.ts:82-92 | the module state after a failed refresh is `FailRefresh` of the state before |
| Strings.Split | frontend/src/hooks/useHistory.ts:18 | `split` gives at least one field, two or more exactly when the separator occurs, and no field contains it |
| Strings.JoinSplit | frontend/src/hooks/useHistory.ts:18 | joining the fields with the separator gives back the input |
| Strings.FirstField | frontend/src/utils/transformData.ts:31 | `split(" ")[0]` is a space-free prefix of the input, followed by a space when shorter than the input |
| ListCard.ConvertToDesiredFormat | src/components/ListCard/index.tsx:37-41 | the label always holds ':' |
| ListCard.HourAndMinuteKept | src/components/ListCard/index.tsx:37-41 | "date h:m" or "date h:m:s" formats as "h:m" whatever the date |
| ListCard.TimestampFormatsAsHourMinute | src/components/ListCard/index.tsx:37-41 | a "YYYY-MM-DD HH:MM:SS" timestamp formats as its characters 11 to 15, "HH:MM" |
| ListCard.MinuteUndefinedWithoutColon | src/components/ListCard/index.tsx:38-40 | a time part without ':' formats as that text followed by ":undefined" |
| DayGroups.Distinct | frontend/src/hooks/useHistory.ts:25 | the keys of the grouping dictionary are the keys that occur, each once |
| DayGroups.KeysOf | frontend/src/hooks/useHistory.ts:17-18 | the day computed for each item, one per item and in input order |
| DayGroups.DistinctInFirstOccurrenceOrder | frontend/src/utils/transformData.ts:49 | `Object.keys` lists the days in the order of their first occurrence |
| DayGroups.Positions | frontend/src/hooks/useHistory.ts:22 | the positions holding a key are all of them, increasing |
| DayGroups.Bucket | frontend/src/hooks/useHistory.ts:22 | a day's array holds only items of that day |
| DayGroups.BucketEmpty | frontend/src/hooks/useHistory.ts:19-21 | a day's array is empty exactly when no item has that day yet |
| DayGroups.BucketAtPositions | frontend/src/hooks/useHistory.ts:17-23 | a day's array holds the items at exactly the positions of that day, in input order |
| DayGroups.Sections | frontend/src/hooks/useHistory.ts:25-28 | one section per title, holding the title and that day's items |
| DayGroups.Group | frontend/src/hooks/useHistory.ts:25-28 | there are no sections exactly when there are no items |
| DayGroups.FileOne | frontend/src/hooks/useHistory.ts:18-22 | one loop step, which creates the day's array if missing and pushes the item, keeps the dictionary equal to the grouping of the items read so far |
| DayGroups.ReadBack | frontend/src/hooks/useHistory.ts:25-28 | reading the dictionary back in key order gives the sections of the grouping |
| DayGroups.SectionTitleIsKey | frontend/src/hooks/useHistory.ts:18-22 | every item of a section has the section's title as its day |
| DayGroups.NoEmptySection | frontend/src/hooks/useHistory.ts:19-22 | no section is empty |
| DayGroups.TitlesInFirstOccurrenceOrder | frontend/src/hooks/useHistory.ts:25-28 | titles are distinct and ordered by the first occurrence of their day |
| DayGroups.EveryItemOnce | frontend/src/hooks/useHistory.ts:17-23 | the sections together hold every item exactly as often as the input does |
| DayGroups.TotalSize | frontend/src/hooks/useHistory.ts:17-23 | the sections hold as many items as the input |
| FavoritesByDay.Converteds | frontend/src/utils/transformData.ts:40-45 | the i-th favourite becomes a record with `created_at` = `updated_at`, id i+1, and the same word and favourite |
| FavoritesByDay.Converted | frontend/src/utils/transformData.ts:40-45 | the record pushed for one favourite: `created_at` from `updated_at`, id index+1, word and favourite kept; `RecordAt` and `RecordsTraceToInput` state it |
| FavoritesByDay.CreatedDay | frontend/src/utils/transformData.ts:31 | the section a record is filed under, the text before the first space of its timestamp; `DaysOfRecords` ties it to the favourite's `updated_at` |
| FavoritesByDay.Grouped | frontend/src/utils/transformData.ts:24-56 | what `transformData` returns, the day-grouping of the converted records; `TransformData` is proved equal to it and `EveryFavoriteFiledOnce` and `DaysInFirstOccurrenceOrder` state its properties |
| FavoritesByDay.UpdatedDays | frontend/src/utils/transformData.ts:31 | the day of each favourite is the text before the first space of `updated_at` |
| FavoritesByDay.TransformData | frontend/src/utils/transformData.ts:24-56 | the loop's result is the day-grouping of the converted records, and is empty exactly when the input is |
| FavoritesByDay.DaysOfRecords | frontend/src/utils/transformData.ts:31-41 | a record is filed under the day of its favourite's `updated_at` |
| FavoritesByDay.RecordAt | frontend/src/utils/transformData.ts:42 | the record made from position p has id p+1 |
| FavoritesByDay.RecordsTraceToInput | frontend/src/utils/transformData.ts:29-46 | every record is the conversion of the favourite at position id-1, whose day is the section title; ids increase within a section |
| FavoritesByDay.DaysInFirstOccurrenceOrder | frontend/src/utils/transformData.ts:49-52 | section titles are days of the input, distinct, and in order of first occurrence |
| FavoritesByDay.EveryFavoriteFiledOnce | frontend/src/utils/transformData.ts:29-46 | every favourite's record is filed, the sections hold as many records as there are favourites, and no section is empty |
| HistoryByDay.TransformData | frontend/src/hooks/useHistory.ts:14-29 | the loop's result is the day-grouping of the words, and is empty exactly when the input is |
| HistoryByDay.CreatedDay | frontend/src/hooks/useHistory.ts:18 | the day a word is filed under, the text before the first space of `created_at`; `SectionsHoldTheirDay` states what it selects |
| HistoryByDay.Grouped | frontend/src/hooks/useHistory.ts:14-29 | what `transformData` returns, the day-grouping of the words; `TransformData` is proved equal to it and `EveryWordFiledOnce` and `DaysInFirstOccurrenceOrder` state its properties |
| HistoryByDay.FileWord | frontend/src/hooks/useHistory.ts:18-22 | one iteration keeps the dictionary equal to the grouping of the words read so far |
| HistoryByDay.ReadBackAll | frontend/src/hooks/useHistory.ts:25-28 | after the loop, reading the dictionary back gives the grouping |
| HistoryByDay.SectionsHoldTheirDay | frontend/src/hooks/useHistory.ts:17-23 | a section holds, unchanged and in input order, exactly the words whose `created_at` day is its title |
| HistoryByDay.DaysInFirstOccurrenceOrder | frontend/src/hooks/useHistory.ts:25-28 | titles are distinct days of the input, in order of first occurrence |
| HistoryByDay.EveryWordFiledOnce | frontend/src/hooks/useHistory.ts:17-23 | every word is filed exactly once and no section is empty |
| Pagination.Slice | frontend/src/hooks/usePagination.ts:23-26 | `slice` clips its end to the data and yields the items from `from` on |
| Pagination.Reset | frontend/src/hooks/usePagination.ts:13-15 | the effect on new data: show `slice(0, 24)` of it; `ResetShowsFirstWindow` states the window and that no flag changes |
| Pagination.Scroll | frontend/src/hooks/usePagination.ts:10 | `setScrollOffset`: only the offset changes; `SteadyPreserved` shows it keeps the window a prefix of the data |
| Pagination.StartLoad | frontend/src/hooks/usePagination.ts:16-20 | `handleLoadMoreData`: unless the guard returns, flag the load and capture the data and the window length for the timer; `StartLoadGuard` states when it starts |
| Pagination.FinishLoad | frontend/src/hooks/usePagination.ts:21-32 | the timer's callback: append the next slice of the captured data, set `allDataLoaded` when it is empty, clear the loading flag; `LoadGrowsWindow` and `AllLoadedWhenNothingLeft` state its effect |
| Pagination.ResetShowsFirstWindow | frontend/src/hooks/usePagination.ts:13-15 | new data shows its first min(24, length) items and resets no flag |
| Pagination.StartLoadGuard | frontend/src/hooks/usePagination.ts:16-19 | a load starts exactly when the offset is nonzero, no load is running and not all data is loaded; starting one leaves the window alone |
| Pagination.LoadGrowsWindow | frontend/src/hooks/usePagination.ts:21-31 | with the data unchanged, a completed load extends the window by the next min(9, remaining) items of the data and clears the loading flag |
| Pagination.AllLoadedWhenNothingLeft | frontend/src/hooks/usePagination.ts:28 | `allDataLoaded` turns on exactly when a load finds nothing more (with unchanged data: when the whole data is shown), and no step turns it off |
| Pagination.SteadyPreserved | frontend/src/hooks/usePagination.ts:13-34 | every step keeps the window a prefix of the data, as long as the data does not change while a load is pending |
| Pagination.MountedSteady | frontend/src/hooks/usePagination.ts:8-15 | after mounting, the window is the first min(24, length) items and no load or end is flagged |
| Pagination.ChangedDataWhileLoading | frontend/src/hooks/usePagination.ts:21-30 | data that changes while a load is pending can leave the window no longer a prefix of the data, because the timer appends from the captured data |
| Pagination.Pagination.constructor | frontend/src/hooks/usePagination.ts:8-15 | the first render with its effect is the mounted state |
| Pagination.Pagination.DataChanged | frontend/src/hooks/usePagination.ts:13-15 | the effect on new data is `Reset` |
| Pagination.Pagination.SetScrollOffset | frontend/src/hooks/usePagination.ts:10 | only the scroll offset changes |
| Pagination.Pagination.HandleLoadMoreData | frontend/src/hooks/usePagination.ts:16-20 | the handler is `StartLoad` |
| Pagination.Pagination.TimerFired | frontend/src/hooks/usePagination.ts:21-32 | the timer's callback is `FinishLoad` |
| WordScreen.FindIndex | frontend/src/screens/Word/index.tsx:210-212 | `findIndex` gives the first position holding the word, or -1 exactly when none does |
| WordScreen.ExtractWordAndFavorite | frontend/src/screens/Word/index.tsx:329-334 | the list keeps each response item's word and favourite, in order |
| WordScreen.NeighboursIndex | frontend/src/screens/Word/index.tsx:210-212 | the first occurrence is the index `findIndex` gives |
| WordScreen.NeighboursOfFirstOccurrence | frontend/src/screens/Word/index.tsx:189-234 | for a listed word, previous/next are the entries around its first occurrence unless at an end, the handlers move to them, and the buttons are disabled exactly at the ends |
| WordScreen.GetPreviousWord | frontend/src/screens/Word/index.tsx:220-226 | the entry before the word's first occurrence, or null when it is first or absent; stated in `NeighboursOfFirstOccurrence` and `AbsentWord` |
| WordScreen.GetNextWord | frontend/src/screens/Word/index.tsx:228-234 | the entry after the word's first occurrence, or null when it is last or absent; stated in `NeighboursOfFirstOccurrence` and `AbsentWord` |
| WordScreen.HandleNextWord | frontend/src/screens/Word/index.tsx:189-197 | where Next navigates: the entry after the selected word's `findIndex`, if that is not the last position (so entry 0 when the word is absent); stated in `NeighboursOfFirstOccurrence` and `AbsentWord` |
| WordScreen.HandlePreviousWord | frontend/src/screens/Word/index.tsx:199-207 | where Previous navigates: the entry before the selected word's `findIndex`, if that is positive; stated in `NeighboursOfFirstOccurrence` and `AbsentWord` |
| WordScreen.DisablePrevious | frontend/src/screens/Word/index.tsx:210-213 | Previous is disabled when the selected word first occurs at position 0; stated in `NeighboursOfFirstOccurrence` |
| WordScreen.DisableNext | frontend/src/screens/Word/index.tsx:210-214 | Next is disabled when the selected word's `findIndex` is the last position; stated in `NeighboursOfFirstOccurrence` |
| WordScreen.RegisterNext | frontend/src/screens/Word/index.tsx:257-275 | the word sent to the history is the shown word's next neighbour; when that send fails the screen does not navigate, otherwise it navigates as `HandleNextWord` |
| WordScreen.RegisterPrevious | frontend/src/screens/Word/index.tsx:237-254 | the word sent to the history is the shown word's previous neighbour; when that send fails the screen does not navigate, otherwise it navigates as `HandlePreviousWord` |
| WordScreen.AbsentWord | frontend/src/screens/Word/index.tsx:189-234 | for an unlisted word both helpers give null and Previous does nothing, but Next moves to the first entry and is enabled unless the list is empty |
| WordScreen.RegisterRecordsTarget | frontend/src/screens/Word/index.tsx:237-275 | when the shown word is the selected one, Next and Previous record in the history the word they navigate to |
| WordScreen.NextRecordsShownWord | frontend/src/screens/Word/index.tsx:257-275 | an example on a two-entry list: Next sends the neighbour of the shown word, not of the selected one, so after a failed lookup ("No Word Found" shown) nothing is sent yet the screen moves on; a failed send does not navigate (for every list this is `RegisterNext`'s contract) |
| WordScreen.DisplayFallbacks | frontend/src/screens/Word/index.tsx:81-85 | the meaning, word and phonetic texts fall back to the apology, "No Word Found" and "" exactly when the detail or its field is missing or empty |
| WordScreen.MeaningText | frontend/src/screens/Word/index.tsx:81-83 | the first definition, or the apology text; stated in `DisplayFallbacks` |
| WordScreen.WordText | frontend/src/screens/Word/index.tsx:84 | the entry's word, or "No Word Found"; stated in `DisplayFallbacks` |
| WordScreen.PhoneticText | frontend/src/screens/Word/index.tsx:85 | the entry's phonetic, or the empty text; stated in `DisplayFallbacks` |
| WordScreen.ClickStarChangesFirstMatchOnly | frontend/src/screens/Word/index.tsx:299-321 | the star flips `isFavorite` and changes only the first entry of the selected word, to "N" after a set flag and "Y" otherwise, and sends exactly that; for an unlisted word it changes and sends nothing |
| WordScreen.ClickStar | frontend/src/screens/Word/index.tsx:299-321 | `handleIconClick` on the screen state; stated in `ClickStarChangesFirstMatchOnly` and `FirstClickSendsY` |
| WordScreen.FirstClickSendsY | frontend/src/screens/Word/index.tsx:299-308 | because the flag starts false whatever the stored favourite, the first click sends "Y" and the second "N" |
| WordScreen.CachedEntryReused | frontend/src/screens/Word/index.tsx:140-147 | a cached non-null entry is shown without a lookup and the cache is kept |
| WordScreen.MissLooksUp | frontend/src/screens/Word/index.tsx:148-179 | a miss (absent or cached null) looks the word up; a found detail is shown and cached, a 'not found' shows and caches null, no response changes nothing else |
| WordScreen.FoundThenCached | frontend/src/screens/Word/index.tsx:140-159 | after a lookup that found the word, fetching it again shows the same detail without another lookup |
| WordScreen.LoadingSettlesOnce | frontend/src/screens/Word/index.tsx:136-186 | the first fetch turns loading off once it settles and stays loading only when no answer came; later fetches leave loading alone |
| WordScreen.Fetch | frontend/src/screens/Word/index.tsx:134-187 | `fetchWordDetails` on the screen state, with the dictionary's answer as a parameter; stated in `CachedEntryReused`, `MissLooksUp`, `FoundThenCached` and `LoadingSettlesOnce` |
| WordScreen.WordScreen.constructor | frontend/src/screens/Word/index.tsx:58-78 | the screen mounts loading, with no details, an empty list and cache, and `isFavorite` false |
| WordScreen.WordScreen.LoadWords | frontend/src/screens/Word/index.tsx:325-340 | only the word list changes, to the extracted response |
| WordScreen.WordScreen.HandleIconClick | frontend/src/screens/Word/index.tsx:299-321 | the click is `ClickStar` |
| WordScreen.WordScreen.FetchWordDetails | frontend/src/screens/Word/index.tsx:134-187 | the fetch is `Fetch` |
| FavoriteController.KeyIndex | backend/src/controllers/FavoriteController.js:28 | the position of a row with the conflict key (word, user_id), or -1 exactly when there is none |
| FavoriteController.Validate | backend/src/controllers/FavoriteController.js:8-17 | the request passes exactly when the word is truthy and the favourite is 'Y' or 'N'; a refusal is a 400, the missing word checked first |
| FavoriteController.Upsert | backend/src/controllers/FavoriteController.js:21-29 | afterwards the table holds the row (word, favourite, user, now); a row is added exactly when no row had the key, otherwise one is rewritten |
| FavoriteController.Transaction | backend/src/controllers/FavoriteController.js:20-40 | after a 'Y' the new row is in the table; at most one row is added |
| FavoriteController.UpdateWordFavorite | backend/src/controllers/FavoriteController.js:5-48 | the reply is 200 exactly when validation passes and the database does not fail; every error leaves the table unchanged |
| FavoriteController.RefusedRequestsWriteNothing | backend/src/controllers/FavoriteController.js:8-47 | a missing or empty word gives 400 before the favourite is checked; a favourite other than 'Y'/'N' gives 400; a failed transaction gives 500; none of them changes the table; success means valid and not failed |
| FavoriteController.FavoriteYKeepsOneRow | backend/src/controllers/FavoriteController.js:20-29 | after a 'Y' update the table holds exactly one row for (word, user), with 'Y' and the current time, and every other key's rows are unchanged |
| FavoriteController.FavoriteNRemovesRow | backend/src/controllers/FavoriteController.js:20-39 | after an 'N' update no row for (word, user) remains, and every other key's rows are unchanged |
| FavoriteController.KeyRowsAreN | backend/src/controllers/FavoriteController.js:21-29 | after the upsert with 'N', every row for the key holds 'N', so the delete removes it |
| FavoriteController.DeleteFacts | backend/src/controllers/FavoriteController.js:32-38 | the delete keeps every other key's rows and leaves no 'N' row for the key |
| FavoriteController.UpsertKeepsUnique | backend/src/controllers/FavoriteController.js:21-29 | the upsert keeps (word, user_id) unique |
| FavoriteController.DeleteKeepsUnique | backend/src/controllers/FavoriteController.js:32-38 | the delete keeps (word, user_id) unique |
| FavoriteController.UpdateKeepsUnique | backend/src/controllers/FavoriteController.js:5-48 | the handler keeps (word, user_id) unique, whatever the request |
| FavoriteController.DeleteUnfavored | backend/src/controllers/FavoriteController.js:32-38 | the delete never adds rows |
| FavoriteController.FavoritesOf | backend/src/controllers/FavoriteController.js:56-57 | a row is selected exactly when it belongs to the user and holds 'Y', and then as often as it is stored |
| FavoriteController.ListFavorites | backend/src/controllers/FavoriteController.js:55 | each listed item is the word, favourite and `updated_at` of the sorted row at its place |
| FavoriteController.ListFavoritesReply | backend/src/controllers/FavoriteController.js:50-63 | the query fails exactly when the reply is an error, and that error is a 500 |
| FavoriteController.ListIsUsersFavoritesNewestFirst | backend/src/controllers/FavoriteController.js:50-63 | the list holds exactly the user's 'Y' rows, each as often as stored, newest `updated_at` first; a failed query gives 500 "Failed to fetch favorites." |
| FavoriteController.FavoriteStore.constructor | backend/src/controllers/FavoriteController.js:21 | the store holds the given table |
| FavoriteController.FavoriteStore.Update | backend/src/controllers/FavoriteController.js:5-48 | the handler's reply and the table afterwards are those of `UpdateWordFavorite` |
| WordsController.Matches | backend/src/controllers/WordsController.js:9-11 | a value is among a word's matches exactly when some favourite row has that word, the user's id and that value |
| WordsController.JoinRow | backend/src/controllers/WordsController.js:8-12 | a `words` row contributes at least one result row, all carrying its word |
| WordsController.Joined | backend/src/controllers/WordsController.js:8-12 | the left join yields at least one row per `words` row and only rows of listed words |
| WordsController.MatchesUnderUniqueKeys | backend/src/controllers/WordsController.js:8-11 | with favourites unique per (word, user_id), a word matches the user's one row or none |
| WordsController.OneRowPerWord | backend/src/controllers/WordsController.js:8-12 | with unique favourites the join has one row per `words` row, with the user's stored value or 'N' |
| WordsController.OtherUsersIrrelevant | backend/src/controllers/WordsController.js:10 | other users' favourite rows never change the result |
| WordsController.MatchesOwnRows | backend/src/controllers/WordsController.js:10 | only the user's own rows can match |
| WordsController.Index | backend/src/controllers/WordsController.js:4-18 | the reply is an error exactly when the query fails, and that error is a 500; the ordering and contents are stated in `IndexOrderedByWord` |
| WordsController.IndexOrderedByWord | backend/src/controllers/WordsController.js:5-18 | the result is the join ordered by word, a permutation of it; with unique favourites it has one row per word with its stored value or 'N'; a failure gives 500 "Failed to fetch favorites." |
| Requests.RowsOf | backend/src/controllers/HistoryController.js:29 | the user's rows are exactly those with their user_id, each as often as stored; the same filter is the user condition of the words join (WordsController.js:10) |
| HistoryController.AddWordToHistory | backend/src/controllers/HistoryController.js:5-21 | the reply is 200 exactly when the word is truthy; a refusal is a 400 and leaves the table unchanged |
| HistoryController.GetAllWords | backend/src/controllers/HistoryController.js:23-30 | the list holds the user's rows, each as often as stored; the order is stated in `AllWordsOfUserNewestFirst` |
| HistoryController.AddAppendsOneRow | backend/src/controllers/HistoryController.js:8-20 | a missing or empty word gives 400 and inserts nothing; otherwise exactly one row, holding the next id, the word, the user's id and the current time, is appended after the existing ones and the reply is 200 "Word added to history successfully!" |
| HistoryController.RepeatedWordsKept | backend/src/controllers/HistoryController.js:12-16 | looking a word up again adds another row; duplicates are not merged |
| HistoryController.AddKeepsIdsFresh | backend/src/controllers/HistoryController.js:12-16 | appending with the next id keeps ids distinct |
| HistoryController.AllWordsOfUserNewestFirst | backend/src/controllers/HistoryController.js:26-30 | the list holds exactly the user's rows, each as often as stored, newest `created_at` first |
| HistoryController.AddedWordIsListed | backend/src/controllers/HistoryController.js:12-30 | a word just added is listed for its user and changes no other user's list |
| HistoryController.HistoryStore.constructor | backend/src/controllers/HistoryController.js:12 | the store holds the given table and next id |
| HistoryController.HistoryStore.Add | backend/src/controllers/HistoryController.js:5-21 | the reply and the table afterwards are those of `AddWordToHistory`, and the id counter advances only on success |
| Ordering.SortDesc | backend/src/controllers/HistoryController.js:30 | `ORDER BY ... DESC` yields a permutation whose neighbours are in non-increasing order |
| Ordering.StepIsDescending | backend/src/controllers/FavoriteController.js:58 | neighbours in order means every pair in order |
| Ordering.SortAsc | backend/src/controllers/WordsController.js:13 | `ORDER BY` yields a permutation whose neighbours are in non-decreasing order |
| Ordering.StepIsAscending | backend/src/controllers/WordsController.js:13 | neighbours in order means every pair in order |
| Ordering.LexTotal | backend/src/controllers/WordsController.js:13 | any two words are comparable |
| Ordering.LexTransitive | backend/src/controllers/WordsController.js:13 | the word order is transitive |

## Left out

- `JSON.parse` of a replayed body (`src/services/api.ts` line 69) is modelled only as "this body was parsed". A body that fails to parse is not modelled.
- The refresh call (`requestToken`, `src/services/api.ts` line 182) goes through the same axios instance, so every failure of it passes through the interceptor before the driver's `catch` sees it. A non-sentinel 401 from it signs out there (line 96) as well as in the `catch`, two sign-outs in all; `RefreshRejectedBy401SignsOutTwice` states this, and `FailRefresh` models the `catch` alone. The error the waiters get is then the normalised `AppError`, which `FailRefresh` takes as an opaque `cause`. A sentinel 401 from the refresh call would queue behind the refresh it belongs to; that case is not modelled, and the model does not claim it is handled.
- axios transport, real promises and the interceptor registry's internals are left out. A replay's own result is an external event, as is the refresh outcome.
- The `api` call wrappers and `dictionaryApi` (`src/services/api.ts` lines 113-185) are one-line network calls and are not part of this model. The same holds for `storageAuthToken`, `AuthContext`, the screens' JSX, the toasts and the navigation library.
- TokenInterceptor.TokenManager: the methods do not carry the refresh invariant in their contracts. It is preserved by the `*Inv` lemmas about the step functions that the methods are proved to follow.
- `Object.keys` order is modelled as insertion order. JavaScript lists integer-like keys (a day string such as "7") first in numeric order, and keys such as "constructor" clash with `Object.prototype` in the `grouped[date]` test. Both are left out; real day strings start with "YYYY-".
- Pagination: the 2000 ms delay is a separate `TimerFired` step. Overlapping renders that could fire the handler twice before `loadingMore` is seen are not modelled.
- Pagination.Pagination.constructor: it models the first render after its effect ran, not the empty window of the very first frame.
- WordScreen: audio playback, the slider maths and the `isSendingDataToHistory*` flags are left out. The `setParams` navigation is the handlers' return value.
- WordScreen: an answer from the dictionary API is one of found, not found (an error with a response) or no response. The other `catch` branches only log.
- ListCard.ConvertToDesiredFormat: it requires a space in its input, because without one `time` is undefined and `time.split` throws.
- The backend's user ids are integers. `Number(...)` of a malformed query (NaN) and the string-versus-number comparison in `getAllWords` are left out.
- String order in `ORDER BY w.word` is code-point order. Database collations are not modelled.
- SQL leaves the order of rows with equal keys open. The sorts keep input order among them, and the proved properties (sorted, a permutation) hold for any tie order.
- The `COALESCE` on a stored null favourite is not modelled: the handlers only ever store 'Y' or 'N'.
- A failing insert in `addWordToHistory` and a failing query in `getAllWords` are uncaught in the source, so they are not modelled as replies.
