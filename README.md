# DoIt client rules in Dafny

DoIt is a neighbourhood-help app. People post small tasks, others apply, and a creator
accepts one applicant. Both sides chat, and the creator completes the task and rates the
helper. The web client keeps its rules in three places:

- `client/src/lib/firebase.ts` holds them in plain TypeScript between its Firebase calls.
- `client/src/pages/TasksScreen.tsx` holds the task list screen's helpers.
- `client/src/context/ReviewContext.tsx` holds the review dialog's provider.

This project models those rules and proves what they guarantee.

Here is what each part of the model covers:

- **Levels** (`levels.dfy`). The user level ladder and `getUserLevel`'s loop with `break`.
- **Ratings** (`ratings.dfy`). The running-mean rating kept on a user document, in exact
  `real` arithmetic.
- **Documents** (`documents.dfy`). A Firestore document is a map from field names to
  values. The JavaScript operators the code applies to them are modelled: `||` defaults,
  `increment`, `arrayUnion`, `arrayRemove` and `includes`.
- **Task shaping** (`task_shaping.dfy`). What `getTasks` and `getBookmarkedTasks` do to the
  documents they read:
  - the query filter;
  - the `imageUrls`/`imageUrl` normalisation;
  - the category filter;
  - the newest-first sort, in place on an array;
  - the creator de-duplication and profile batch;
  - the enrichment with defaults;
  - the fallback path.
- **Task patch** (`task_patch.dfy`). The patch `updateTask` writes.
- **Lifecycle** (`lifecycle.dfy`). The documents and patches of `createTask`,
  `applyForTask`, `acceptApplication`, `completeTask` and `createReview`.
- **Store** (`store.dfy`). A class `Store` with one map per collection. Its methods perform
  the reads and writes of the task functions in the source's order. A write that throws
  ends the method with `Err` and keeps the writes made before it.
- **Search history** (`search_history.dfy`). `saveSearchQuery` over a class holding the
  personal and trending histories. Recall of recent searches is modelled as
  `getRecentSearches` evidently intends it; see Findings.
- **Avatar upload** (`avatar.dfy`). The input checks of `uploadUserAvatar`, its
  compression settings, safe file names and storage paths, and the base64 size thresholds.
  The module also covers the loop of `uploadTaskImages`.
- **Tasks screen** (`tasks_screen.dfy`). `formatDate`, `getCategoryColor`, the search
  filter, `handleCategorySelect` and the filters `fetchTasks` builds.
- **Review context** (`review_context.dfy`). The review provider as a class:
  - the dialog state;
  - the listener registry, with append and removal by identity;
  - ordered notification that survives a throwing listener;
  - `useReview`.

Four kinds of input that the code gets from its surroundings are parameters here:

- Server timestamps and `Date.now()` are an integer `now`.
- Ids generated by `addDoc` are parameter ids.
- The order in which Firestore returns a collection is the sequence `order`.
- Whether a network call fails is a boolean.

`wrappers.dfy`, `collections.dfy` and `text.dfy` hold the shared helpers:

- `Option` and `Result`;
- `map`, `filter`, `slice` and first-occurrence de-duplication on sequences;
- `trim`, `toLowerCase`, `includes` and decimal printing on strings.

## Model

| member | source | states |
|---|---|---|
| Levels.GetUserLevel | client/src/lib/firebase.ts:1182-1194 | The loop with `break` returns the level of the longest met prefix of `userLevels`, or the first level when none is met; the result is always a level of the table. |
| Levels.MetPrefix | client/src/lib/firebase.ts:1185-1191 | The number of leading levels whose task and rating minimums are both met; every earlier level is met and the next one is not. |
| Levels.LevelIndex | client/src/lib/firebase.ts:1183-1193 | The index of the level returned is inside the table. |
| Levels.UserLevelsNondecreasing | client/src/lib/firebase.ts:119-125 | Both thresholds of the ladder are nondecreasing from level to level. |
| Levels.MetPrefixMonotone | client/src/lib/firebase.ts:1185-1191 | More completed tasks and a higher rating never shorten the met prefix of a nondecreasing table. |
| Levels.UserLevelMonotone | client/src/lib/firebase.ts:1182-1194 | Over the table at lines 119-125, more completed tasks and a higher rating never give a lower level. |
| Levels.HighestMetLevel | client/src/lib/firebase.ts:1182-1194 | The level returned is met (or is the first level), and the next level of the table is not met. |
| Levels.UserLevelExamples | client/src/lib/firebase.ts:119-125 | 0 tasks gives Task-Küken; 10 tasks rated 3.2 give DoIt-Anfänger; 30 tasks rated 5 give Superheld:in; a negative count gives the first level. |
| Levels.UserLevel | client/src/lib/firebase.ts:1182-1194 | The level of a user; `HighestMetLevel` states that it is the highest met level and `UserLevelMonotone` that it never drops with more tasks or a higher rating. |
| Ratings.CountOf | client/src/lib/firebase.ts:1155-1156 | `ratingCount \|\| 0` is the stored whole count, or 0 for a falsy field. |
| Ratings.NextMeanBounds | client/src/lib/firebase.ts:749-762 | A rating in [1,5] keeps the mean in [1,5] when the old mean was in [1,5] or there was no rating before. |
| Ratings.FoldIsMean | client/src/lib/firebase.ts:755-756 | After n reviews received one at a time, the count is n and the stored mean times n is the sum of the ratings. |
| Ratings.NextMeanTimesCount | client/src/lib/firebase.ts:755-756 | The new mean times the new count is the old total plus the new rating. |
| Ratings.FoldExample | client/src/lib/firebase.ts:755-756 | Reviews 4, 5, 4 leave a mean of 13/3 and a count of 3. |
| Ratings.FirstReviewSetsMean | client/src/lib/firebase.ts:751-756 | `createReview` reads a missing rating as 0, so a first review sets the mean to its own rating. |
| Ratings.RatingRulesAgreeOnNumbers | client/src/lib/firebase.ts:1153-1163 | On a stored numeric rating, the `createReview` rule and the `completeTask` rule give the same new mean. |
| Ratings.CompletedRatingOfMissingIsNaN | client/src/lib/firebase.ts:1155-1157 | As written, completing a task for a user without a `rating` field stores NaN, where the `createReview` rule stores the new rating. |
| Ratings.NextMean | client/src/lib/firebase.ts:755-756 | The new mean after one more rating; `NextMeanTimesCount` and `FoldIsMean` state that it is the plain mean of all ratings. |
| Ratings.ReviewedRating | client/src/lib/firebase.ts:751-756 | The rating `createReview` stores; `FirstReviewSetsMean` states that a first review sets the mean to its own rating. |
| Ratings.CompletedRatingAsWritten | client/src/lib/firebase.ts:1155-1157 | The rating `completeTask` stores as written; `CompletedRatingOfMissingIsNaN` states that a missing `rating` gives NaN. |
| Documents.OrElse | client/src/lib/firebase.ts:878-880 | `v \|\| fallback` is the value when it is truthy and the fallback otherwise. |
| Documents.Incremented | client/src/lib/firebase.ts:789 | `increment(n)` adds n to a numeric field and sets n on a missing one. |
| Documents.ArrayUnion | client/src/lib/firebase.ts:1201 | `arrayUnion(x)` appends x to an array lacking it, leaves an array holding it alone, and creates `[x]` otherwise. |
| Documents.ArrayRemove | client/src/lib/firebase.ts:1214 | `arrayRemove(x)` deletes every x from an array and leaves an empty array otherwise. |
| Documents.IncludesOrEmpty | client/src/lib/firebase.ts:1272-1274 | `(field \|\| []).includes(id)`: false on a falsy field, membership on an array, substring on a string, and an error on any other value. |
| Documents.ArrayUnionIdempotent | client/src/lib/firebase.ts:1201 | Bookmarking a task twice leaves the same array as bookmarking it once. |
| Documents.ArrayRemoveIdempotent | client/src/lib/firebase.ts:1214 | Removing a bookmark twice leaves the same array as removing it once. |
| Documents.ArrayRemoveUndoesUnion | client/src/lib/firebase.ts:1210-1221 | Removing a bookmark just added to an array without it restores the array. |
| TaskShaping.NormalizeAll | client/src/lib/firebase.ts:815-832 | One normalised document per stored one, in order. |
| TaskShaping.NormalizeFields | client/src/lib/firebase.ts:815-832 | `imageUrls` is the stored array or `[]`; `imageUrl` is the stored truthy one, else the first url, else `null`; `id` comes from the document or a stored field; every other field passes through. |
| TaskShaping.NormalizeIdempotent | client/src/lib/firebase.ts:815-832 | Normalising a normalised task changes nothing. |
| TaskShaping.NormalizeExamples | client/src/lib/firebase.ts:815-832 | A legacy task with only `imageUrl`, a task with only `imageUrls`, and a task whose `imageUrls` is a string are each normalised as the rule says. |
| TaskShaping.QueryFilterOf | client/src/lib/firebase.ts:804-809 | The query filters by creator exactly when a truthy `creatorId` filter is given, and by `status == "open"` otherwise. |
| TaskShaping.QueryHitsSpec | client/src/lib/firebase.ts:804-812 | The query keeps exactly the documents of the chosen creator, or exactly the open ones, as a subsequence of the collection. |
| TaskShaping.FilterCategorySpec | client/src/lib/firebase.ts:835-837 | The category filter keeps exactly the tasks with an equal category, in order, and keeps all tasks without a category filter. |
| TaskShaping.SortInPlace | client/src/lib/firebase.ts:840-844 | The in-place sort leaves the array equal to the stable sort of its old contents by the key, largest first. |
| TaskShaping.InsertInPlace | client/src/lib/firebase.ts:840-844 | One insertion step places element i into the sorted prefix and leaves the rest of the array unchanged. |
| TaskShaping.InsertByPermutes | client/src/lib/firebase.ts:840-844 | An insertion step adds exactly the inserted task to the multiset. |
| TaskShaping.SortBySpec | client/src/lib/firebase.ts:840-844 | The sort by a key returns a permutation of its input, ordered by the key, largest first. |
| TaskShaping.InsertBySorted | client/src/lib/firebase.ts:840-844 | Inserting into a list ordered by the key keeps it ordered. |
| TaskShaping.SortNewestFirstSpec | client/src/lib/firebase.ts:840-844 | The sort returns a permutation of its input, newest first, with a falsy `createdAt` counted as 0. |
| TaskShaping.SortNewestFirstKeepsSorted | client/src/lib/firebase.ts:840-844 | A list already newest first comes back unchanged, so equally old tasks keep their order. |
| TaskShaping.SortAndEnrich | client/src/lib/firebase.ts:840-882 | The primary path sorts the shown tasks in place, newest first, fetches their creators' profiles in a loop, and returns every task enriched with its creator's profile. |
| TaskShaping.Profiles | client/src/lib/firebase.ts:858-864 | The profile map holds exactly the users whose ids are listed, with their documents. |
| TaskShaping.CollectProfiles | client/src/lib/firebase.ts:851-864 | The `forEach` that fills `creatorProfiles` computes the profile map of the listed ids. |
| TaskShaping.UniqueIdsSpec | client/src/lib/firebase.ts:847 | The creator-id list has no duplicates, holds every task's `creatorId`, and holds nothing else. |
| TaskShaping.BatchProfilesSpec | client/src/lib/firebase.ts:847-870 | Only creators of the listed tasks get a profile; without a failure, every creator with a user document gets theirs. |
| TaskShaping.Enrich | client/src/lib/firebase.ts:873-881 | Adds `creatorName`, `creatorPhotoURL` and `creatorRating`, with defaults 'Unbekannter Benutzer', '' and 0, and keeps every other field. |
| TaskShaping.EnrichAll | client/src/lib/firebase.ts:873-882 | Each task is enriched with the profile of its own creator, in order. |
| TaskShaping.EnrichDefaults | client/src/lib/firebase.ts:877-880 | A task whose creator has no profile shows the three default values. |
| TaskShaping.GetTasksPrimary | client/src/lib/firebase.ts:796-884 | Without a failure, `getTasks` returns the filtered tasks in the sort's order, each with the creator fields added and its other fields kept. |
| TaskShaping.GetTasksFallback | client/src/lib/firebase.ts:885-902 | When the filtered path throws, every stored task is returned in the store's order, normalised, with no status, category or sort applied. |
| TaskShaping.GetTasksFallbackUnenriched | client/src/lib/firebase.ts:904-937 | In the fallback, a failing profile lookup returns the normalised tasks without creator fields. |
| TaskShaping.GetTasksFails | client/src/lib/firebase.ts:885-889 | When both the query and the fallback scan fail, `getTasks` throws. |
| TaskShaping.BookmarkedSpec | client/src/lib/firebase.ts:1240-1259 | A fetched document is among the bookmarked tasks, normalised, exactly when it exists, and there are never more tasks than fetched documents. |
| TaskShaping.BookmarkedInOrder | client/src/lib/firebase.ts:1235-1259 | The bookmarked tasks are the fetched documents that exist, normalised, in bookmark order: `filter(exists)` followed by `map(normalise)`. |
| TaskShaping.Normalize | client/src/lib/firebase.ts:815-832 | The normalised form of a stored task; `NormalizeFields` states its fields and `NormalizeIdempotent` that it is stable. |
| TaskShaping.QueryHits | client/src/lib/firebase.ts:804-812 | The documents the Firestore query returns; `QueryHitsSpec` states that they are exactly the matching ones, in the store's order. |
| TaskShaping.FilterCategory | client/src/lib/firebase.ts:835-837 | The category filter; `FilterCategorySpec` states that it keeps exactly the tasks of the category, in order. |
| TaskShaping.SortNewestFirst | client/src/lib/firebase.ts:840-844 | The stable newest-first sort; `SortNewestFirstSpec` states that it permutes its input into newest-first order. |
| TaskShaping.GetTasksSpec | client/src/lib/firebase.ts:796-939 | The result of `getTasks` with its primary and fallback paths; `GetTasksPrimary`, `GetTasksFallback`, `GetTasksFallbackUnenriched` and `GetTasksFails` state each path. |
| TaskShaping.Bookmarked | client/src/lib/firebase.ts:1240-1259 | The tasks `getBookmarkedTasks` returns from the fetched documents; `BookmarkedInOrder` states that it filters out missing documents and normalises the rest, in order. |
| TaskPatch.SanitizePatch | client/src/lib/firebase.ts:1293-1301 | The patch never holds `id`, `creatorId`, `createdAt`, `applications` or `status`. A truthy non-array `imageUrls` becomes `[]`. `updatedAt` is always set. Every other field passes through. |
| TaskPatch.ApplyKeepsProtected | client/src/lib/firebase.ts:1293-1304 | For patch keys without `.`, writing such a patch leaves every protected field of the stored task as it was, so such an update can neither reopen nor transfer a task. |
| TaskPatch.ApplyWritesPatch | client/src/lib/firebase.ts:1304 | For patch keys without `.`, `updateDoc` writes every patch field and keeps every field the patch does not name. |
| Lifecycle.NewTaskForcesFields | client/src/lib/firebase.ts:775-781 | A new task is open, owned by its creator, stamped and without applications, whatever the caller sent; every other field is kept. |
| Lifecycle.NewTaskIgnoresCallerStatus | client/src/lib/firebase.ts:775-781 | The forced fields do not depend on the caller's data. |
| Lifecycle.StatusProgression | client/src/lib/firebase.ts:956-1148 | From `createTask` (line 778) through `acceptApplication` to `completeTask`, a task goes from `open` to `matched`, recording the accepted application, and then to `completed`, keeping its creator. |
| Lifecycle.RatingPatchSpec | client/src/lib/firebase.ts:749-762 | The rating update adds one to the count and moves the mean to include the new rating, reading a missing rating as 0; the count stays whole. |
| Lifecycle.RatingPatchBounds | client/src/lib/firebase.ts:749-762 | With the new rating in [1,5], the stored mean ends in [1,5], both from a stored mean in [1,5] and from a profile without ratings yet (count 0, `rating` missing or a number). |
| Lifecycle.NewTask | client/src/lib/firebase.ts:775-781 | The task document `createTask` adds; `NewTaskForcesFields` states its forced and kept fields. |
| Lifecycle.NewApplication | client/src/lib/firebase.ts:945-952 | The pending application `applyForTask` adds; `TaskStore.Store.ApplyForTask` states that it is stored under the new id. |
| Lifecycle.AcceptPatch | client/src/lib/firebase.ts:961-964 | The patch that marks an application accepted; `TaskStore.Store.AcceptApplication` states that it is written first. |
| Lifecycle.MatchPatch | client/src/lib/firebase.ts:967-971 | The patch that marks a task matched; `StatusProgression` states that the task is then `matched` and records the application. |
| Lifecycle.NewChat | client/src/lib/firebase.ts:982-988 | The chat document of `acceptApplication`; `TaskStore.Store.AcceptApplication` states that it joins the task's creator and the applicant. |
| Lifecycle.CompletePatch | client/src/lib/firebase.ts:1144-1147 | The patch that completes a task; `StatusProgression` states that the task is then `completed` and keeps its creator and application. |
| Lifecycle.RatingPatch | client/src/lib/firebase.ts:749-762 | The rating update of a reviewed user; `RatingPatchSpec` states the new count and mean, and `RatingPatchBounds` that the mean stays in [1,5]. |
| Lifecycle.CompletedUserPatch | client/src/lib/firebase.ts:1153-1163 | The user update of `completeTask`, with the corrected rating rule; `CompletedUserKeepsCount` states that the count stays whole. |
| Lifecycle.CompletedUserKeepsCount | client/src/lib/firebase.ts:1156-1163 | After `completeTask`'s user update, `ratingCount` is still a whole number. |
| Lifecycle.CompletionReview | client/src/lib/firebase.ts:1168-1175 | The review `completeTask` adds; `TaskStore.Store.CompleteTask` states that it is stored with the creator as reviewer. |
| Lifecycle.NewReview | client/src/lib/firebase.ts:740-743 | The review document `createReview` adds; `TaskStore.Store.CreateReview` states that it is stored under the new id. |
| TaskStore.Store.CreateTask | client/src/lib/firebase.ts:773-793 | Adds the new task first. It then increments the owner's `postedTasks`, or fails without touching users when the owner's id or document is missing. |
| TaskStore.Store.ApplyForTask | client/src/lib/firebase.ts:942-953 | Adds a pending application for the task. |
| TaskStore.Store.AcceptApplication | client/src/lib/firebase.ts:956-990 | Marks the application accepted and then the task matched with the application id. It then adds a chat between the creator and the applicant. Each step happens only when the earlier writes succeeded; a missing participant fails the chat write. |
| TaskStore.Store.CompleteTask | client/src/lib/firebase.ts:1127-1179 | Only a task with an existing matched application is completed. The applicant's counts and rating are updated when the applicant's document exists, and a review by the creator is added. Every other case changes nothing or stops with an error, as the code does. The rating write is the corrected rule, which reads a missing `rating` as 0; line 1155 as written stores NaN, which `Ratings.CompletedRatingAsWritten` models (see Findings). |
| TaskStore.Store.CreateReview | client/src/lib/firebase.ts:728-770 | Adds the review. When the reviewed user exists, the rating is folded into their mean and count. |
| TaskStore.Store.UpdateTask | client/src/lib/firebase.ts:1288-1311 | For patch keys without `.`, an existing task becomes the stored task with the sanitised patch written over it: its protected fields are unchanged, `updatedAt` is set, a truthy non-array `imageUrls` becomes `[]`, the caller's other fields are written, and every field the caller does not name is kept. A missing task is an error and changes nothing. |
| TaskStore.Store.BookmarkTask | client/src/lib/firebase.ts:1197-1208 | `arrayUnion`s the task id into the user's bookmarks, or fails without a change when the user is missing. |
| TaskStore.Store.RemoveBookmark | client/src/lib/firebase.ts:1210-1221 | `arrayRemove`s the task id from the user's bookmarks, or fails without a change when the user is missing. |
| TaskStore.Store.IsTaskBookmarked | client/src/lib/firebase.ts:1267-1280 | True exactly when the user exists, the read succeeds and the bookmarks include the id; every error answers false. |
| TaskStore.Store.GetBookmarkedTasks | client/src/lib/firebase.ts:1223-1264 | An error when the read fails, the bookmarks are not an array or an id is invalid; `[]` for a missing user or no bookmarks; otherwise the tasks of the bookmarked ids that exist, normalised, in bookmark order. |
| TaskStore.Store.LookupSpec | client/src/lib/firebase.ts:1235-1237 | One lookup result per id. |
| TaskStore.Store.Lookup | client/src/lib/firebase.ts:1235-1237 | Fetches the document of every id, in order. |
| TaskStore.Store.Snapshot | client/src/lib/firebase.ts:812 | The collection as documents with their ids, in the store's order. |
| TaskStore.Store.GetTasks | client/src/lib/firebase.ts:796-939 | The imperative `getTasks` computes `GetTasksSpec` on the store's tasks. It sorts an array in place and fills the profile map in a loop. |
| TaskStore.BookmarkRoundTrip | client/src/lib/firebase.ts:1197-1280 | Bookmarking is idempotent. Removing a new bookmark restores the list. The task is bookmarked after `bookmarkTask` and not after `removeBookmark`. |
| SearchHistory.CategoryOrAll | client/src/lib/firebase.ts:1340 | `category \|\| 'all'` is never empty and keeps a given category. |
| SearchHistory.NormalizeQueryIdempotent | client/src/lib/firebase.ts:1330-1336 | A query is skipped exactly when it is blank. Normalising a normalised query changes nothing. |
| SearchHistory.NormalizeQueryExample | client/src/lib/firebase.ts:1330-1336 | " Lawn " is stored as "lawn"; a query of blanks is skipped. |
| SearchHistory.DedupeByQuery | client/src/lib/firebase.ts:1412-1424 | The `forEach` that fills a `Map` keyed by query leaves the first entry of every query, in order. |
| SearchHistory.MarkAll | client/src/lib/firebase.ts:1416-1422 | Each recalled entry is marked as personal or trending. |
| SearchHistory.SearchHistory.Save | client/src/lib/firebase.ts:1329-1371 | A blank query writes nothing. Otherwise the trimmed, lower-cased query with category defaulting to 'all' goes first into the user's history when there is a user. It always goes into the trending list, with `anonymized` set exactly when there is no user. An invalid user id fails, and nothing is written. |
| SearchHistory.SearchHistory.RecentSearches | client/src/lib/firebase.ts:1389-1473 | Recall as intended returns `Recall` of the user's history and the trending list. |
| SearchHistory.RecallSpec | client/src/lib/firebase.ts:1398-1464 | Recall returns at most `limit` entries and no query twice. The entries come from the personal history when it has any and otherwise from the trending list, and are marked accordingly; their order is stated by `RecallOrder`. |
| SearchHistory.RecallOrder | client/src/lib/firebase.ts:1398-1464 | In both branches, the recalled entries keep the newest-first order of the entries read and of their source, and each is the newest entry of its query among the entries read. |
| SearchHistory.RecallKeepsNewest | client/src/lib/firebase.ts:1412-1427 | Every query among the newest `limit` personal entries is recalled, with its newest entry. |
| SearchHistory.SaveThenRecall | client/src/lib/firebase.ts:1329-1371 | A saved query is recalled first. |
| SearchHistory.RecentSearchesAsWrittenLosesHistory | client/src/lib/firebase.ts:1389-1471 | With one saved search, recall as intended returns it and recall as written returns `[]`. |
| SearchHistory.NormalizeQuery | client/src/lib/firebase.ts:1330-1336 | The trimmed, lower-cased query, or none for a blank one; `NormalizeQueryIdempotent` states when it is none and that it is stable. |
| SearchHistory.Dedupe | client/src/lib/firebase.ts:1412-1424 | The first entry of every query, in order; `DedupeByQuery` states that the loop computes it, and `RecallSpec` that no query occurs twice. |
| SearchHistory.Recall | client/src/lib/firebase.ts:1398-1464 | Recall as intended; `RecallSpec` states its bound and source, `RecallOrder` its order and that each entry is its query's newest, and `RecallKeepsNewest` and `SaveThenRecall` what it keeps. |
| SearchHistory.RecentSearchesAsWritten | client/src/lib/firebase.ts:1389-1471 | Recall as written, which always gives `[]`; `RecentSearchesAsWrittenLosesHistory` contrasts it with the intended recall. |
| AvatarUpload.ValidateUpload | client/src/lib/firebase.ts:293-307 | A file, a user id, one of the four image types and at most 5 MiB are required. A failed call is rejected with the first check that fails. |
| AvatarUpload.ValidateUploadExamples | client/src/lib/firebase.ts:293-307 | Exactly 5 MiB passes, one byte more is too large, a BMP is unsupported, and a missing user id is reported before the type. |
| AvatarUpload.AvatarCompression | client/src/lib/firebase.ts:315-326 | A GIF is not compressed. Base64 storage compresses to exactly 0.3 MB and 500 px, and Firebase Storage to exactly 1 MB and 1200 px; every setting asks for at most 1 MB. |
| AvatarUpload.Sanitize | client/src/lib/firebase.ts:344 | The rewrite keeps letters, digits and dots in place and turns every other character into `_`. |
| AvatarUpload.SafeAvatarNameSpec | client/src/lib/firebase.ts:344 | The avatar file name keeps the rewrite's first 50 characters, contains no `/`, and is unchanged by another rewrite. |
| AvatarUpload.AvatarPathInFolder | client/src/lib/firebase.ts:342-348 | The avatar path lies in `avatars/<userId>/`, and its file part has no further `/`. |
| AvatarUpload.AvatarPathDistinct | client/src/lib/firebase.ts:342-345 | Uploads at different times get different paths. |
| AvatarUpload.ImagePathSpec | client/src/lib/firebase.ts:1553-1579 | A task image path lies in the task's folder (or a time-named one) with a file part free of `/`, and the name is not cut. |
| AvatarUpload.ThresholdsInCharacters | client/src/lib/firebase.ts:391-433 | `length / 1024 / 1024 > 0.9` holds exactly when the length is above 943718, and `> 0.95` exactly when it is above 996147. |
| AvatarUpload.StoredAvatar | client/src/lib/firebase.ts:391-455 | A data url up to 0.9 MiB is stored as is. A larger one is replaced by its emergency compression when that succeeds within 0.95 MiB; otherwise the upload fails. |
| AvatarUpload.StoredAvatarFits | client/src/lib/firebase.ts:391-455 | One copy of every stored avatar url is at most 996147 characters. |
| AvatarUpload.AvatarUrlBytes | client/src/lib/firebase.ts:451-456 | The bytes of the three fields `avatarBase64`, `photoURL` and `avatarUrl` that each hold the url, by Firestore's size rule; `StoredAvatarOverflowsDocument` and `StoredAvatarFittingFits` bound it. |
| AvatarUpload.StoredAvatarOverflowsDocument | client/src/lib/firebase.ts:391-456 | As written, every url of 349514 to 943718 characters is stored as is, and its three copies alone take more than 1 MiB. |
| AvatarUpload.StoredAvatarFitting | client/src/lib/firebase.ts:391-456 | The corrected checks: a url whose three copies are at most 0.9 MiB is kept; otherwise the emergency compression is used when its three copies are at most 0.95 MiB, and the upload fails when not. |
| AvatarUpload.StoredAvatarFittingFits | client/src/lib/firebase.ts:391-456 | With the corrected checks, the three url fields take at most 996182 bytes, below the 1 MiB document limit. |
| AvatarUpload.UploadTaskImages | client/src/lib/firebase.ts:1482-1600 | The loop skips missing, unnamed and failed files and returns the rest's urls, in order. A user who is not signed in gets `[]`. |
| AvatarUpload.UploadedUrlsSpec | client/src/lib/firebase.ts:1512-1546 | There is one url per file that uploads, in file order, and none for the others. |
| AvatarUpload.UploadedUrlsConcat | client/src/lib/firebase.ts:1512-1546 | A failing file does not stop the batch: a batch's urls are its parts' urls. |
| AvatarUpload.SafeAvatarName | client/src/lib/firebase.ts:344 | The safe avatar file name; `SafeAvatarNameSpec` states its prefix, its lack of `/` and its stability. |
| AvatarUpload.AvatarPath | client/src/lib/firebase.ts:342-345 | The avatar storage path; `AvatarPathInFolder` and `AvatarPathDistinct` state its folder and its uniqueness per upload time. |
| AvatarUpload.ImagePath | client/src/lib/firebase.ts:1553-1579 | The task image storage path; `ImagePathSpec` states its folder and its file part. |
| TasksScreen.FloorChain | client/src/pages/TasksScreen.tsx:50-53 | Flooring by 1000, 60, 60 and 24 in turn is flooring by a minute, an hour and a day. |
| TasksScreen.FormatDateUnits | client/src/pages/TasksScreen.tsx:47-64 | The largest whole elapsed unit is shown. "Just now" is shown exactly below one minute, including every negative difference. |
| TasksScreen.AgoPlural | client/src/pages/TasksScreen.tsx:56-61 | The unit is plural exactly when more than one has elapsed. |
| TasksScreen.FormatDateExamples | client/src/pages/TasksScreen.tsx:47-64 | 0, −5 s and 59.999 s are "Just now"; 60 s is "1 minute ago"; 2 h is "2 hours ago"; 3 days are "3 days ago". |
| TasksScreen.CategoryColorSpec | client/src/pages/TasksScreen.tsx:32-44 | Each of the 7 categories gets its own class. Any other string gets the gray default. |
| TasksScreen.CategoryColorExamples | client/src/pages/TasksScreen.tsx:32-44 | Gardening is green and Cleaning cyan. "gardening" and "" are gray. |
| TasksScreen.FilteredTasksSpec | client/src/pages/TasksScreen.tsx:150-155 | An empty query keeps every task. Otherwise the filter keeps exactly the tasks whose lower-cased title or description contains the lower-cased query, in order, each with as many copies as the list holds. |
| TasksScreen.SearchIgnoresQueryCase | client/src/pages/TasksScreen.tsx:150-155 | A query and its lower-case form show the same tasks. |
| TasksScreen.HandleCategorySelect | client/src/pages/TasksScreen.tsx:157-163 | 'All Tasks' clears the selection and every other category is selected as is. |
| TasksScreen.FetchFilters | client/src/pages/TasksScreen.tsx:89-92 | The fetch filter carries a category exactly when a truthy category other than 'All Tasks' is selected, and never a creator. |
| TasksScreen.PostedFilters | client/src/pages/TasksScreen.tsx:132 | The "posted" tab filters by the user's id only. |
| TasksScreen.CategorySelectionQuery | client/src/pages/TasksScreen.tsx:89-163 | Choosing a category asks `getTasks` for the open tasks of that category, and 'All Tasks' for all open tasks. The posted tab asks for the user's own tasks. |
| TasksScreen.FormatDate | client/src/pages/TasksScreen.tsx:47-64 | The relative date text; `FormatDateUnits` and `AgoPlural` state the unit and the plural it shows. |
| TasksScreen.GetCategoryColor | client/src/pages/TasksScreen.tsx:32-44 | The class of a category badge; `CategoryColorSpec` states the seven classes and the gray default. |
| TasksScreen.FilteredTasks | client/src/pages/TasksScreen.tsx:150-155 | The search filter; `FilteredTasksSpec` states which tasks it keeps, in order and with their copies. |
| ReviewContext.ReviewProvider.constructor | client/src/context/ReviewContext.tsx:34-38 | No review data, the dialog closed, and no listeners. |
| ReviewContext.ReviewProvider.OpenReviewModal | client/src/context/ReviewContext.tsx:41-44 | Sets the data and opens the dialog. |
| ReviewContext.ReviewProvider.CloseReviewModal | client/src/context/ReviewContext.tsx:47-51 | Closes the dialog and keeps the data for now. |
| ReviewContext.ReviewProvider.OnReviewSubmitted | client/src/context/ReviewContext.tsx:65-66 | Appends the callback after the existing listeners. |
| ReviewContext.ReviewProvider.Unsubscribe | client/src/context/ReviewContext.tsx:69-73 | Removes every registration of the callback. |
| ReviewContext.ReviewProvider.NotifyReviewSubmitted | client/src/context/ReviewContext.tsx:54-62 | Calls every listener once, in registration order. A throwing listener's error is caught and logged, and the next listener is still called. |
| ReviewContext.UseReview | client/src/context/ReviewContext.tsx:93-101 | Fails exactly when there is no provider and returns the provider's value otherwise. |
| ReviewContext.WithoutSpec | client/src/context/ReviewContext.tsx:69-73 | Unsubscribing removes the callback. Every other listener keeps its order and its number of registrations. Unsubscribing again changes nothing. |
| ReviewContext.WithoutCommutes | client/src/context/ReviewContext.tsx:69-73 | Two unsubscriptions can run in either order. |
| ReviewContext.SubscribeThenUnsubscribe | client/src/context/ReviewContext.tsx:65-73 | Subscribing a new callback and unsubscribing it restores the registry. |
| ReviewContext.DeliveriesSpec | client/src/context/ReviewContext.tsx:54-62 | One call per listener, in order, with the review's task and reviewer. |
| ReviewContext.NotifyAfterUnsubscribe | client/src/context/ReviewContext.tsx:54-73 | An unsubscribed callback is not called. |
| ReviewContext.Scenario | client/src/context/ReviewContext.tsx:41-74 | Two callbacks are registered, the dialog opened and closed, and both callbacks notified even though the first throws. After the first unsubscribes, only the second is called. |
| ReviewContext.Without | client/src/context/ReviewContext.tsx:69-73 | The registry after an unsubscription; `WithoutSpec` and `WithoutCommutes` state what it removes and keeps. |
| ReviewContext.Deliveries | client/src/context/ReviewContext.tsx:54-62 | The calls a notification makes; `DeliveriesSpec` states that there is one per listener, in order. |

## Left out

- I/O is out of scope: Firebase initialisation, authentication, every network call, the
  `onSnapshot` subscription, Storage uploads and `getDownloadURL`. Their results are
  parameters (ids, timestamps, the collection order, failure flags, upload outcomes).
- Image compression, base64 encoding, `FileReader`, `atob` and `Blob` are left out. Their
  results are inputs: the data url, the emergency result and the per-file outcome.
- The `instanceof File` check in `uploadUserAvatar` is left out, because the file record is
  typed here.
- Concurrency is left out: the lost-update race in the read-modify-write rating update,
  interleaving of the multi-step workflows, and `Promise.all` scheduling.
- TaskPatch.Apply takes every patch key as a literal field name. Firestore's `updateDoc`
  reads a dotted key as a field path, so a key such as `status.note` or `creatorId.x`
  replaces `status` or `creatorId`; `updateTask`'s destructuring removes only the exact
  protected keys. Field paths are not modelled.
- TaskPatch.ApplyKeepsProtected holds for patch keys without `.` only, because of the line
  above.
- TaskPatch.ApplyWritesPatch holds for patch keys without `.` only, for the same reason.
- TaskStore.Store.UpdateTask states the new task for patch keys without `.` only, for the
  same reason.
- AvatarUpload.AvatarCompression states the settings asked of `compressImage`, not the
  size of its result. When compression throws, the original file (up to 5 MiB) is uploaded
  instead; the compressed or original file is not modelled.
- Values are null, booleans, numbers, NaN, strings, arrays and timestamps. Firestore maps,
  GeoPoints and references have no `Value` variant.
- The default `limit = 8` of `getRecentSearches` is not modelled; `limit` is always a
  parameter.
- In `getBookmarkedTasks`, one failing task read makes the whole `Promise.all`, and so the
  call, fail. Task reads are taken to succeed; only the user read can fail (`readFails`).
- Recall takes each entry's category as stored. The source applies `category || 'all'`
  again when it reads an entry; entries that `saveSearchQuery` writes already carry a
  non-empty category.
- AvatarUpload.StoredAvatarFits bounds one copy of the url. The base64 branch writes the url
  three times into the same user document (lines 451-456), so the code as written does not
  keep the document within Firestore's 1 MiB limit; see Findings.
- The other fields of a user document are not counted against the 1 MiB limit.
- IEEE floating point is not modelled. Means and thresholds are exact reals. The byte
  thresholds agree with the floating-point comparison for every whole length.
- Ratings.ToNumber: a numeric string or other coercible value in `rating` is taken to give
  NaN, whereas JavaScript would coerce it.
- TaskStore.Store.Valid: users whose `ratingCount` is not a whole number (a string, a
  fraction) are outside the model.
- The model rejects every document id containing `/`. `doc()` accepts an id that adds an
  even number of path segments and then reads a nested document; it throws only for an odd
  number. Nested documents and Firestore's other id restrictions are not modelled.
- Text.Lower lowers ASCII and Latin-1 letters only. JavaScript's full Unicode case mapping,
  and the UTF-16 counting of `length` and `substring`, are not modelled.
- TasksScreen.GetCategoryColor does not model keys inherited from `Object.prototype` (such
  as "constructor"), which `colorMap[category]` would also find.
- TaskCard: a task whose title or description is not a string (which would make the filter
  throw) is outside the model.
- The personal-history branch of `getRecentSearches` falls back to trending searches when
  its read throws. Network failures are not modelled there.
- The delayed `setTimeout` reset of `reviewData` in `closeReviewModal` and React's
  batching of state updates are left out.
- UI rendering, logging, toasts, the mock distance from `Math.random`, and the error-message
  table are left out.
- `uploadUserAvatarBase64`, `uploadChatImage`, `uploadTaskImage` and the chat functions are
  not part of this model.

## Findings

| source | as written | input that shows it | evidently intended | confidence | as-written member | corrected member |
|---|---|---|---|---|---|---|
| client/src/lib/firebase.ts:1155-1157 | `completeTask` computes `userData.rating * (userData.ratingCount \|\| 0)`, so a user document without `rating` gives `undefined * 0` = NaN. NaN is then stored as the rating. | A user document created through `updateUserProfile` (lines 603-613) from data without `rating`; `completeTask` with rating 5 then stores NaN. | Read a missing rating as 0, as `createReview` does (line 751), so the first rating becomes the mean. | not executed | Ratings.CompletedRatingOfMissingIsNaN | TaskStore.Store.CompleteTask |
| client/src/lib/firebase.ts:1389-1471 | The parameter `limit` shadows Firestore's `limit`, which is not imported at lines 14-33. `limit(limit)` calls a number and throws, and the catch at lines 1467-1471 returns `[]`. | Any call, e.g. a signed-in user with one saved search "lawn" and limit 8: it returns `[]`. | The newest `limit` personal searches, de-duplicated by query; otherwise the newest `2 * limit` trending searches, de-duplicated and cut to `limit`. | not executed | SearchHistory.RecentSearchesAsWrittenLosesHistory | SearchHistory.SearchHistory.RecentSearches |
| client/src/lib/firebase.ts:391-456 | The size checks compare one copy of the data url with 0.9 MiB and 0.95 MiB, but `updateDoc` writes the url into three fields of the same user document: `avatarBase64`, `photoURL` and `avatarUrl`. | A base64 avatar whose data url has 400000 characters passes the 0.9 MiB check unchanged; its three copies take 1200035 bytes, more than Firestore's 1 MiB document limit, so the write is rejected. | The checks at lines 392-395 and the comment at line 319 aim to keep the document under 1 MB, so they should measure the three copies written. | not executed | AvatarUpload.StoredAvatarOverflowsDocument | AvatarUpload.StoredAvatarFitting |
