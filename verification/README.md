# LearningLaunch progress ledger, in Dafny

LearningLaunch is a reading and counting app for young children. A server
keeps four tables: profiles (users), progress rows, achievements and reading
words. Each progress row holds the ids of the items a user has completed at
one level of one activity type ("reading" or "math"). The browser pages feed
that ledger and read it back. The reading page posts a word id when "next"
leaves a word not yet completed. The counting page posts an activity id after
a correct answer. The parent dashboard turns the rows into per-level cards,
a Monday-to-Sunday activity chart and a total learning time.

This project models:

- the server's `DatabaseStorage` (module `Storage`). It is a class whose
  tables are sequences of rows and whose methods update them in place. A
  class invariant `Valid` says ids are unique and below their serial
  counters, and there is at most one progress row per (user, activity type,
  level). The progress upsert and the session-time estimate also exist as
  pure functions with lemmas about them;
- the row shapes and the completed-item count shared by server and dashboard
  (module `Schema`), and generic filter and find helpers (module `Tables`);
- the dashboard's figures (module `Dashboard`);
- the reading and counting pages' state and the progress payloads they post
  (modules `Reading`, `MathPage`, `Completion`);
- the answer-option generator of the counting page, as a loop method proved
  against a function that says what the loop builds;
- the static word catalogue (module `Words`);
- the profile picker's guards, guest names and guest filter (module
  `UserSelection`);
- the image-suggestion lookup of the word editor (module `ImageSearch`).

Units and inputs:

- Minutes are counted in half-minutes, so the app's 2.5 minutes per completed
  item is the integer 5.
- Dates are integer day numbers. The weekday of day `d` is `d % 7`, with 0
  for Sunday, as `Date.getDay` counts.
- `Math.random()` becomes an explicit input. It is a real in [0, 1) where the
  code multiplies and floors it. It is a finite sequence of draws for the
  answer-option loop. It is a sequence of picks that chooses the order left
  by the random-comparator sort.
- The clock (`new Date()`) and the browser's locale formatting are parameters.

## Model

| member | source | states |
|---|---|---|
| Storage.Upsert | server/storage.ts:128-147 | specification of the progress upsert, stated by the lemmas below |
| Storage.UpsertReplacesExisting | server/storage.ts:130-140 | when a row has the key, it gets the new completed items and stars wholesale; its id, user, type, level, total and date are kept, the row count is the same and every other row is unchanged |
| Storage.UpsertAppendsNew | server/storage.ts:141-146 | when no row has the key, exactly one row is appended with the payload, the next id and a total of 10 |
| Storage.UpsertKeepsKeysUnique | server/storage.ts:128-147 | the upsert preserves "at most one row per (user, type, level)" |
| Storage.UpsertKeyHoldsLatest | server/storage.ts:128-147 | afterwards exactly one row has the key, and it holds the latest completed items and stars |
| Storage.UpsertLeavesOtherKeys | server/storage.ts:135-146 | the rows with any other key are the same rows in the same order |
| Storage.UpsertTwice | server/storage.ts:128-147 | two upserts of one key equal the second alone (under the first's id): last write wins |
| Storage.UpsertIdempotent | server/storage.ts:128-147 | repeating an upsert with the same arguments changes nothing |
| Storage.UpsertKeepsUndated | server/storage.ts:135-146 | the upsert never stamps `updatedAt`: undated tables stay undated |
| Storage.SessionTime | server/storage.ts:97-107 | 2.5 minutes (5 half-minutes) per completed item over the user's rows; zero exactly when none of the user's rows has a completed item, a non-array counting as none |
| Storage.TotalCompletedZero | server/storage.ts:100-103 | the item sum is zero exactly when every row counts zero |
| Storage.SessionTimeAfterUpsert | server/storage.ts:97-107 | after an upsert the writer's session time changes by 5 half-minutes per item of difference between new and replaced items; every other user's is unchanged |
| Storage.ApplyPatch | server/storage.ts:70-72 | a patch changes exactly the name and age it supplies; id, stars and last-active are kept |
| Storage.DatabaseStorage.constructor | server/storage.ts:44 | empty tables satisfy the class invariant |
| Storage.DatabaseStorage.GetUser | server/storage.ts:53-56 | the row with the id, or nothing exactly when no row has it |
| Storage.DatabaseStorage.CreateUser | server/storage.ts:62-68 | appends one row with the next id, the name and age given and zero stars; existing users unchanged |
| Storage.DatabaseStorage.UpdateUserWhere | server/storage.ts:70-95 | the update shared by the three user updates: "User not found" exactly when no row has the id, otherwise that row is changed and returned, others kept |
| Storage.DatabaseStorage.UpdateUser | server/storage.ts:70-77 | patches name and age of the row with the id; "User not found" exactly when there is none, and then nothing changes |
| Storage.DatabaseStorage.UpdateUserStars | server/storage.ts:79-86 | sets (does not add to) the star total; "User not found" exactly when no row has the id; other rows unchanged |
| Storage.DatabaseStorage.UpdateUserLastActive | server/storage.ts:88-95 | stamps the given day; "User not found" exactly when no row has the id |
| Storage.DatabaseStorage.GetSessionTime | server/storage.ts:97-107 | a multiple of 5 half-minutes, zero exactly when the user has no completed item |
| Storage.DatabaseStorage.DeleteUser | server/storage.ts:109-116 | removes exactly the user's progress rows, achievements and own row; every other row stays, in order; the invariant holds |
| Storage.DatabaseStorage.GetUserProgress | server/storage.ts:118-120 | exactly the user's progress rows |
| Storage.DatabaseStorage.GetProgressByType | server/storage.ts:122-126 | exactly the user's progress rows of that type |
| Storage.DatabaseStorage.UpdateProgress | server/storage.ts:128-147 | the table becomes `Upsert` of the old table under the next serial id; the row returned has the key and the payload; the serial counter advances exactly when a row was appended; the invariant, key uniqueness included, holds |
| Storage.DatabaseStorage.ClearUserProgress | server/storage.ts:149-151 | removes exactly the user's progress rows; the other tables are untouched |
| Storage.DatabaseStorage.ClearUserProgressByType | server/storage.ts:153-157 | removes exactly the user's rows of that type |
| Storage.DatabaseStorage.GetReadingWords | server/storage.ts:159-161 | exactly the words of the level |
| Storage.DatabaseStorage.AddReadingWord | server/storage.ts:167-172 | appends one word under the next serial id |
| Storage.DatabaseStorage.UpdateReadingWord | server/storage.ts:174-181 | overwrites word, image and level of the row with the id; "Word not found" exactly when there is none, and then nothing changes |
| Storage.DatabaseStorage.DeleteReadingWord | server/storage.ts:183-185 | removes exactly the word with the id |
| Storage.DatabaseStorage.GetUserAchievements | server/storage.ts:197-199 | exactly the user's achievements |
| Storage.DatabaseStorage.AddAchievement | server/storage.ts:201-206 | appends one achievement under the next serial id |
| Storage.DatabaseStorage.ClearUserAchievements | server/storage.ts:208-210 | removes exactly the user's achievements |
| Schema.TotalCompletedAppend | server/storage.ts:100-103 | the completed-item sum is additive over concatenated rows |
| Schema.TotalCompletedOnlyItems | client/src/pages/parent-dashboard.tsx:136-139 | the sum depends on the completed items alone |
| Schema.TotalCompletedFilterUpdate | server/storage.ts:100-103 | replacing one row changes the sum over the kept rows by the difference of the two counts |
| Completion.CompletedList | client/src/pages/reading.tsx:92-93 | no progress list or no matching row gives no ids; otherwise the ids are those of the first matching row (none when its value is not an array) |
| Completion.Complete | client/src/pages/reading.tsx:108-110 | nothing exactly when the id is already completed; otherwise the old list with the id appended once, adding one copy to the multiset and keeping the list free of duplicates |
| Completion.PostReadBack | client/src/pages/reading.tsx:92-93 | after the server upserts a posted payload, the page's read of that user, type and level returns exactly the posted ids |
| Dashboard.CompleteProgress | client/src/pages/parent-dashboard.tsx:65-93 | six rows |
| Dashboard.CompleteProgressShape | client/src/pages/parent-dashboard.tsx:66-78 | row i has level i+1; it is a stored row exactly when a row of that type and level exists, and is then one of them; otherwise it is the default with no items, the given total, no stars and no date |
| Dashboard.CompleteProgressPicksTheRow | client/src/pages/parent-dashboard.tsx:68 | with one row per type and level, the stored row is that row |
| Dashboard.CompleteReadingProgress | client/src/pages/parent-dashboard.tsx:65-78 | six rows; the default rows are "reading" rows of 12 items at level i+1 |
| Dashboard.CompleteMathProgress | client/src/pages/parent-dashboard.tsx:80-93 | six rows; the default rows are "math" rows of 10 items at level i+1 |
| Dashboard.MondayOfWeek | client/src/pages/parent-dashboard.tsx:102-103 | the offset is 0..6 and the computed day is the Monday of the week that contains today |
| Dashboard.DayHalfMinutes | client/src/pages/parent-dashboard.tsx:117-123 | at most 60 minutes, and equal to 2.5 minutes per item unless that exceeds the cap |
| Dashboard.DayEntry | client/src/pages/parent-dashboard.tsx:106-129 | one bucket, at most 60 minutes |
| Dashboard.WeeklyActivity | client/src/pages/parent-dashboard.tsx:96-131 | seven buckets, each at most 60 minutes |
| Dashboard.WeekdayAfterMonday | client/src/pages/parent-dashboard.tsx:106-108 | the day i after a Monday has weekday i+1, Sunday for i = 6 |
| Dashboard.WeeklyActivityDays | client/src/pages/parent-dashboard.tsx:105-129 | bucket i is named Mon..Sun in order and holds min(60, 2.5 x items completed that day); it is non-zero exactly when items were completed that day |
| Dashboard.DayCompletedAppend | client/src/pages/parent-dashboard.tsx:111-115 | a row counts toward exactly one day, the one its `updatedAt` names, and toward none when undated |
| Dashboard.OutsideWeekIgnored | client/src/pages/parent-dashboard.tsx:111-115 | a row updated outside the week, or never, leaves every bucket unchanged |
| Dashboard.UndatedWeekIsEmpty | client/src/pages/parent-dashboard.tsx:112 | rows without `updatedAt`, which is every row the server writes, give an empty week |
| Dashboard.TotalSessionTime | client/src/pages/parent-dashboard.tsx:134-141 | 0 without progress; otherwise 2.5 minutes per completed item, rounded half up |
| Dashboard.TotalSessionTimeIgnoresDates | client/src/pages/parent-dashboard.tsx:134-141 | the total does not depend on the rows' dates |
| Dashboard.TotalSessionTimeMatchesServer | client/src/pages/parent-dashboard.tsx:134-141 | on the user's rows the dashboard total is the server's session time rounded half up |
| Dashboard.MaxHalfMinutes | client/src/pages/parent-dashboard.tsx:144 | at least 10 minutes, at least every bucket, and equal to 10 minutes or to some bucket |
| Reading.ReadingStars | client/src/pages/reading.tsx:111 | at most 5, one per two words, and 5 unless fewer than two more words would earn another |
| Reading.ReadingStarsMonotone | client/src/pages/reading.tsx:111 | more words never give fewer stars; five stars exactly from ten words |
| Reading.CompletedWords | client/src/pages/reading.tsx:92-93 | no ids without a progress list; otherwise the ids of the first row at the current level, none when there is no such row |
| Reading.ReadingPost | client/src/pages/reading.tsx:63-112 | nothing exactly when the word is completed; otherwise type "reading", the current level, the list with the word appended once, and stars for the new count (at most 5) |
| Reading.ReadingPostOnce | client/src/pages/reading.tsx:94-113 | after a word's post, a second "next" on it with the stored list posts nothing |
| Reading.ReadingSession.constructor | client/src/pages/reading.tsx:15-17 | the preselected level or 1, the first word |
| Reading.ReadingSession.NextWord | client/src/pages/reading.tsx:108-127 | posts `ReadingPost` for the word shown (nothing exactly when it is completed); advances only below the last word, where it reports the level complete; the index stays in range |
| Reading.ReadingSession.PreviousWord | client/src/pages/reading.tsx:129-133 | goes back one only above 0; the index stays in range |
| Reading.ReadingSession.SelectLevel | client/src/pages/reading.tsx:301-306 | the chosen level, from index 0 |
| MathPage.MathStars | client/src/pages/math.tsx:69 | at most 5 and at most the count, and equal to one of them |
| MathPage.MathPost | client/src/pages/math.tsx:27-72 | nothing exactly when the activity is completed; otherwise user 1, "math", level 1, the list with the id appended once, and stars for the new count |
| MathPage.MathSession.constructor | client/src/pages/math.tsx:12-16 | the first activity, no answer, no feedback |
| MathPage.MathSession.AnswerSelect | client/src/pages/math.tsx:54-78 | the answer is shown with its feedback; a correct answer schedules `MathPost` for the activity shown, a wrong one schedules nothing and keeps the activity |
| MathPage.MathSession.FeedbackElapsed | client/src/pages/math.tsx:79-85 | hides the feedback; moves on only after a correct answer below the last activity; the index stays in range |
| MathPage.FillWellFormed | client/src/pages/math.tsx:89-95 | the loop keeps the correct answer first and distinct wrong answers in [max(1, c-3), max(1, c+2)], only appends, and stops short of four only when every draw's candidate is present |
| MathPage.FillStuckBelowTwo | client/src/pages/math.tsx:90-95 | with a correct answer of 1 or less no draws give four options: the loop never ends, reading `Math` as the global object (as written it throws first: see Findings) |
| MathPage.FillEndsFromTwo | client/src/pages/math.tsx:90-95 | from 2 up the draws 2, 4, 5 end the loop with c, c-1, c+1, c+2 |
| MathPage.RandomOrder | client/src/pages/math.tsx:96 | the shuffle is a permutation of the built options |
| MathPage.RandomOrderReachesAll | client/src/pages/math.tsx:96 | every permutation is one the shuffle can give |
| MathPage.GenerateAnswerOptions | client/src/pages/math.tsx:88-97 | the options are a permutation of what the loop builds: the correct answer plus distinct wrong ones in range, at most four, and fewer than four only when the draws ran out |
| MathPage.DrawsValid | client/src/pages/math.tsx:91 | random values in [0, 1) give draws in 0..5 |
| MathPage.FillUnderGlobalMath | client/src/pages/math.tsx:89-95 | with `Math` read as the global object, the loop evaluated on random values is `Fill` on their draws |
| MathPage.FillAsWrittenThrows | client/src/pages/math.tsx:12-91 | as written, `Math` is the page component and the loop's first iteration throws a TypeError for every correct answer and random value |
| MathPage.MathPostUnderGlobalMath | client/src/pages/math.tsx:67-72 | with `Math` read as the global object, the payload is `MathPost` |
| MathPage.MathPostAsWrittenThrows | client/src/pages/math.tsx:12-69 | as written, the star computation throws exactly when the activity is not yet completed; a completed one gives no post |
| Words.WordsByLevel | client/src/lib/words.ts:87-102 | empty outside 1..5; every word has the level asked for |
| Words.LevelsTagged | client/src/lib/words.ts:9-85 | every entry of list N has level N |
| Words.AllWords | client/src/lib/words.ts:104-106 | the five level lists in order, 63 words |
| Words.AllWordsByLevel | client/src/lib/words.ts:104-106 | a word is in the catalogue exactly when it is in its own level's list |
| Words.AllWordsIds | client/src/lib/words.ts:10-84 | the ids run 1..63 in catalogue order, so they are unique |
| Words.PhonicsSpellWords | client/src/lib/words.ts:10-84 | every entry has phonics, and its segments spell its word |
| Words.Pick | client/src/lib/words.ts:110 | nothing exactly for an empty list, otherwise one of its words |
| Words.RandomWord | client/src/lib/words.ts:108-111 | a missing or zero level draws from the whole catalogue, another level from its list; the word is in that list and has that level |
| UserSelection.TrimEmpty | client/src/pages/user-selection.tsx:55 | trimming leaves nothing exactly when every character is ECMAScript white space or a line terminator |
| UserSelection.CreateUserRequest | client/src/pages/user-selection.tsx:54-60 | nothing exactly when the name is blank; otherwise the form as typed |
| UserSelection.DecimalRoundTrip | client/src/pages/user-selection.tsx:67 | the rendered number parses back to itself |
| UserSelection.DecimalInjective | client/src/pages/user-selection.tsx:67 | distinct numbers render differently |
| UserSelection.GuestName | client/src/pages/user-selection.tsx:64-67 | one of the five guest names, a space, and a number 1..999 |
| UserSelection.GuestRequest | client/src/pages/user-selection.tsx:62-68 | age 5, a name starting "Guest ", which the blank-name guard lets through |
| UserSelection.GuestUsers | client/src/pages/user-selection.tsx:77 | empty while users are absent; otherwise exactly the users whose name starts with "Guest ", in order |
| UserSelection.GuestIsListed | client/src/pages/user-selection.tsx:62-77 | a profile created from a guest click is listed among the guests |
| UserSelection.FormatLastActive | client/src/pages/user-selection.tsx:79-82 | "New user" exactly for a profile never active; otherwise "Last seen: " and the locale date |
| ImageSearch.SuggestionsHaveThree | client/src/components/image-search.tsx:19-30 | every table term has three photos |
| ImageSearch.ToUpperIdempotent | client/src/components/image-search.tsx:32 | upper-casing twice is upper-casing once |
| ImageSearch.PhotoIds | client/src/components/image-search.tsx:32-42 | three ids: the table entry of the upper-cased term, or the fallback |
| ImageSearch.GetImageSuggestions | client/src/components/image-search.tsx:17-43 | three addresses, each the base address followed by a photo id |
| ImageSearch.SuggestionIdsRecovered | client/src/components/image-search.tsx:18-42 | every address starts with the base address, and the rest is the photo id |
| ImageSearch.SuggestionsIgnoreCase | client/src/components/image-search.tsx:32-34 | a term and its upper-cased form get the same suggestions |
| ImageSearch.SameLettersSameSuggestions | client/src/components/image-search.tsx:32-34 | terms that differ only in letter case get the same suggestions |
| ImageSearch.LowerCaseCatFound | client/src/components/image-search.tsx:20-34 | "cat" finds the CAT photos |
| ImageSearch.UnknownTermFallsBack | client/src/components/image-search.tsx:37-42 | a term not in the table gets the same three fallback photos whatever its text |

## Left out

- The HTTP routes, the database driver switch, speech synthesis, toasts, redirects, local storage and react-query caching are plumbing; the model starts where they hand values to the ledger or the pages.
- `seedReadingWords` and `initializeData` are static inserts of the catalogue; `getAllUsers` (its ordering by `lastActive`), `getAllReadingWords` and `getAllMathActivities` read a whole table; `getMathActivities` reads the math activities of one type and level. The math-activity table is not part of this model.
- Chained `.where(...)` calls are modelled as the conjunction they are written to mean. Drizzle's query builder keeps only the last `.where`, so at run time `getProgressByType`, the lookup in `updateProgress` and `clearUserProgressByType` match on the last condition alone: by type, by level, by type. That foreign-library behaviour is not modelled.
- Storage.DatabaseStorage.UpdateUser: takes a name/age patch; the source passes any partial insert object to `SET`.
- Storage.DatabaseStorage.UpdateUserLastActive: the current date is a parameter, a day number. The schema of the users table declares no `lastActive` column, although `getAllUsers` orders by one and this update sets one; the model adds the field as an optional day and does not model what the database does with a `SET` of an undeclared column.
- Dashboard.WeeklyActivity: the schema of the progress table declares no `updatedAt` column, although the dashboard buckets rows by it; the model adds the field as an optional day, and no storage operation ever sets it (`UndatedWeekIsEmpty`).
- Storage.DatabaseStorage.DeleteUser: the three deletes run as one step; there are no transactions, concurrency or failures between them.
- Concurrent upserts (two requests racing on one key) are outside a sequential model.
- Times are day numbers: time zones, `toDateString` and `toLocaleDateString` formatting are not modelled. `FormatLastActive` takes the locale formatting as a parameter.
- Floating point: minutes are integer half-minutes; `Math.round` of a multiple of 0.5 is round-half-up.
- Randomness is an input. `Math.random()` is a real in [0, 1); the answer-option loop consumes a finite list of draws, so a loop that would run for ever is a run that uses every draw and still has fewer than four options.
- MathPage.RandomOrder: any order the picks choose; the distribution of the engine's sort under a random comparator is not modelled.
- Reading.ReadingSession.constructor: `parseInt` of the stored level is taken to give a number; a non-numeric stored level (NaN) is not modelled.
- Completion.CompletedList: a `completedItems` value that is not an array reads as no ids; in the browser `includes` on such a value would throw or behave differently.
- ImageSearch.ToUpper: upper-cases only a-z; `toUpperCase` also maps other letters (for instance a dotless i to I), which could make a non-ASCII term match a table entry.
- MathStars: reads `Math.min` as the global object's. In the counting page the component is itself named `Math` and shadows the global, so as written the call throws (see Findings and `MathPostAsWrittenThrows`).
- MathPost: its stars use the global `Math.min`; as written the star computation throws before any post for an activity not yet completed (`MathPostAsWrittenThrows`).
- AnswerSelect: schedules `MathPost` as the page evidently intends; as written the page throws while rendering its answer buttons, and a correct answer to a new activity throws at the star computation (see Findings).
- FillWellFormed: about the loop with `Math.max` and `Math.floor` read as the global object's; as written its first iteration throws (`FillAsWrittenThrows`).
- FillStuckBelowTwo: the loop that never ends is the loop under the global `Math`; as written it throws on its first iteration instead (`FillAsWrittenThrows`).
- FillEndsFromTwo: termination of the loop under the global `Math`; as written it throws on its first iteration (`FillAsWrittenThrows`).
- GenerateAnswerOptions: proved for the loop under the global `Math`; as written it throws for every input (`FillAsWrittenThrows`).
- The browser timers of the counting page: the two-second post delay is folded into `AnswerSelect`'s return value, and the three-second timer is the separate `FeedbackElapsed`.

## Findings

| source | as written | input that shows it | evidently intended | confidence | as-written member | corrected member |
|---|---|---|---|---|---|---|
| client/src/pages/math.tsx:91 | `Math.floor` and `Math.max` are looked up on the page component, which the declaration at line 12 names `Math`; it has no such properties, so the call throws a TypeError | any activity, any random value: the first iteration of the option loop, run on every render | the global `Math`, as the `globalThis.Math.random()` calls on the same lines show | high; not executed | MathPage.FillAsWrittenThrows | MathPage.GenerateAnswerOptions |
| client/src/pages/math.tsx:69 | `Math.min` is looked up on the page component and throws a TypeError before the post is scheduled | a correct answer to an activity not yet completed | stars `min(5, n)` for the new count n | high; not executed | MathPage.MathPostAsWrittenThrows | MathPage.MathPost |
