# Fianca quiz and marketplace core, modelled in Dafny

This project models the logic of the Fianca Android app. It has two parts.

- **The quiz.**
  - `QuizViewModel` holds the current question index, the attempt counter, the error flag and message, the question list and the loading flag.
  - `checkAnswer` advances to the next question, completes the quiz, asks the player to try again, or restarts the quiz after the second wrong answer in a row.
  - The questions come from `QuizRepository`. `ensureSeeded` writes five questions with twenty options into an empty store, and `loadQuestionsWithOptions` reads them back in id order.
  - If loading fails, the view model falls back to the built-in `defaultQuestions` set.
- **The marketplace store.** This covers users, categories, freelancer–category links, service requests and interests, with the DAO queries and updates over them and the `FreelanceRepository` operations on top:
  - registration, which is idempotent by email;
  - login, which needs an exact password and an unsuspended user;
  - category and request creation;
  - linking and unlinking;
  - interests;
  - suspension;
  - the freelancer's feed of open requests.

The store is modelled on values:

- Every table is a finite map from primary key to row.
- A query is a function of the maps.
- `ORDER BY id` gives a sequence strictly ordered by id.
- A REPLACE insert overwrites the row under its key. Where the table has a unique index, a REPLACE insert also deletes the rows that clash with the new one.
- An ABORT insert reports `Aborted` and changes nothing when a key or a unique index clashes.

The objects whose fields the app updates in place are classes whose methods are proved against these functions: `QuizDb`, `FreelanceDb` and `QuizViewModel`. The files and modules are:

- `tables.dfy` (module `Tables`): the relational vocabulary shared by all tables.
- `optional.dfy` (module `Optional`): Kotlin's nullable values.
- The quiz: `quiz_entities.dfy`, `quiz_dao.dfy`, `quiz_repository.dfy` and `quiz_view_model.dfy`.
- The marketplace: `freelance_entities.dfy`, `freelance_dao.dfy` and `freelance_repository.dfy`.

The view model's `onComplete` and `onFail` callbacks are counted in two ghost fields. `Answer` gives the transition one answer makes, and `Play` chains several answers and yields the callbacks they invoke, in order.

The initial load runs in a coroutine. Here it is one step, `FinishLoading`, which receives how the load ended: `Success(list)` or `Failure`.

## Model

All source paths are under `app/src/main/java/com/example/fianca/`; the table cites them in full.

| member | source | states |
|---|---|---|
| Tables.Min | app/src/main/java/com/example/fianca/data/FreelanceDao.kt:17-18 | the key `LIMIT 1` picks is a key of the table, no larger than any other |
| Tables.RowsAscending | app/src/main/java/com/example/fianca/data/Dao.kt:24-25 | `ORDER BY id ASC` lists every stored row exactly once and nothing else, with ids strictly increasing |
| Tables.AscendingUnique | app/src/main/java/com/example/fianca/data/Dao.kt:24-25 | any strictly increasing enumeration of a key set is its ascending listing, so the order is fully determined |
| Tables.OrderedListingUnique | app/src/main/java/com/example/fianca/data/Dao.kt:27-28 | two listings that are strictly ordered by id and hold the same rows are the same listing |
| Tables.RowsDescending | app/src/main/java/com/example/fianca/data/FreelanceDao.kt:68-69 | `ORDER BY id DESC` lists every stored row exactly once, with ids strictly decreasing |
| Tables.ReverseFlipsOrder | app/src/main/java/com/example/fianca/data/FreelanceDao.kt:83-84 | reversing an ascending listing keeps its rows and makes the ids strictly decreasing |
| Tables.Where | app/src/main/java/com/example/fianca/data/Dao.kt:27-28 | a `WHERE` filter keeps exactly the rows that satisfy the condition, each under its own key and unchanged |
| Tables.ByKey | app/src/main/java/com/example/fianca/data/Dao.kt:33-34 | the table left by REPLACE-inserting rows stores every row under its own id |
| Tables.ByKeyKeys | app/src/main/java/com/example/fianca/data/Dao.kt:33-34 | after REPLACE-inserting rows, the stored ids are exactly the ids of the given rows |
| Tables.ByKeyLastWins | app/src/main/java/com/example/fianca/data/Dao.kt:33-34 | when several given rows share an id, the last one is the one stored |
| Tables.ByKeySnoc | app/src/main/java/com/example/fianca/data/Dao.kt:33-34 | inserting one more row overwrites its id and nothing else |
| Tables.ByKeyAppend | app/src/main/java/com/example/fianca/data/Dao.kt:36-37 | inserting two batches one after the other stores what one insert of both batches stores |
| Tables.FreshKeyExists | app/src/main/java/com/example/fianca/data/FreelanceEntities.kt:9 | a table always has a positive id not yet in use |
| Tables.AssignedKey | app/src/main/java/com/example/fianca/data/FreelanceEntities.kt:9 | an explicit id is kept; id 0 asks for an autogenerated one, which is positive and not yet in the table |
| Tables.ReplaceRow | app/src/main/java/com/example/fianca/data/FreelanceDao.kt:50-51 | REPLACE on a unique index: the new row is stored under its id, the rows that clash with it are gone, and every other row is kept |
| QuizEntities.CountCorrect | app/src/main/java/com/example/fianca/data/Entities.kt:12-18 | the number of options marked correct is at most the number of options, and is zero exactly when none is marked |
| QuizEntities.CountCorrectOfFour | app/src/main/java/com/example/fianca/data/Repository.kt:24-29 | four options hold as many correct ones as are marked among them |
| QuizDao.GetQuestionsOnce | app/src/main/java/com/example/fianca/data/Dao.kt:24-25 | every stored question, each once, strictly ascending by id |
| QuizDao.GetOptionsOnce | app/src/main/java/com/example/fianca/data/Dao.kt:27-28 | exactly the stored options whose questionId is the given one, strictly ascending by id |
| QuizDao.CountQuestions | app/src/main/java/com/example/fianca/data/Dao.kt:30-31 | the count is the length of the question listing, and zero exactly when the table is empty |
| QuizDao.QuizDb.InsertQuestions | app/src/main/java/com/example/fianca/data/Dao.kt:33-34 | every given question is stored under its id (REPLACE), other ids keep their rows, and the options table is untouched |
| QuizDao.QuizDb.InsertOptions | app/src/main/java/com/example/fianca/data/Dao.kt:36-37 | every given option is stored under its id (REPLACE), other ids keep their rows, and the questions table is untouched |
| QuizDao.QuizDb.ClearQuestions | app/src/main/java/com/example/fianca/data/Dao.kt:39-40 | the questions table becomes empty, the options table is unchanged, and the store stays keyed by id |
| QuizDao.QuizDb.ClearOptions | app/src/main/java/com/example/fianca/data/Dao.kt:42-43 | the options table becomes empty, the questions table is unchanged, and the store stays keyed by id |
| QuizRepository.Seeded | app/src/main/java/com/example/fianca/data/Repository.kt:15-55 | the store after seeding still stores every row under its own id |
| QuizRepository.EnsureSeeded | app/src/main/java/com/example/fianca/data/Repository.kt:15-55 | the new store is `Seeded` of the old one; a store with questions keeps both tables as they were |
| QuizRepository.FiveInsertsAsOne | app/src/main/java/com/example/fianca/data/Repository.kt:24-53 | the five `insertOptions` calls leave what one insert of all twenty options would |
| QuizRepository.SeedGroupTable | app/src/main/java/com/example/fianca/data/Repository.kt:24-29 | one seed `insertOptions` call stores its four options under ids q01 to q04 |
| QuizRepository.SeedQuestionTable | app/src/main/java/com/example/fianca/data/Repository.kt:18-23 | the seed questions are stored under ids 1 to 5 |
| QuizRepository.SeedQuestionKeys | app/src/main/java/com/example/fianca/data/Repository.kt:18-23 | the seed question table holds exactly the ids 1 to 5 |
| QuizRepository.SeedOptionTable | app/src/main/java/com/example/fianca/data/Repository.kt:24-53 | the twenty seed options form the five group tables laid over each other in call order |
| QuizRepository.SeedGroupKeys | app/src/main/java/com/example/fianca/data/Repository.kt:24-29 | group q holds exactly the ids q01 to q04, and each of its rows belongs to question q |
| QuizRepository.SeedIdDigits | app/src/main/java/com/example/fianca/data/Repository.kt:25-28 | the ids q01 to q04 are the ids whose hundreds digit is q and whose remainder is 1 to 4 |
| QuizRepository.SeedOptionKeys | app/src/main/java/com/example/fianca/data/Repository.kt:24-53 | the seed option table holds exactly the ids q01 to q04 for q from 1 to 5 |
| QuizRepository.SeedOptionOwners | app/src/main/java/com/example/fianca/data/Repository.kt:24-53 | every seed option with id q0j belongs to question q |
| QuizRepository.SeedGroupRow | app/src/main/java/com/example/fianca/data/Repository.kt:24-29 | within its group, option q0j is stored as written |
| QuizRepository.SeedOptionRow | app/src/main/java/com/example/fianca/data/Repository.kt:24-53 | no later seed call reuses id q0j, so option q0j is stored as written |
| QuizRepository.SeededFromEmpty | app/src/main/java/com/example/fianca/data/Repository.kt:16-53 | on a store without questions, seeding lays the seed rows over the existing tables |
| QuizRepository.SeedWritesQuestions | app/src/main/java/com/example/fianca/data/Repository.kt:16-23 | on a store without questions, the questions afterwards are exactly 1 to 5 |
| QuizRepository.SeedWritesOptions | app/src/main/java/com/example/fianca/data/Repository.kt:16-53 | on a store without questions, the option ids afterwards are the old ones plus q01 to q04 for each question q |
| QuizRepository.SeedOptionsBelong | app/src/main/java/com/example/fianca/data/Repository.kt:24-53 | after seeding an empty store, option q0j is stored and belongs to question q |
| QuizRepository.SeedKeepsOtherOptions | app/src/main/java/com/example/fianca/data/Repository.kt:24-53 | option rows under ids that are not seed ids survive seeding unchanged |
| QuizRepository.SeededOptionRow | app/src/main/java/com/example/fianca/data/Repository.kt:24-53 | after seeding an empty store, option q0j is the seed row, and it is correct exactly when it is 102, 202, 303, 403 or 502 |
| QuizRepository.SeedLeavesNonEmptyStore | app/src/main/java/com/example/fianca/data/Repository.kt:16-17 | a store with at least one question is left unchanged, even when its options table is empty |
| QuizRepository.SeededIdempotent | app/src/main/java/com/example/fianca/data/Repository.kt:15-55 | seeding twice gives the same store as seeding once |
| QuizRepository.SeedFlagMarksCorrectId | app/src/main/java/com/example/fianca/data/Repository.kt:25-52 | the `isCorrect` flags written beside the seed options mark option q0j exactly when it is 102, 202, 303, 403 or 502 |
| QuizRepository.SeedOneCorrectPerQuestion | app/src/main/java/com/example/fianca/data/Repository.kt:24-53 | each seed question has exactly one correct option: 102, 202, 303, 403 and 502 |
| QuizRepository.LoadCoversQuestions | app/src/main/java/com/example/fianca/data/Repository.kt:8-9 | the question listing holds stored rows only and covers every stored id |
| QuizRepository.WithOptions | app/src/main/java/com/example/fianca/data/Repository.kt:9-12 | each listed question keeps its id and text and gets its stored options |
| QuizRepository.LoadQuestionsWithOptions | app/src/main/java/com/example/fianca/data/Repository.kt:7-13 | the result has one entry per stored question, each id once, strictly ascending, with the text copied; each entry's options are exactly that question's stored options in ascending id order; as a function of the tables, loading changes nothing |
| QuizRepository.LoadAfterSeedIsNonEmpty | app/src/main/java/com/example/fianca/data/Repository.kt:15-23 | after seeding, loading returns at least one question |
| QuizViewModel.FirstWithId | app/src/main/java/com/example/fianca/MainActivity.kt:246 | `firstOrNull`: null exactly when no option carries the id; otherwise the first option that carries it |
| QuizViewModel.Answer | app/src/main/java/com/example/fianca/MainActivity.kt:244-268 | one answer keeps the index in range and the attempts in {0, 1}; `onComplete` fires only on the last question and keeps the index; `onFail` sends the player back to question 0 |
| QuizViewModel.Play | app/src/main/java/com/example/fianca/MainActivity.kt:244-268 | a run of answers gives one callback slot per answer and keeps the index and the attempts in range |
| QuizViewModel.CorrectAdvances | app/src/main/java/com/example/fianca/MainActivity.kt:248-251 | a correct answer before the last question moves the index up by one, resets the attempts and calls nothing |
| QuizViewModel.CorrectAtLastCompletes | app/src/main/java/com/example/fianca/MainActivity.kt:248-254 | a correct answer on the last question calls `onComplete` once, keeps the index and resets the attempts |
| QuizViewModel.FirstWrongAnswer | app/src/main/java/com/example/fianca/MainActivity.kt:255-266 | the first wrong answer sets the attempts to 1 and shows "Pensa bem...", keeping the index and calling nothing |
| QuizViewModel.SecondWrongAnswer | app/src/main/java/com/example/fianca/MainActivity.kt:255-262 | the second wrong answer calls `onFail` once, shows the restart text, and resets the attempts and the index to 0 |
| QuizViewModel.UnknownIdIsWrong | app/src/main/java/com/example/fianca/MainActivity.kt:246-248 | an id none of the current options carries is answered exactly like a wrong option's id |
| QuizViewModel.CorrectRunCompletesOnce | app/src/main/java/com/example/fianca/MainActivity.kt:244-268 | answering every remaining question correctly ends on the last question and calls `onComplete` exactly once, on the final answer, and never `onFail` |
| QuizViewModel.DefaultQuestionsShape | app/src/main/java/com/example/fianca/MainActivity.kt:282-335 | the fallback set has five questions, ids 1 to 5, each with four options q01 to q04 of that question, exactly one of them correct: 102, 202, 302, 403, 502 |
| QuizViewModel.DefaultCorrectIdIsCorrectChoice | app/src/main/java/com/example/fianca/MainActivity.kt:282-335 | picking the correct id of a fallback question selects a correct option |
| QuizViewModel.DefaultCorrectChoices | app/src/main/java/com/example/fianca/MainActivity.kt:282-335 | 102, 202, 302, 403 and 502, picked in order, are correct choices for the fallback questions |
| QuizViewModel.DefaultRunCompletes | app/src/main/java/com/example/fianca/MainActivity.kt:244-254 | on the fallback set, starting fresh and answering 102, 202, 302, 403, 502 calls nothing for four answers and `onComplete` on the fifth |
| QuizViewModel.LoadedQuestions | app/src/main/java/com/example/fianca/MainActivity.kt:231-241 | after the initial load the questions are the loaded list, or the five fallback questions on any failure |
| QuizViewModel.QuizViewModel.constructor | app/src/main/java/com/example/fianca/MainActivity.kt:215-229 | a new view model is at question 0 with no attempts, no error, no questions, and is loading |
| QuizViewModel.QuizViewModel.FinishLoading | app/src/main/java/com/example/fianca/MainActivity.kt:231-241 | the questions become `LoadedQuestions(outcome)`, loading ends, and the answer state is untouched |
| QuizViewModel.QuizViewModel.CheckAnswer | app/src/main/java/com/example/fianca/MainActivity.kt:244-268 | the fields end as `Answer` prescribes; each callback counter rises by one exactly when `Answer` signals it; the attempts stay in {0, 1} and the index in range |
| QuizViewModel.QuizViewModel.DismissError | app/src/main/java/com/example/fianca/MainActivity.kt:270-272 | only the error flag changes, to false |
| QuizViewModel.QuizViewModel.Reset | app/src/main/java/com/example/fianca/MainActivity.kt:274-279 | index 0, attempts 0, no error and an empty message; the questions stay |
| FreelanceDao.GetByEmail | app/src/main/java/com/example/fianca/data/FreelanceDao.kt:17-18 | a user exactly when the email is taken; that user is stored and has the email |
| FreelanceDao.GetByEmailFindsTheUser | app/src/main/java/com/example/fianca/data/FreelanceDao.kt:17-18 | with the unique email index, looking up a stored user's email returns that very user |
| FreelanceDao.GetById | app/src/main/java/com/example/fianca/data/FreelanceDao.kt:20-21 | a user exactly when the id is stored, and then the user with that id |
| FreelanceDao.WithSuspended | app/src/main/java/com/example/fianca/data/FreelanceDao.kt:23-24 | only the suspension flag of the row with that id changes; the ids and the unique email index are kept |
| FreelanceDao.WithStatus | app/src/main/java/com/example/fianca/data/FreelanceDao.kt:71-72 | only the status of the request with that id changes; all other fields and rows are kept |
| FreelanceDao.WithSelected | app/src/main/java/com/example/fianca/data/FreelanceDao.kt:74-75 | the request gets the selected freelancer and status "Aceito"; all other fields and rows are kept |
| FreelanceDao.LinkAdded | app/src/main/java/com/example/fianca/data/FreelanceDao.kt:50-51 | the link is stored under its id, no other row names the same pair, rows for other pairs are kept, and the unique pair index holds |
| FreelanceDao.LinkTwiceLeavesOne | app/src/main/java/com/example/fianca/data/FreelanceDao.kt:50-51 | linking the same freelancer and category twice leaves exactly one link for that pair |
| FreelanceDao.LinkRemoved | app/src/main/java/com/example/fianca/data/FreelanceDao.kt:53-54 | exactly the rows for that pair are deleted; the other rows are kept unchanged |
| FreelanceDao.InterestAdded | app/src/main/java/com/example/fianca/data/FreelanceDao.kt:77-78 | the interest is stored under its id, no other row names the same request and freelancer, other rows are kept, and the unique index holds |
| FreelanceDao.GetRequestsByClient | app/src/main/java/com/example/fianca/data/FreelanceDao.kt:68-69 | exactly the client's requests, newest (highest id) first |
| FreelanceDao.GetOpenRequestsForCategories | app/src/main/java/com/example/fianca/data/FreelanceDao.kt:83-84 | exactly the requests with status "Aberto" whose category is among the given ones, highest id first |
| FreelanceDao.GetCategories | app/src/main/java/com/example/fianca/data/FreelanceDao.kt:59-60 | exactly the stored categories that some link ties to the freelancer, each once |
| FreelanceDao.GetInterestedFreelancers | app/src/main/java/com/example/fianca/data/FreelanceDao.kt:80-81 | exactly the stored users with an interest row in the request whose status is "Aceito" |
| FreelanceDao.FreelanceDb.constructor | app/src/main/java/com/example/fianca/data/FreelanceEntities.kt:7-62 | an empty store satisfies every table invariant |
| FreelanceDao.FreelanceDb.InsertUser | app/src/main/java/com/example/fianca/data/FreelanceDao.kt:11-12 | ABORT: a taken id or email changes nothing and reports `Aborted`; otherwise the user is stored under a new id, the result carries that id, and the unique email index holds |
| FreelanceDao.FreelanceDb.SetSuspended | app/src/main/java/com/example/fianca/data/FreelanceDao.kt:23-24 | the users table becomes `WithSuspended` of the old one; the other tables are unchanged |
| FreelanceDao.FreelanceDb.InsertCategory | app/src/main/java/com/example/fianca/data/FreelanceDao.kt:32-33 | REPLACE: the category is stored under its id, or a fresh one for id 0; nothing else changes |
| FreelanceDao.FreelanceDb.AddFreelancerCategory | app/src/main/java/com/example/fianca/data/FreelanceDao.kt:50-51 | the links table becomes `LinkAdded` of the old one under the given or a fresh id |
| FreelanceDao.FreelanceDb.RemoveFreelancerCategory | app/src/main/java/com/example/fianca/data/FreelanceDao.kt:53-54 | the links table becomes `LinkRemoved` of the old one |
| FreelanceDao.FreelanceDb.CreateRequest | app/src/main/java/com/example/fianca/data/FreelanceDao.kt:65-66 | REPLACE: the request is stored under its id, or a fresh one for id 0; nothing else changes |
| FreelanceDao.FreelanceDb.CancelRequest | app/src/main/java/com/example/fianca/data/FreelanceDao.kt:71-72 | the requests table becomes `WithStatus(…, "Cancelado")` of the old one |
| FreelanceDao.FreelanceDb.SelectFreelancer | app/src/main/java/com/example/fianca/data/FreelanceDao.kt:74-75 | the requests table becomes `WithSelected` of the old one |
| FreelanceDao.FreelanceDb.AddInterest | app/src/main/java/com/example/fianca/data/FreelanceDao.kt:77-78 | the interests table becomes `InterestAdded` of the old one under the given or a fresh id |
| FreelanceRepository.RegisterUser | app/src/main/java/com/example/fianca/data/FreelanceRepository.kt:14-19 | a taken email returns the stored user and inserts nothing; a fresh email stores one new unsuspended user with the given fields under a new id and returns it; emails stay unique either way |
| FreelanceRepository.Login | app/src/main/java/com/example/fianca/data/FreelanceRepository.kt:21-24 | a user exactly when some stored user has the email, exactly that password and is not suspended; the result is that user |
| FreelanceRepository.SuspendedCannotLogIn | app/src/main/java/com/example/fianca/data/FreelanceRepository.kt:21-24 | after a user is suspended, login with their email fails whatever the password |
| FreelanceRepository.RegisteredUserCanLogIn | app/src/main/java/com/example/fianca/data/FreelanceRepository.kt:17-23 | a newly stored, unsuspended user with a fresh email logs in with their own credentials, and the email index still holds |
| FreelanceRepository.AddCategory | app/src/main/java/com/example/fianca/data/FreelanceRepository.kt:29-32 | returns the category with the given name and its new, previously unused id, exactly as stored |
| FreelanceRepository.CreateRequest | app/src/main/java/com/example/fianca/data/FreelanceRepository.kt:42-45 | returns the input with only its id replaced by the stored id, and stores exactly that row |
| FreelanceRepository.AdminSetSuspended | app/src/main/java/com/example/fianca/data/FreelanceRepository.kt:62 | the users table becomes `WithSuspended` of the old one |
| FreelanceRepository.LinkFreelancerCategory | app/src/main/java/com/example/fianca/data/FreelanceRepository.kt:37 | afterwards the pair is linked, and every other pair is linked exactly as before |
| FreelanceRepository.UnlinkFreelancerCategory | app/src/main/java/com/example/fianca/data/FreelanceRepository.kt:38 | afterwards the pair is not linked, and every other pair is linked exactly as before |
| FreelanceRepository.AddInterest | app/src/main/java/com/example/fianca/data/FreelanceRepository.kt:49 | the interests table becomes `InterestAdded` of the old one under a fresh positive id: the pair's old row is replaced by an accepted interest and every other row is kept; afterwards the freelancer has an accepted interest in the request and appears among its interested freelancers |
| FreelanceRepository.CategoryIds | app/src/main/java/com/example/fianca/data/FreelanceRepository.kt:52 | the ids of the categories, in the same order |
| FreelanceRepository.CategoryIdsOfFreelancer | app/src/main/java/com/example/fianca/data/FreelanceRepository.kt:52 | an id is among the freelancer's category ids exactly when that category exists and is linked to the freelancer |
| FreelanceRepository.GetOpenRequestsForFreelancer | app/src/main/java/com/example/fianca/data/FreelanceRepository.kt:51-54 | empty when the freelancer has no category; otherwise exactly the "Aberto" requests in the freelancer's existing linked categories, highest id first |
| FreelanceRepository.LinkedCategoryFeedsRequests | app/src/main/java/com/example/fianca/data/FreelanceRepository.kt:51-54 | once a freelancer links an existing category, every open request in it appears in their feed |
| FreelanceRepository.UnlinkedCategoryLeavesFeed | app/src/main/java/com/example/fianca/data/FreelanceRepository.kt:51-54 | once a freelancer unlinks a category, none of its requests appears in their feed |
| FreelanceRepository.PostedRequestReachesFeed | app/src/main/java/com/example/fianca/data/FreelanceRepository.kt:42-54 | a request a client posts, stored under its new id in a category the freelancer serves, appears in that freelancer's feed |

## Left out

- The Compose UI, navigation, theme and drawables are presentation and are not modelled.
- QuizViewModel.QuizViewModel.CheckAnswer: requires that a current question exists. The quiz screen only calls `checkAnswer` for a question found by `getOrNull`, and on an empty list the source would index out of bounds.
- Coroutines, `Dispatchers.IO` and `viewModelScope` are not modelled: every call is one sequential step. The `try/catch/finally` of the view model's `init` is the `LoadOutcome` given to `FinishLoading`, so exceptions are not modelled.
- `Database.kt` (the singleton and its locking), Room migrations, generated DAO code and the `Flow`-returning queries are not part of this model.
- `AuthViewModel`, profiles (`upsertProfile`, `getProfile`, `updateProfile`), chat, ratings and their average (floating point), and `getAll`/`update`/`delete` of users and categories are outside this model.
- The budget is carried as an optional `real` with no arithmetic.
- Autogenerated primary keys are "some positive id not yet in the table", not SQLite's specific next rowid. The `Long` to `Int` narrowing of returned row ids (`toInt()`) is not modelled.
- FreelanceDao.GetCategories: the result is listed in ascending id order instead of `ORDER BY c.name`, because SQLite's string collation is not modelled. Its members and uniqueness are as in the source. The freelancer's feed uses only the set of ids, so the order does not affect it.
- FreelanceDao.GetInterestedFreelancers: returns a set. The query has no `ORDER BY`, so the order of rows is unspecified.
- FreelanceDao.FreelanceDb.AddFreelancerCategory and FreelanceDao.FreelanceDb.AddInterest return the id used, so that callers can state the new table. The DAO methods return nothing or an ignored row id.
- `LIMIT 1` in `getByEmail` picks the row with the smallest id. With the unique email index there is at most one row, so the choice never matters for stored data.
- The composition "first wrong answer, then second wrong answer" is stated step by step, by `QuizViewModel.FirstWrongAnswer` and `QuizViewModel.SecondWrongAnswer`, not as one lemma about `Play`.
- QuizRepository.LoadAfterSeedIsNonEmpty: states only that the loaded list is non-empty. The positional fact (seed question q at position q − 1, so that answering 102, 202, 303, 403, 502 completes the seeded quiz) is not proved end to end. `QuizViewModel.CorrectRunCompletesOnce` together with `QuizRepository.SeededOptionRow` covers its ingredients.
- Seed and fallback correct answers differ in the code:
  - the seed (`Repository.kt`) marks 102, 202, 303, 403, 502;
  - the fallback (`MainActivity.kt`) marks 102, 202, 302, 403, 502.

  The model follows the code.
