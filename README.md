# managementLD — a Dafny model of the client core

managementLD is a web app for a couple. Two partners pair their accounts
through an invite code. They then share a chat, daily habits, money records,
saving goals, a mood journal and a travel bucket list, all stored in a remote
database with realtime change notifications. This project models the client
side of that app:

- **The per-collection replicas.** Each data hook keeps a list of records for
  the bound couple and a `loading` flag. Each one is a `class` whose methods
  take the remote service's answers as parameters (`Fetch` is rows or an
  error, `Mutation` is an ack or an error, `Change` is a realtime event):
  - `Messages.MessageStore` (chat);
  - `Habits.HabitStore`;
  - `Transactions.TransactionStore`;
  - `Goals.GoalStore`;
  - `Journal.JournalStore`;
  - `Travel.MilestoneStore`.

  Two update styles occur:
  - The chat appends optimistically under a temporary id. It removes that
    id again when the insert fails, and skips a realtime insert whose id is
    already present.
  - The other hooks reload the whole list after every successful mutation
    and every change on their table. Their mutation methods return a
    `reload` flag; the caller then runs the fetch method with the new
    answer.
- **The session and pairing state** (`Auth.AuthState`). The database tables
  the queries read are a `Backend` value.
  - A couple is created `pending` with the creator as partner A.
  - A join with the upper-cased invite code makes the joiner partner B and
    the couple `active`.
  - The partner is the other member.
  - Losing the session, or signing out, clears the identity state.
- **The statistics** (`Statistics`): the daily buckets, their loop, and the
  overall figures.
- **The figures each page derives.** These include category spending and
  percentages, habit and goal progress, mood averages, emoji and badges, and
  the visited/wishlist split. The pages' form and delete handlers are
  classes over the page state.
- **Three small components:**
  - the route guard;
  - the avatar initials;
  - the week strip.

Amounts are whole rupiah (`int`). Dates are day numbers, counting days since
1970-01-01, a Thursday. Timestamps are milliseconds. `Math.round(a / b * k)`
becomes the integer round-half-up `Common.RoundDiv(k * a, b)`; the one real
average, on the home page, uses `Common.Round`. JavaScript truthiness is
spelled out:
- `Common.Given`: strings, where `""` is falsy;
- `Common.NonZero`: numbers, where `0` is falsy.

The model keeps these behaviours of the code:
- No update or delete restores a snapshot on failure.
- A successful chat send does not replace its temporary message.
- No fetch result is discarded when the couple changes while it is in
  flight.
- Only the chat's fetch empties its list when no couple is bound.
- The statistics count a goal as in progress when its target is truthy
  (non-null *and* non-zero) and its amount is positive, not merely non-null.
- `addEntry` stores `tags || null`, so an empty tag array is kept (arrays are
  truthy) and only absent tags become null.

A consequence of the code that the model states as a lemma rather than
hiding: the temporary chat id (`Date.now()` in decimal) is all digits, so it
differs from any server id holding a `-`, as a UUID does
(`Messages.ServerIdIsNotTempId`). The type declarations give the id only as a
string, so this rests on that assumption about the server's ids. Under it, a
successful send followed by its own realtime echo leaves two messages with
the same content (`Messages.EchoAfterSendDuplicates`).

## Model

A definition without a row of its own (a predicate or a small function such
as `GoalsPage.Progress` or `Transactions.Balance`) is described by the rows
of the lemmas about it.

| member | source | states |
|---|---|---|
| Common.StringOrNull | src/hooks/useTransactions.tsx:55 | `s \|\| null`: null exactly when the string is absent or empty, otherwise the string itself |
| Common.NumberOrNull | src/hooks/useGoals.tsx:56 | `n \|\| null`: null exactly when the number is absent or zero, otherwise the number itself |
| Common.RoundDiv | src/hooks/useStatistics.tsx:94 | `Math.round(n / d)` for d > 0: the integer r with r - 1/2 <= n/d < r + 1/2 |
| Common.RoundDivUnique | src/hooks/useStatistics.tsx:94 | that inequality determines the result, so any r meeting it is RoundDiv(n, d) |
| Common.RoundDivBounds | src/pages/Habits.tsx:83 | a ratio between lo and hi rounds to a value between lo and hi |
| Common.Round | src/pages/Home.tsx:31-37 | `Math.round(x)` on an exact real: the integer within half a unit of x, halves rounding up |
| Common.Percent | src/pages/Habits.tsx:83 | 0 when the whole is not positive, otherwise the rounded percentage of the part |
| Common.PercentBounds | src/pages/Habits.tsx:83 | for 0 <= part <= whole the percentage lies in 0..100; it is 100 for the whole and 0 for nothing |
| Common.Filter | src/pages/Money.tsx:115 | `Array.prototype.filter`: no longer than the input; it keeps exactly the elements that satisfy the predicate |
| Common.FilterAppend | src/pages/Money.tsx:115 | filtering a concatenation filters each part |
| Common.FilterPartition | src/pages/TravelMilestones.tsx:25-26 | filters by a predicate and by its negation together hold every element as often as the input does, and their lengths add up |
| Common.Take | src/pages/Money.tsx:201 | `slice(0, n)`: at most n elements, a prefix of the input, and the whole input when it is short enough |
| Common.FilterSingle | src/hooks/useAuth.tsx:69-74 | when exactly one element satisfies the predicate, the filter is that element |
| Common.FilterNone | src/pages/Home.tsx:30-31 | when no element satisfies the predicate, the filter is empty |
| Common.MaybeSingle | src/hooks/useAuth.tsx:64 | `.maybeSingle()`: a row exactly when the query matches exactly one row, and then that row |
| Common.MaybeSingleFinds | src/hooks/useAuth.tsx:64 | a `.maybeSingle()` over a filter returns the element whenever it is the only one that satisfies the filter |
| Common.FilterFilter | src/hooks/useStatistics.tsx:98 | filtering twice is filtering once by both conditions |
| Text.Split | src/pages/Journal.tsx:62 | `split` on a one-character separator always gives at least one piece |
| Text.SplitPiecesFree | src/pages/Journal.tsx:62 | no piece of a split contains the separator |
| Text.JoinSplit | src/pages/Journal.tsx:62 | joining the pieces back with the separator gives the original string |
| Text.SplitJoin | src/components/couple/Avatar.tsx:19-20 | splitting a join of separator-free pieces gives back the pieces |
| Text.TrimStart | src/pages/TravelMilestones.tsx:49 | drops a leading run of white space and leaves a result that does not start with white space |
| Text.TrimEnd | src/pages/TravelMilestones.tsx:49 | drops a trailing run of white space and leaves a result that does not end with white space |
| Text.TrimIsSlice | src/pages/TravelMilestones.tsx:49 | `trim()` keeps one contiguous slice of the string |
| Text.TrimDropsOnlySpace | src/pages/TravelMilestones.tsx:49 | what `trim()` drops at either end is white space |
| Text.TrimLeavesNoOuterSpace | src/pages/TravelMilestones.tsx:49 | the trimmed string neither starts nor ends with white space |
| Text.TrimEmptyIff | src/pages/TravelMilestones.tsx:49 | a string trims to "" exactly when it is all white space |
| Text.TrimIdempotent | src/pages/TravelMilestones.tsx:49 | trimming twice is trimming once |
| Text.Upper | src/hooks/useAuth.tsx:222 | `toUpperCase()` keeps the length and maps each character on its own |
| Text.Decimal | src/hooks/useMessages.tsx:53 | `toString()` of a natural number: at least one decimal digit, with no leading zero unless the number is 0 |
| Text.DecimalValue | src/hooks/useMessages.tsx:53 | reading the digits back gives the number, so different clock readings give different temporary ids |
| Realtime.TableChannelReceives | src/hooks/useGoals.tsx:109-124 | an `event: '*'` channel receives a change exactly when a couple is bound and the change is on its table (and, when the channel is couple-filtered, on that couple's rows) |
| Messages.WithoutId | src/hooks/useMessages.tsx:81 | the rollback filter: no entry keeps the temporary id, every kept entry was there, and every entry with another id is kept |
| Messages.ChannelScoped | src/hooks/useMessages.tsx:103-109 | only INSERTs of the bound couple's messages reach the callback, and none while no couple is bound |
| Messages.ChannelComplete | src/hooks/useMessages.tsx:103-109 | every INSERT of the bound couple's messages reaches the callback |
| Messages.DeliveredIdempotent | src/hooks/useMessages.tsx:118-124 | delivering the same realtime insert twice equals delivering it once |
| Messages.DeliveredKeepsUnique | src/hooks/useMessages.tsx:118-124 | delivery keeps ids unique, and afterwards the delivered id is present |
| Messages.DeliveredExtends | src/hooks/useMessages.tsx:118-124 | delivery leaves the list unchanged exactly when the id is present, and otherwise appends the message |
| Messages.WithoutIdAppend | src/hooks/useMessages.tsx:81 | the rollback filter works piecewise, so the kept entries keep their order |
| Messages.WithoutIdAbsent | src/hooks/useMessages.tsx:81 | the rollback leaves a list without the temporary id untouched |
| Messages.RollbackUndoesSend | src/hooks/useMessages.tsx:64-81 | a failed send right after its optimistic append restores the list exactly |
| Messages.RollbackAfterDelivery | src/hooks/useMessages.tsx:81 | a realtime insert that lands while the send is in flight survives the rollback |
| Messages.ServerIdIsNotTempId | src/hooks/useMessages.tsx:53 | a server id holding a `-` is never the decimal temporary id |
| Messages.EchoAfterSendDuplicates | src/hooks/useMessages.tsx:53-124 | a successful send followed by its own realtime echo (a different id, the same content) leaves both, two messages of that content |
| Messages.MessageStore.constructor | src/hooks/useMessages.tsx:17-18 | the list starts empty and loading |
| Messages.MessageStore.SetScope | src/hooks/useMessages.tsx:95-97 | the list is kept; a reload is due exactly when the couple id changed |
| Messages.MessageStore.FetchMessages | src/hooks/useMessages.tsx:23-44 | without a couple the list is emptied; a successful query replaces it wholesale; an error leaves it; loading ends in every case |
| Messages.MessageStore.SendMessage | src/hooks/useMessages.tsx:48-75 | without a user or a couple nothing changes; otherwise exactly one message with the temporary id, couple, sender, content and type (`'text'` by default) is appended, and that insert is issued |
| Messages.MessageStore.FinishSend | src/hooks/useMessages.tsx:77-90 | on failure only the entries with the temporary id are removed and false is returned; on success the list is left as it is and true is returned |
| Messages.MessageStore.OnChange | src/hooks/useMessages.tsx:102-128 | a change the channel receives is merged by id; any other change leaves the list |
| Habits.NewHabitRow | src/hooks/useHabits.tsx:73-79 | the inserted row keeps a truthy icon, color and daily target, and otherwise takes the placeholder icon, `'turquoise'` and 1 (also for 0) |
| Habits.FindMine | src/hooks/useHabits.tsx:113-115 | `find`: the first completion of this habit by this user today, or none when there is none |
| Habits.ToggleDeletesIffCompleted | src/hooks/useHabits.tsx:144-151 | the toggle finds a completion to delete exactly when `isCompletedToday` holds for the signed-in user |
| Habits.HabitStore.constructor | src/hooks/useHabits.tsx:25-27 | both lists start empty and loading |
| Habits.HabitStore.SetScope | src/hooks/useHabits.tsx:153-156 | the lists are kept; a reload is due exactly when the couple id changed |
| Habits.HabitStore.FetchHabits | src/hooks/useHabits.tsx:29-45 | nothing changes without a couple or on an error; a successful query replaces the habits and ends loading |
| Habits.HabitStore.FetchCompletions | src/hooks/useHabits.tsx:47-63 | the same for the completions, leaving `loading` alone |
| Habits.HabitStore.AddHabit | src/hooks/useHabits.tsx:65-90 | without a couple no insert and no answer; otherwise the defaulted row is inserted, and the answer and the reload are the insert's success |
| Habits.HabitStore.DeleteHabit | src/hooks/useHabits.tsx:92-107 | the delete targets the `habits` row with that id; true and a reload on success, false and no reload on an error |
| Habits.HabitStore.ToggleCompletion | src/hooks/useHabits.tsx:109-142 | without a user nothing happens; otherwise it deletes the first matching completion when the habit is completed today, and inserts one otherwise, never both; it answers and reloads only on success |
| Habits.HabitStore.OnChange | src/hooks/useHabits.tsx:158-178 | while a couple is bound, any change on `habits` reloads the habits and any change on `habit_completions` reloads the completions |
| Transactions.SumAmountsAppend | src/hooks/useTransactions.tsx:110 | the sum of a concatenation is the sum of the sums |
| Transactions.TotalsAppend | src/hooks/useTransactions.tsx:108-116 | income, expense and balance of a concatenation add up part by part |
| Transactions.TotalsOne | src/hooks/useTransactions.tsx:108-114 | a single transaction counts towards income or expense according to its type only |
| Transactions.AppendExpense | src/hooks/useTransactions.tsx:108-116 | appending an expense raises the expense total by its amount, lowers the balance by it and leaves income alone |
| Transactions.AppendIncome | src/hooks/useTransactions.tsx:108-116 | appending an income raises the income total and the balance by its amount and leaves expense alone |
| Transactions.NewTransactionRow | src/hooks/useTransactions.tsx:49-56 | both ids are stamped, the amount, type and category are kept, and an empty description is stored as null |
| Transactions.TransactionStore.constructor | src/hooks/useTransactions.tsx:20-21 | the list starts empty and loading |
| Transactions.TransactionStore.SetScope | src/hooks/useTransactions.tsx:86-88 | the list is kept; a reload is due exactly when the couple id changed |
| Transactions.TransactionStore.FetchTransactions | src/hooks/useTransactions.tsx:23-39 | nothing changes without a couple or on an error; a successful query replaces the list and ends loading |
| Transactions.TransactionStore.AddTransaction | src/hooks/useTransactions.tsx:41-67 | without a user or a couple no insert and no answer; otherwise the row is inserted, and the answer and the reload are the insert's success |
| Transactions.TransactionStore.DeleteTransaction | src/hooks/useTransactions.tsx:69-84 | the delete targets the `transactions` row with that id; true and a reload on success, false and no reload on an error |
| Transactions.TransactionStore.OnChange | src/hooks/useTransactions.tsx:91-106 | while a couple is bound, any change on `transactions` reloads the list |
| Goals.NewGoalRow | src/hooks/useGoals.tsx:51-58 | a falsy description, target amount (0 included) or target date becomes null; a missing icon becomes the target emoji |
| Goals.GoalStore.constructor | src/hooks/useGoals.tsx:21-22 | the list starts empty and loading |
| Goals.GoalStore.SetScope | src/hooks/useGoals.tsx:105-107 | the list is kept; a reload is due exactly when the couple id changed |
| Goals.GoalStore.FetchGoals | src/hooks/useGoals.tsx:24-40 | nothing changes without a couple or on an error; a successful query replaces the list and ends loading |
| Goals.GoalStore.AddGoal | src/hooks/useGoals.tsx:42-69 | without a couple no insert and no answer; otherwise the defaulted row is inserted, and the answer and the reload are the insert's success |
| Goals.GoalStore.UpdateGoal | src/hooks/useGoals.tsx:71-86 | the update targets the `goals` row with that id; true and a reload on success, false and no reload on an error |
| Goals.GoalStore.DeleteGoal | src/hooks/useGoals.tsx:88-103 | the delete targets the `goals` row with that id; true and a reload on success, false and no reload on an error |
| Goals.GoalStore.OnChange | src/hooks/useGoals.tsx:109-124 | while a couple is bound, any change on `goals` reloads the list |
| Journal.NewEntryRow | src/hooks/useJournal.tsx:49-56 | both ids are stamped; a falsy score (0 included) or gratitude becomes null; tags are kept as given |
| Journal.JournalStore.constructor | src/hooks/useJournal.tsx:20-21 | the list starts empty and loading |
| Journal.JournalStore.SetScope | src/hooks/useJournal.tsx:103-105 | the list is kept; a reload is due exactly when the couple id changed |
| Journal.JournalStore.FetchEntries | src/hooks/useJournal.tsx:23-39 | nothing changes without a couple or on an error; a successful query replaces the list and ends loading |
| Journal.JournalStore.AddEntry | src/hooks/useJournal.tsx:41-67 | without a user or a couple no insert and no answer; otherwise the row is inserted, and the answer and the reload are the insert's success |
| Journal.JournalStore.UpdateEntry | src/hooks/useJournal.tsx:69-84 | the update targets the `journal_entries` row with that id; true and a reload on success, false and no reload on an error |
| Journal.JournalStore.DeleteEntry | src/hooks/useJournal.tsx:86-101 | the delete targets the `journal_entries` row with that id; true and a reload on success, false and no reload on an error |
| Journal.JournalStore.OnChange | src/hooks/useJournal.tsx:107-122 | while a couple is bound, any change on `journal_entries` reloads the list |
| Travel.LastPieceIsSuffix | src/hooks/useTravelMilestones.tsx:97 | the last piece of a split is a separator-free suffix, preceded by the separator unless it is the whole string, which it is exactly when there is one piece |
| Travel.FileExtensionAfterLastDot | src/hooks/useTravelMilestones.tsx:97 | the extension is the text after the last dot, or the whole name when it has none |
| Travel.StoragePathShape | src/hooks/useTravelMilestones.tsx:97-99 | the storage path starts with `<coupleId>/` and ends with a dot and the extension |
| Travel.MilestoneStore.constructor | src/hooks/useTravelMilestones.tsx:21-22 | the list starts empty and loading |
| Travel.MilestoneStore.SetScope | src/hooks/useTravelMilestones.tsx:119-121 | the list is kept; a reload is due exactly when the couple id changed |
| Travel.MilestoneStore.FetchMilestones | src/hooks/useTravelMilestones.tsx:26-44 | nothing changes without a couple; otherwise a successful query replaces the list, an error leaves it, and loading ends in both cases |
| Travel.MilestoneStore.AddMilestone | src/hooks/useTravelMilestones.tsx:46-63 | without a couple nothing is inserted; otherwise the row carries the bound couple's id |
| Travel.MilestoneStore.UpdateMilestone | src/hooks/useTravelMilestones.tsx:65-78 | the update is issued and no local state changes |
| Travel.MilestoneStore.DeleteMilestone | src/hooks/useTravelMilestones.tsx:80-93 | the delete is issued and no local state changes |
| Travel.MilestoneStore.UploadPhoto | src/hooks/useTravelMilestones.tsx:95-117 | the upload goes to the computed path; a failure gives null and a success the public address of that path |
| Travel.MilestoneStore.OnChange | src/hooks/useTravelMilestones.tsx:123-145 | while a couple is bound, exactly the changes to that couple's milestones reload the list |
| Auth.ProfileById | src/hooks/useAuth.tsx:60-64 | a profile found by id is a stored profile with that id, and the single stored profile with that id is found |
| Auth.ActiveCoupleOf | src/hooks/useAuth.tsx:69-74 | only an `active` stored couple that has the user as a partner is loaded, and the single such couple is loaded |
| Auth.PendingByCode | src/hooks/useAuth.tsx:219-224 | only a `pending` stored couple whose code is the upper-cased input is found, and the single such couple is found |
| Auth.PartnerIsOtherMember | src/hooks/useAuth.tsx:80-82 | for a member, the partner id names a member, and it is absent exactly when the user is partner A and nobody has joined |
| Auth.PartnerProfileOf | src/hooks/useAuth.tsx:79-97 | no partner profile without a couple or without a truthy partner id; otherwise the `profiles` lookup by that partner id, whose answer is a stored profile of that partner |
| Auth.MergeProfile | src/hooks/useAuth.tsx:187 | a missing profile stays missing, a present one stays present |
| Auth.MergeProfileFields | src/hooks/useAuth.tsx:187 | every field the patch names is taken from it; every other field is unchanged |
| Auth.MergeProfileIdempotent | src/hooks/useAuth.tsx:187 | applying a patch twice is applying it once, and the empty patch changes nothing |
| Auth.Activated | src/hooks/useAuth.tsx:235-241 | the join's update sets partner B and `active` on the couple with that id only |
| Auth.JoinActivatesCouple | src/hooks/useAuth.tsx:215-245 | a valid join by someone other than the creator, who has no active couple, leaves that couple as their one active couple, with its creator as their partner |
| Auth.AuthState.constructor | src/hooks/useAuth.tsx:49-54 | all identity state starts null and loading |
| Auth.AuthState.FetchUserData | src/hooks/useAuth.tsx:57-102 | the profile, the active couple and the partner's profile are what the tables answer; the session and `loading` are untouched |
| Auth.AuthState.InitialFetch | src/hooks/useAuth.tsx:108-119 | the stored session is adopted, the user's data is loaded when there is a user, and loading ends |
| Auth.AuthState.OnAuthStateChange | src/hooks/useAuth.tsx:124-138 | a session with a user reloads that user's data; no session clears the profile, couple and partner profile |
| Auth.AuthState.RefreshCoupleData | src/hooks/useAuth.tsx:146-151 | when signed in, the user's data is reloaded and loading ends; signed out, nothing changes |
| Auth.AuthState.SignOut | src/hooks/useAuth.tsx:177-184 | the user, session, profile, couple and partner profile are cleared |
| Auth.AuthState.UpdateProfile | src/hooks/useAuth.tsx:186-188 | the patch is merged into the local profile, and nothing else changes |
| Auth.AuthState.CreateCouple | src/hooks/useAuth.tsx:190-213 | no user: an error and no insert; a failed code generation: its error and no insert; otherwise a `pending` couple with the user as partner A is inserted, and it becomes the current couple (its code returned) only on success |
| Auth.AuthState.JoinCouple | src/hooks/useAuth.tsx:215-248 | no user, no pending couple with the upper-cased code, or the user's own couple: an error and no update; otherwise partner B and `active` are set, and on success the user's data is reloaded from the updated tables |
| Statistics.MoodSumBounds | src/hooks/useStatistics.tsx:94 | with scores in lo..5, the score sum lies between lo and 5 times the count |
| Statistics.MoodBounds | src/hooks/useStatistics.tsx:92-95 | the mood figure lies in 0..100 for scores up to 5, and at least 20 for a non-empty day when every score is at least 1 |
| Statistics.GoalsProgress | src/hooks/useStatistics.tsx:101-106 | the share of goals in progress lies in 0..100, and it is 0 without goals |
| Statistics.DayStats | src/hooks/useStatistics.tsx:91-117 | a bucket carries its day; its habit and transaction counts are the numbers of fetched completions and transactions dated that day; it carries the common goal figure; its mood is 0 on a day without entries |
| Statistics.DayMoodBounds | src/hooks/useStatistics.tsx:92-95 | with scores in 0..5 a bucket's mood lies in 0..100, and with scores in 1..5 a day with an entry has a mood of at least 20 |
| Statistics.DayHabitsOfCouple | src/hooks/useStatistics.tsx:67-98 | a day's habit count is the number of fetched completions of that day whose habit belongs to the couple |
| Statistics.DailyShape | src/hooks/useStatistics.tsx:86-118 | `days` buckets (none for days <= 0), dates rising one day at a time and ending today, each with the same goal figure |
| Statistics.BuildDailyStats | src/hooks/useStatistics.tsx:85-118 | the loop builds exactly the bucket sequence `Daily` |
| Statistics.DaysTogether | src/hooks/useStatistics.tsx:129-137 | at least 1; above 1 exactly when two full days have passed, and then the number of whole days passed |
| Statistics.Overall | src/hooks/useStatistics.tsx:123-138 | the totals are the fetched counts; the completed goals are no more than the goals and none exactly when no goal is completed; days together is at least 1 |
| Statistics.StatisticsState.constructor | src/hooks/useStatistics.tsx:25-27 | no buckets, no overall figures, loading |
| Statistics.StatisticsState.FetchStatistics | src/hooks/useStatistics.tsx:38-145 | nothing happens without a couple; otherwise the buckets are `Daily` and the overall figures `Overall` of the fetched rows (none for a failed query), counting only the couple's habits, and loading ends |
| Statistics.StatisticsState.Refresh | src/hooks/useStatistics.tsx:29-36 | without a couple loading simply ends and nothing else changes; otherwise loading ends with the buckets `Daily` and the overall figures `Overall` of the fetched rows, as in FetchStatistics |
| MoneyPage.CategoriesExact | src/pages/Money.tsx:114-119 | the accumulator's keys list every expense category exactly once and nothing else |
| MoneyPage.SpentOnSnoc | src/pages/Money.tsx:117 | one more expense adds its amount to its own category and to no other |
| MoneyPage.SpentOnAbsent | src/pages/Money.tsx:117 | a category that does not occur has spent nothing |
| MoneyPage.TotalOverSnoc | src/pages/Money.tsx:121 | one more expense adds its amount to the total over distinct categories exactly when its category is among them |
| MoneyPage.TotalOverCategories | src/pages/Money.tsx:121 | adding up the per-category spending gives the sum of all the expense amounts |
| MoneyPage.CategorySpending | src/pages/Money.tsx:114-119 | the fold maps each expense category, in first-occurrence order, to the sum of its expense amounts; income is left out |
| MoneyPage.Fold | src/pages/Money.tsx:114-119 | the `reduce` over the expenses ends with every category of them, in first-occurrence order, mapped to what it spent |
| MoneyPage.AccumulatesSnoc | src/pages/Money.tsx:116-118 | one step of the fold keeps the accumulator exact |
| MoneyPage.CategoryTotalIsExpense | src/pages/Money.tsx:121 | `totalCategorySpending` equals the hook's `totalExpense` |
| MoneyPage.SumValuesIsTotal | src/pages/Money.tsx:121 | adding up the accumulator's values is adding up the categories' spending |
| MoneyPage.SumAmountsNonNegative | src/pages/Money.tsx:121 | amounts of at least 0 add up to at least 0 |
| MoneyPage.SpentWithinTotal | src/pages/Money.tsx:173 | with amounts of at least 0, a category spends between 0 and the total |
| MoneyPage.CategoryPercentBounds | src/pages/Money.tsx:173 | with amounts of at least 0, every category's percentage lies in 0..100, and 100 for a category that alone makes the total |
| MoneyPage.CategoryTiles | src/pages/Money.tsx:171-173 | the first four categories, each with its percentage of the total |
| MoneyPage.RecentTransactions | src/pages/Money.tsx:201 | the first ten transactions |
| MoneyPage.FormRow | src/pages/Money.tsx:90-95 | the inserted row has the parsed amount, the form's type and category, and no description when its field is empty |
| MoneyPage.MoneyPageState.constructor | src/pages/Money.tsx:68-76 | closed dialog, no pending delete, not saving, the default form |
| MoneyPage.MoneyPageState.HandleSubmit | src/pages/Money.tsx:87-101 | an empty amount submits nothing and changes nothing; otherwise the form's transaction is submitted, saving ends, and the dialog closes and the form resets only on success |
| MoneyPage.MoneyPageState.HandleDelete | src/pages/Money.tsx:103-107 | nothing without a pending id; otherwise that transaction is deleted and the id cleared, whatever the outcome |
| HomePage.RemainingHabits | src/pages/Home.tsx:152 | the habits left plus the habits completed is all habits, and none left means none exist or progress is 100 |
| HomePage.SumSharesBounds | src/pages/Home.tsx:32-37 | with amounts of at least 0 the summed progress is at least 0 |
| HomePage.SumSharesAtMost | src/pages/Home.tsx:32-37 | with no amount above its target, each goal adds at most 100 |
| HomePage.TotalGoalProgressBounds | src/pages/Home.tsx:30-38 | with no amount below 0 or above its target, the mean progress of the active goals lies in 0..100, and it is 0 without active goals |
| HomePage.BalanceBar | src/pages/Home.tsx:136 | the bar is 100 exactly for a positive balance and 50 exactly otherwise |
| HomePage.HealthyAndBar | src/pages/Home.tsx:136-138 | `Healthy`: the healthy message shows exactly for a balance of at least 0; that is the full bar or a zero balance, which is healthy yet shows the half bar |
| HomePage.IsConnectedAfterFetch | src/pages/Home.tsx:24 | `IsConnected`: an active couple and a loaded partner profile; for the data `fetchUserData` loads this holds exactly when both were found, and the partner is then the couple's other member |
| HabitsPage.CompletedCount | src/pages/Habits.tsx:82 | no more than the habits, and 0 exactly when none is completed today |
| HabitsPage.TotalProgressBounds | src/pages/Habits.tsx:83 | progress lies in 0..100; it is 100 when all of at least one habit are done and 0 when none is |
| HabitsPage.IconFor | src/pages/Habits.tsx:149 | the mapped icon for a key in the map, the moon otherwise |
| HabitsPage.PlaceholderShowsMoon | src/pages/Habits.tsx:149 | a habit stored with the hook's placeholder icon is drawn with the moon |
| HabitsPage.FormRow | src/pages/Habits.tsx:64-68 | the inserted row has the form's title, icon and color (defaults for empty ones) and a daily target of 1 |
| HabitsPage.HabitsPageState.constructor | src/pages/Habits.tsx:52-59 | closed dialog, no pending delete, not saving, the default form |
| HabitsPage.HabitsPageState.HandleSubmit | src/pages/Habits.tsx:61-74 | an empty title submits nothing and changes nothing; otherwise the form's habit is submitted, saving ends, and the dialog closes and the form resets only on success |
| HabitsPage.HabitsPageState.HandleDelete | src/pages/Habits.tsx:76-80 | nothing without a pending id; otherwise that habit is deleted and the id cleared |
| GoalsPage.RoundQuot | src/pages/Goals.tsx:146 | `Math.round(n / d)` for any non-zero divisor, negative ones included |
| GoalsPage.ProgressCases | src/pages/Goals.tsx:145-147 | 0 without a truthy target; with one, 0 for nothing saved, 100 for the target reached and 200 for twice the target (nothing caps it) |
| GoalsPage.ProgressBounds | src/pages/Goals.tsx:145-147 | between nothing and a positive target, progress lies in 0..100 |
| GoalsPage.EarnedBadges | src/pages/Goals.tsx:99-104 | first badge exactly when there are goals, second exactly when one is completed, third exactly when one has money saved, fourth never |
| GoalsPage.LaterBadgesNeedFirst | src/pages/Goals.tsx:99-104 | the second or third badge implies the first |
| GoalsPage.FormRow | src/pages/Goals.tsx:71-76 | the inserted row has no description for an empty field, no target for an empty amount field or one parsing to 0, never a target date, and the default icon in place of an empty one |
| GoalsPage.GoalsPageState.constructor | src/pages/Goals.tsx:58-66 | closed dialog, no pending delete, not saving, the default form |
| GoalsPage.GoalsPageState.HandleSubmit | src/pages/Goals.tsx:68-82 | an empty title submits nothing and changes nothing; otherwise the form's goal is submitted (no target for an empty field), saving ends, and the dialog closes and the form resets only on success |
| GoalsPage.GoalsPageState.HandleDelete | src/pages/Goals.tsx:84-88 | nothing without a pending id; otherwise that goal is deleted and the id cleared |
| JournalPage.ScoreSumBounds | src/pages/Journal.tsx:85 | with scores of at most 5 the sum lies between the count and 5 times the count (a missing score counting 3) |
| JournalPage.ScoreSumUnscored | src/pages/Journal.tsx:85 | a journal without scores sums to 3 per entry |
| JournalPage.AvgMoodBounds | src/pages/Journal.tsx:84-86 | 0 without entries; otherwise in 20..100, and 60 when no entry has a score |
| JournalPage.EmotionsOf | src/pages/Journal.tsx:88-92 | Bahagia is the average; Tenang and Cemas are never below 0 and are avg - 10 and 100 - avg where those are not negative |
| JournalPage.EmotionsAddUp | src/pages/Journal.tsx:88-92 | for an average in 10..100, Tenang and Cemas add up to 90 |
| JournalPage.FindOption | src/pages/Journal.tsx:79 | `find`: the first option with that score, or none when no option has it |
| JournalPage.MoodEmojiCases | src/pages/Journal.tsx:77-81 | no or zero score, and scores no option has, give the happy face; 1..4 give their own emoji; 5 gives the happy face and never the loving one listed after it |
| JournalPage.ParseTags | src/pages/Journal.tsx:62 | no tags exactly for an empty field; otherwise one tag per comma-separated piece, each trimmed |
| JournalPage.TagsClean | src/pages/Journal.tsx:62 | no tag contains a comma or starts or ends with white space |
| JournalPage.FormRow | src/pages/Journal.tsx:58-63 | the inserted row has no gratitude and no tags exactly for empty fields, and no score exactly when the chosen one is 0 |
| JournalPage.JournalPageState.constructor | src/pages/Journal.tsx:45-53 | closed dialog, no pending delete, not saving, the default form (score 5) |
| JournalPage.JournalPageState.HandleSubmit | src/pages/Journal.tsx:55-69 | empty content submits nothing and changes nothing; otherwise the form's entry is submitted, saving ends, and the dialog closes and the form resets only on success |
| JournalPage.JournalPageState.HandleDelete | src/pages/Journal.tsx:71-75 | nothing without a pending id; otherwise that entry is deleted and the id cleared |
| TravelPage.ListsPartition | src/pages/TravelMilestones.tsx:25-26 | the visited and wishlist lists together hold every milestone exactly as often as the list does, their counts add up, and each holds only its own kind |
| TravelPage.TogglePatch | src/pages/TravelMilestones.tsx:28-33 | the flag is flipped, and the visit time is set, to the clock, exactly when the place becomes visited |
| TravelPage.ToggleTwice | src/pages/TravelMilestones.tsx:28-33 | one toggle moves a place to the other list; a second moves it back, with a visit time exactly when it is visited, changing nothing else |
| TravelPage.SavedCaption | src/pages/TravelMilestones.tsx:49 | null exactly for an all-white-space caption, otherwise the trimmed caption |
| TravelPage.CaptionRoundTrip | src/pages/TravelMilestones.tsx:41-53 | saving a caption, reopening the place and saving again unedited stores the same caption |
| TravelPage.HandleDelete | src/pages/TravelMilestones.tsx:35-39 | the delete is issued exactly when the user confirms |
| TravelPage.HandleToggleVisited | src/pages/TravelMilestones.tsx:28-33 | the toggle patch is sent for that place |
| TravelPage.TravelPageState.constructor | src/pages/TravelMilestones.tsx:22-23 | nothing selected, an empty caption field |
| TravelPage.TravelPageState.HandleOpenDetail | src/pages/TravelMilestones.tsx:41-44 | the place is selected and the field seeded with its caption, or "" |
| TravelPage.TravelPageState.HandleSaveCaption | src/pages/TravelMilestones.tsx:46-53 | with a place selected the saved caption is sent for it and the dialog closes; otherwise nothing happens |
| ProtectedRoute.Guard | src/components/ProtectedRoute.tsx:11-33 | the spinner exactly while loading; otherwise `/auth` exactly without a user, `/couple-setup` exactly when a couple is required and missing, and the page in every other case |
| ProtectedRoute.DefaultNeedsNoCouple | src/components/ProtectedRoute.tsx:11 | leaving `requireCouple` out is passing false, so a signed-in user without a couple gets the page |
| ProtectedRoute.RequireCoupleOnlyRedirects | src/components/ProtectedRoute.tsx:29-33 | requiring a couple can only turn the page into the couple-setup redirect |
| Avatar.Heads | src/components/couple/Avatar.tsx:21-22 | at most one character per word |
| Avatar.Initials | src/components/couple/Avatar.tsx:19-24 | at most two characters, and "" for an empty name |
| Avatar.HeadsAppend | src/components/couple/Avatar.tsx:21-22 | the heads of a concatenation are the concatenated heads |
| Avatar.EmptyWordAddsNothing | src/components/couple/Avatar.tsx:21-22 | an empty word, which a doubled space makes, contributes nothing |
| Avatar.HeadsOfWords | src/components/couple/Avatar.tsx:21-22 | for non-empty words, the heads are their first characters, one per word, in order |
| Avatar.InitialsOfWords | src/components/couple/Avatar.tsx:19-24 | a name of space-joined words has as initials the first two upper-cased heads of its words |
| Avatar.FaceOf | src/components/couple/Avatar.tsx:36-40 | the picture exactly when `src` is truthy, the initials otherwise |
| WeekCalendar.Weekday | src/components/couple/WeekCalendar.tsx:11 | `getDay()` of a day number is in 0..6 |
| WeekCalendar.MondayOffset | src/components/couple/WeekCalendar.tsx:12 | in -6..0; -6 on Sunday and 0 on Monday |
| WeekCalendar.TodayIndex | src/components/couple/WeekCalendar.tsx:24 | in 0..6; 6 on Sunday; always the negated Monday offset |
| WeekCalendar.WeekDates | src/components/couple/WeekCalendar.tsx:14-18 | seven entries, entry i being today plus the offset plus i |
| WeekCalendar.WeekRunsMondayToSunday | src/components/couple/WeekCalendar.tsx:12-24 | the entry at the today index is today, and the entries fall on Monday to Sunday in order |
| WeekCalendar.WeekCalendarState.constructor | src/components/couple/WeekCalendar.tsx:7 | Thursday (index 3) is selected at first |
| WeekCalendar.WeekCalendarState.Select | src/components/couple/WeekCalendar.tsx:29 | a click selects that day |

## Left out

- The remote database, its realtime channels, storage and the
  invite-code RPC are foreign services. Their answers are parameters
  (`Fetch`, `Mutation`, `Change`, `Backend`, the generated code, the upload
  result and the public-URL function). Subscribing and unsubscribing
  channels is represented by which changes a handler acts on.
- Concurrency: fetches, mutations and realtime callbacks interleave at
  every `await`. The model applies them one at a time. The chat send is
  split in two at its await (`SendMessage`, then `FinishSend`) so that a
  delivery can be placed between the two halves.
- The clock, `Math.random`, `confirm()` and `parseFloat` are parameters of
  the operations that use them.
- Toasts, console logging, scrolling, navigation, dialogs and all JSX
  styling are UI and are not modelled.
- `signUp` and `signIn` only forward their arguments to the authentication
  service and return its error, so they are not modelled.
- The pages' other hook users, notification settings, installation and
  upload dialogs are outside the modelled core.
- Messages.MessageStore.FetchMessages, Habits.HabitStore.FetchHabits and
  the other fetch methods: the service's ordering (`order(...)`) is not
  modelled; the rows are taken as the service returns them.
- Travel.MilestoneStore.FetchMilestones: `data || []` for a successful
  query with null data is not modelled, since a successful query always
  carries rows here.
- Goals.GoalStore.UpdateGoal: the `Partial<Goal>` patch sent is not
  modelled; only the target row, the outcome and the reload are.
- Journal.JournalStore.UpdateEntry: the `Partial<JournalEntry>` patch sent
  is not modelled; only the target row, the outcome and the reload are.
- TravelPage.Apply: the service's update is modelled only for the two
  patches the travel page sends.
- Auth.AuthState.FetchUserData and the other methods that query: a query
  error counts as the row being absent, as the code does with its `data`.
  The exception `fetchUserData` rethrows is not modelled either.
- The `loading` state that `onAuthStateChange` sets while its fetch runs is
  not visible: the model runs the fetch at once.
- Statistics.DayStats: a bucket's date is a day number, not the `dd MMM`
  text the page shows. The queries' date windows are left to the service;
  the buckets count whatever rows come back.
- WeekCalendar.WeekDates: entries are day numbers, not the day of the
  month that `getDate()` gives, and days are local days (time zones are not
  modelled).
- MoneyPage.CategorySpending: `Object.entries` lists integer-like keys
  first, in numeric order. The model keeps first-occurrence order for every
  category name.
- Text.Upper: only ASCII letters are upper-cased. Strings are sequences of
  Unicode code points, not UTF-16 code units, so `n[0]` and `slice` on
  characters outside the Basic Multilingual Plane are not modelled.
- Amounts are whole numbers; floating-point amounts and rounding error are
  not modelled (the home page's average uses exact reals).
- A page that renders `{0 && ...}` shows the digit 0; rendering is not
  modelled.
