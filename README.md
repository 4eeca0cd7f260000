# Wealth Pulse, modelled in Dafny

Wealth Pulse is a personal-finance tracker. An Express/MongoDB server keeps
three collections: accounts, profiles and expenses. Each expense is one
record of a category, an amount and a date, owned by a username. The server
answers the routes that register and log in users, store and update profiles
and add, edit, delete and summarise expenses (totals for today, this month,
a date range, per category, a pie by category and a bar series by month).
After each expense added through the expense router, a small badge engine
recomputes the profile's financial figures and awards badges by threshold.
The React client's pages compute on these answers:

- the alerts and home pages compare spending with the budget;
- the dashboard colours pie slices and gives them percentages;
- the categories page validates forms, groups search results and caches each category's expense list;
- the registration form checks nine fields;
- the login page unlocks the "First Login" badge kept in the browser;
- the profile page re-evaluates badges, measures budget adherence and savings, and exports a CSV.

The model has these parts:

- **Data and schemas** (`Records`, `Calendar`): expense, account and profile
  documents with the schema rules that `save()` enforces, the five-badge
  catalog, and civil dates and timestamps with the day, month and year
  windows the server queries.
- **Query semantics** (`Aggregation`, `Seqs`): `find`, `deleteMany`,
  `.sort({date: -1})`, the `$group`/`$sum`/`$round`/`$sort` pipelines, and
  `updateMany`. Each is a function on sequences of records, with lemmas that
  pin down exactly which records each answer holds.
- **The server** (`Ledger`): a `Store` class whose fields are the three
  collections and an id counter. The write routes are methods that update
  the store; the read routes are functions of the store.
  `Valid()` (unique indexes, schema rules, fresh ids) is kept by every route.
- **The badge engine and expense router** (`Badges`, `ExpenseRoute`):
  `awardBadge` and `checkAndAwardBadges` on a loaded `ProfileDoc` whose badge
  list is updated in place, and the router that stores the expense,
  recomputes the figures and saves the profile.
- **URI decoding** (`Uri`): `decodeURIComponent` with its UTF-8 reading and
  its `URIError`, which the three category routes apply a second time to a
  route parameter the router has already decoded.
- **The client pages** (`Alerts`, `Home`, `Dashboard`, `Periods`,
  `Categories`, `Register`, `Login`, `ProfileView`, with `Text` for digits,
  padding, trimming and lower-casing). The server's answers, the clock and
  the browser's storage are parameters.

Amounts are exact reals, and dates are proleptic Gregorian civil dates with a
millisecond of the day. Every request outcome, including a failed one, is an
explicit value (`Reply`, `Option`, `Response`).

Where the code's behaviour differs from what its names or comments suggest,
the model follows the code:

- The profile page clamps the savings display only from above (`Math.min(…, 100)`), not to `[0, 100]`.
- The expense router accepts an amount of 0, which the server's own add route rejects.
- The expense router stores the expense under the identifier as given, not under the resolved username.
- A badge that `awardBadge` creates carries only a title and a flag. The profile then fails the schema's
  required fields, so the save answers 500 while the expense stays stored (`ExpenseRoute.CreatedBadgeBlocksSave`).
- The amount text of the CSV export starts with the three characters `â‚¹`, a mis-encoded rupee sign, as written in the code.

## Model

| member | source | states |
|---|---|---|
| Calendar.MonthLength | myreact-app/src/components/Alerts.jsx:58-60 | a month has between 28 and 31 days |
| Calendar.DaysInMonth | myreact-app/src/components/Alerts.jsx:58-60 | `new Date(y, m + 1, 0).getDate()` for a 0-based month is the length of that month, between 28 and 31 |
| Calendar.YearLength | backend/server.js:614-615 | the twelve month lengths add up to 366 in a leap year and 365 otherwise |
| Calendar.DayKeyOrder | myreact-app/src/components/Dashboard.jsx:127 | comparing two parsed dates is comparing their (year, month, day) order keys |
| Calendar.InDaysByDate | backend/server.js:283-291 | the window from 00:00 of the first day to 23:59:59.999 of the last holds exactly the timestamps whose date lies between the two |
| Calendar.InMonthWindow | backend/server.js:211-221 | the month window holds exactly the timestamps of that year and month |
| Calendar.InYearWindow | backend/server.js:614-625 | the year window holds exactly the timestamps of that year |
| Calendar.JsYear | backend/server.js:614 | `new Date(year, …)` reads years 0 to 99 as 1900 to 1999 and every other year as itself |
| Records.CreateExpense | backend/models/Expenses.js:3-25 | a new expense is accepted iff username and category are non-empty and the amount is at least 0; the date defaults to now; both timestamps are now |
| Records.CreateAccount | backend/models/User.js:3-13 | a registration is accepted iff every required field is present; `savingsGoal` defaults to 0 |
| Records.DefaultAchievements | backend/models/UserProfile.js:9-45 | the catalog holds five complete, unearned badges with ids 1 to 5 and distinct titles |
| Records.DefaultProfile | backend/models/UserProfile.js:48-85 | a new profile carries the schema defaults: empty texts, zero figures, INR, Basic, both notifications on, the catalog badges, the load-time join date |
| Records.ApplyPatchIdempotent | backend/server.js:113-117 | updating a profile twice with the same body stores the same profile as updating it once |
| Aggregation.TotalNonNegative | backend/models/Expenses.js:13-17 | the total of stored records, whose amounts are never negative, is never negative |
| Aggregation.NewestFirst | backend/server.js:152 | `.sort({ date: -1 })` returns the same records (as a multiset), newest first |
| Aggregation.Find | backend/server.js:288-297 | every record of `find(q)`'s answer is a matching record of the collection, and every matching record is in the answer |
| Aggregation.Reject | backend/server.js:476-480 | every record `deleteMany(q)` leaves is a non-matching record of the collection, and every non-matching record is left |
| Aggregation.FindMultiset | backend/server.js:288-297 | each matching record occurs in `find`'s answer as often as in the collection, each other record never |
| Aggregation.RejectMultiset | backend/server.js:476-480 | what `deleteMany` leaves holds each non-matching record as often as before and no matching one |
| Aggregation.FindRejectSplit | backend/server.js:476-480 | the records a query matches and those it leaves together have the collection's count and total |
| Aggregation.ReversedWindowEmpty | backend/server.js:283-297 | a date range whose start is after its end matches no record; the route answers an empty list, not an error |
| Aggregation.FindNewestFirst | backend/server.js:367-371 | `find(q).sort({ date: -1 })` is exactly the matching records, newest first |
| Aggregation.GroupAll | backend/server.js:177-192 | a `$group` with `_id: null` gives no row when nothing matched and otherwise exactly one row, the sum of the matched amounts |
| Aggregation.MatchedTotal | backend/server.js:190-194 | the today and month totals equal the sum of the matched records, and 0 when none matched |
| Aggregation.InCategory | backend/server.js:321-322 | a category's bucket holds only records of the collection with that category, and never more records than there are |
| Aggregation.CategorySplit | backend/server.js:321-326 | one category's bucket and the other records together have the collection's count and total |
| Aggregation.InCategoryMembers | backend/server.js:321-326 | a record is in the bucket of `c` exactly when its category is `c` |
| Aggregation.Categories | backend/server.js:321-322 | the group keys are distinct and are exactly the categories present |
| Aggregation.CategoryPresent | backend/server.js:321-322 | every category carried by some record has a non-empty bucket |
| Aggregation.GroupsPartition | backend/server.js:321-326 | the buckets of the distinct categories partition the records: their totals and counts add up to the whole |
| Aggregation.SummaryOf | backend/server.js:321-345 | a summary entry carries its category's name, the bucket's total and its count, which is at least 1 |
| Aggregation.SummaryLatest | backend/server.js:325-344 | an entry's latest date is the date of some record of its category, and no record of that category is newer |
| Aggregation.CategorySummaries | backend/server.js:318-346 | the summary is the grouped entries sorted by latest date, newest first |
| Aggregation.SummariesExact | backend/server.js:318-346 | each entry describes its own category's bucket, and no category appears twice |
| Aggregation.SummariesCover | backend/server.js:318-346 | every category the user has spent in gets an entry |
| Aggregation.SummariesAddUp | backend/server.js:318-346 | the entries' totals add up to the user's total spend and their counts to the number of records |
| Aggregation.Round2 | backend/server.js:580 | `$round: [x, 2]` is a whole number of cents within half a cent of `x` |
| Aggregation.PieData | backend/server.js:560-586 | the pie slices are the categories of the matched records with rounded totals, sorted by value, largest first |
| Aggregation.PieExact | backend/server.js:560-586 | each slice is a present category with its total rounded to cents, and no category has two slices |
| Aggregation.PieCovers | backend/server.js:560-586 | every category among the matched records has a slice |
| Aggregation.PieAddsUp | backend/server.js:560-586 | the slice values add up to the matched total within half a cent per slice |
| Aggregation.DistinctCategoriesBound | backend/server.js:321-322 | there are never more groups than records |
| Aggregation.MonthlyBuckets | backend/server.js:619-645 | every entry of the monthly series has a month number from 1 to 12 |
| Aggregation.MonthlyExact | backend/server.js:619-645 | a month has an entry exactly when some record of the year falls in it, and that entry holds the month's rounded total |
| Aggregation.NameMonths | backend/server.js:648-657 | each entry takes the English name of its month number and keeps its amount, in order |
| Aggregation.YearWindowMatches | backend/server.js:614-625 | the year window matches a user's record exactly when its date lies in the (JavaScript-adjusted) year |
| Aggregation.MonthWindowMatches | backend/server.js:211-221 | the month window matches a user's record exactly when it lies in `now`'s year and month |
| Aggregation.TodayWindowMatches | backend/server.js:171-183 | the day window matches a user's record exactly when it lies on `now`'s date |
| Aggregation.SetCategory | backend/server.js:509-512 | `updateMany` renames exactly the matching records, stamps their `updatedAt`, and keeps every other record and field |
| Aggregation.SetCategoryKeepsTotal | backend/server.js:509-512 | a rename keeps every amount and so every total |
| Ledger.Updated | backend/server.js:418-431 | a partial update sets the category if non-empty, the amount and the date if given, and `updatedAt`; everything else is kept |
| Ledger.RejectKeepsDistinctIds | backend/server.js:476-480 | deleting by a filter keeps the remaining ids distinct |
| Ledger.Store.constructor | backend/server.js:22-24 | the collections start empty and the store is valid |
| Ledger.Store.Resolve | backend/server.js:28-36 | the identifier resolves iff some account has it as username or email, and then to that account's username |
| Ledger.Store.ResolveUsername | backend/server.js:28-36 | a username that is nobody's email resolves to itself |
| Ledger.Store.ResolveEmail | backend/server.js:28-36 | an email that is nobody's username resolves to its account's username |
| Ledger.Store.FoundValid | backend/models/Expenses.js:13-17 | anything found in a valid store has a non-negative total |
| Ledger.Store.Register | backend/server.js:39-55 | 400 and no change for a document the schema rejects or a taken username or email; otherwise exactly one account is appended |
| Ledger.Store.Login | backend/server.js:58-98 | 401 unless the first account matching the identifier has that password; on success a profile is created for its email only if none exists |
| Ledger.Store.UpsertProfile | backend/server.js:103-127 | 404 without an account for the email; an existing profile gets the body's fields; otherwise a profile of defaults and body is added only when the schema accepts it |
| Ledger.Store.GetProfile | backend/server.js:130-138 | 404 iff no profile has the email; otherwise a stored profile with that email |
| Ledger.Store.UserBudget | backend/server.js:240-262 | 404 iff the identifier does not resolve; otherwise the resolved account's income and default budget |
| Ledger.Store.GetExpenses | backend/server.js:143-158 | 404 iff the identifier does not resolve; otherwise exactly the user's records, newest first |
| Ledger.Store.TodayTotal | backend/server.js:162-199 | 404 iff unresolved; otherwise the sum of the user's records dated today, never negative |
| Ledger.Store.MonthTotal | backend/server.js:202-237 | 404 iff unresolved; otherwise the sum of the user's records in the current month, never negative |
| Ledger.Store.DateRange | backend/server.js:265-306 | 400 without both dates, 404 if unresolved, and a success iff both dates are given and the user resolves, holding exactly the user's records in the inclusive day window, newest first, and empty for a reversed range |
| Ledger.Store.CategoriesSummary | backend/server.js:309-353 | 404 iff unresolved; otherwise the category summary of the user's records, whose totals add up to the user's total |
| Ledger.Store.CategoryExpenses | backend/server.js:356-380 | 404 iff unresolved; 500 iff resolved and the second `decodeURIComponent` of the category throws; otherwise exactly the user's records in the decoded category, newest first |
| Ledger.Store.UserExpenses | backend/server.js:523-530 | exactly the records stored under that literal username, never a 404 |
| Ledger.Store.Pie | backend/server.js:536-595 | 400 without both dates, 404 if unresolved, and a success iff both dates are given and the user resolves, holding the pie data of the user's records in the window |
| Ledger.Store.Monthly | backend/server.js:598-665 | 400 without a year, 404 if unresolved, a success iff both hold; the series is the user's records of the JS year grouped by month, rounded, empty months left out, in month order and named (`MonthlyExact`), at most twelve entries |
| Ledger.Store.ReplaceProfile | backend/server.js:114-117 | saving a loaded profile replaces exactly that document and keeps its email |
| Ledger.Store.Append | backend/server.js:396-403 | one valid record is appended under the next id |
| Ledger.Store.AddExpense | backend/server.js:383-413 | 400 iff the identifier or category is empty or the amount is missing or zero; 404 iff those are present and the user is unknown; 500 iff the user resolves and the amount is negative; 201 in every other case, with exactly one record appended, owned by the resolved username and dated `date` or now |
| Ledger.Store.UpdateExpense | backend/server.js:416-444 | 500 iff the new amount is negative; 404 iff it is not and no record has the id; a success iff the amount is valid and the id is found, and then only the supplied fields of that one record change |
| Ledger.Store.DeleteExpense | backend/server.js:447-465 | 404 iff no record has the id; otherwise exactly that record is removed and returned |
| Ledger.Store.DeleteCategory | backend/server.js:468-489 | 404 iff unresolved; 500 iff resolved and the second `decodeURIComponent` of the category throws, with nothing removed; otherwise every record of the user in the decoded category is removed, every other kept in order, and the count removed answered |
| Ledger.Store.RenameCategory | backend/server.js:492-521 | 400 iff the new name is empty; 404 iff it is not and the user is unknown; 500 iff the user resolves and the second `decodeURIComponent` of the old name throws; otherwise every record of the user in the decoded old category takes the new name, and the count matched is answered |
| Ledger.BucketsAtMostTwelve | backend/server.js:630-645 | month numbers from 1 to 12 in strictly increasing order give at most twelve entries |
| Ledger.StrictlyIncreasingSpread | backend/server.js:643 | the k-th of strictly increasing month numbers is at least k + 1 |
| Badges.FindTitle | backend/utils/badgeUtils.js:3 | the first badge with the title, or none when no badge has it |
| Badges.Award | backend/utils/badgeUtils.js:2-12 | after awarding, some badge with the title is earned; a missing title is appended as a bare earned badge, otherwise the length is kept |
| Badges.GrowsTransitive | backend/utils/badgeUtils.js:14-33 | one list growing into a second, and that into a third, means the first grows into the third |
| Badges.AwardGrows | backend/utils/badgeUtils.js:2-12 | awarding never removes, reorders, renames or un-earns a badge, and leaves every badge but the first with the title unchanged, later duplicates included |
| Badges.AwardIdempotent | backend/utils/badgeUtils.js:2-12 | awarding the same title twice is the same as awarding it once |
| Badges.CheckAndAward | backend/utils/badgeUtils.js:14-33 | the three rules only grow the badge list |
| Badges.CheckAndAwardEarns | backend/utils/badgeUtils.js:20-32 | a title whose rule holds ends up with an earned badge |
| Badges.CheckAndAwardUntouched | backend/utils/badgeUtils.js:14-33 | a badge is left as it was unless it is a checked title whose rule holds |
| Badges.ProfileDoc.constructor | backend/routes/expenses.js:22 | a loaded document starts with the stored badges and figures |
| Badges.ProfileDoc.Snapshot | backend/routes/expenses.js:43 | the saved document has the current badges and figures and every other loaded field |
| Badges.ProfileDoc.AwardBadge | backend/utils/badgeUtils.js:2-12 | the document's badge list becomes its award for the title; the figures are kept |
| Badges.ProfileDoc.CheckAndAwardBadges | backend/utils/badgeUtils.js:14-33 | the badge list becomes the result of the three rules on the current figures; the figures are kept |
| ExpenseRoute.Financials | backend/routes/expenses.js:31-38 | saved plus spent is income, and the savings rate is saved as a percentage of a positive income, else 0; the savings goal is kept |
| ExpenseRoute.SavingsRateAtMost100 | backend/routes/expenses.js:31-38 | with a positive income and non-negative spending, the rate is at most 100 |
| ExpenseRoute.ChampionIffSpendingAtMost40Percent | backend/routes/expenses.js:35-38 | Savings Champion is earned exactly when at most 40% of a positive income is spent |
| ExpenseRoute.BudgetMasterIffNoOverspend | backend/routes/expenses.js:32 | Budget Master is earned exactly when `totalSaved` is not negative |
| ExpenseRoute.Reevaluated | backend/routes/expenses.js:31-41 | only the figures and badges change: the figures are recomputed, and the badges grow by the rules on the new figures |
| ExpenseRoute.CreatedBadgeBlocksSave | backend/routes/expenses.js:41-43 | when a rule awards a title the profile lacks, the profile to save fails the schema |
| ExpenseRoute.CreatedBadgesAreBare | backend/utils/badgeUtils.js:4-7 | every badge the rules append has no id, description or icon |
| ExpenseRoute.AwardAppendsBare | backend/utils/badgeUtils.js:4-7 | any badge added by one award is the bare badge of the title |
| ExpenseRoute.Recompute | backend/routes/expenses.js:31-38 | the three assignments leave the document's figures equal to the figures for that spend and income |
| ExpenseRoute.UpdateProfileFor | backend/routes/expenses.js:22-45 | 404 without a profile for the identifier; otherwise the re-evaluated profile is saved if valid, else 500 and the stored profile is unchanged |
| ExpenseRoute.PostExpense | backend/routes/expenses.js:8-50 | 400 without identifier, category or amount (0 is accepted); 500 for a negative amount; otherwise the expense is stored under the identifier itself whatever the profile step answers |
| Alerts.OrZero | myreact-app/src/components/Alerts.jsx:33 | `x \|\| 0`: a missing amount reads as 0 and any other as itself |
| Alerts.DailyBudget | myreact-app/src/components/Alerts.jsx:62-65 | the daily budget times the days of the current month is the monthly budget |
| Alerts.DailyMessageFor | myreact-app/src/components/Alerts.jsx:67-75 | over, exact and under each hold exactly when today's spending is above, equal to or below the daily budget |
| Alerts.DailyMessageScalesToMonth | myreact-app/src/components/Alerts.jsx:62-75 | the daily message compares today's spending times the month's days with the monthly budget |
| Alerts.NoBudgetMeansOver | myreact-app/src/components/Alerts.jsx:62-69 | with no budget, any spending today gives the over-budget message |
| Alerts.MonthlyAlertFor | myreact-app/src/components/Alerts.jsx:77-97 | the warning shows exactly when spending is over half the budget, and remaining plus spent is the budget |
| Alerts.WarningIffLessThanHalfRemains | myreact-app/src/components/Alerts.jsx:77-79 | the warning shows exactly when less than half of the budget remains |
| Alerts.AlertsView | myreact-app/src/components/Alerts.jsx:19-128 | not logged in gives "User not logged in"; any failed request gives the fetch error; otherwise the three answers, missing ones as 0 |
| Alerts.AlertsViewContent | myreact-app/src/components/Alerts.jsx:26-48 | with an identifier and three answers, the page shows content built from those answers |
| Home.HomeAlertVisible | myreact-app/src/components/Home.jsx:15-34 | without an identifier or after a failed request the flag is unchanged; otherwise it shows exactly when spending is over half the budget |
| Home.HomeAgreesWithAlerts | myreact-app/src/components/Home.jsx:26-30 | the home alert shows exactly when the alerts page, with the same answers, shows its warning |
| Periods.RangeCheck | myreact-app/src/components/Categories.jsx:120-128 | a missing date gives the "select both" message; otherwise the range is refused exactly when the start is after the end, and a passed period carries the two dates |
| Periods.RangeCheckOrdered | myreact-app/src/components/Dashboard.jsx:121-131 | a period that passes is ordered in the day order of the server's windows, and every ordered pair passes |
| Dashboard.PieQuery | myreact-app/src/components/Dashboard.jsx:107-139 | a single date without a value gives "Please select a date", with one it gives a one-day period; a range goes through the range check |
| Dashboard.QueriedPeriodOrdered | myreact-app/src/components/Dashboard.jsx:107-139 | every period the dashboard requests is well ordered |
| Dashboard.Share | myreact-app/src/components/Dashboard.jsx:155 | the share is undefined exactly when the total is 0, and otherwise the share times the total is the value times 100 |
| Dashboard.Colored | myreact-app/src/components/Dashboard.jsx:152-156 | slice `i` keeps its name and value, takes colour `i mod 10` and its share of the total |
| Dashboard.FetchPie | myreact-app/src/components/Dashboard.jsx:100-170 | a failed check sets only its message; a failed request empties the pie; an answer gives the summed total and the coloured slices |
| Dashboard.PieSharesAddUp | myreact-app/src/components/Dashboard.jsx:143-159 | the slices' values add up to the total, and the percentages add up to 100 unless the total is 0, when none is a number |
| Dashboard.NeighbourColorsDiffer | myreact-app/src/components/Dashboard.jsx:152-156 | slices fewer than ten places apart never share a colour |
| Dashboard.ChangeSearchType | myreact-app/src/components/Dashboard.jsx:214-219 | switching search type empties the pie, zeroes the total and marks it not fetched |
| Dashboard.FetchBar | myreact-app/src/components/Dashboard.jsx:172-204 | a missing or zero year only sets "Please enter a valid year"; a failed request empties the chart; an answer replaces it |
| Dashboard.DashboardAlertFor | myreact-app/src/components/Dashboard.jsx:394-406 | the box is hidden exactly when a request failed, and red exactly when spending is over half the budget, missing amounts as 0 |
| Dashboard.DashboardAgreesWithAlerts | myreact-app/src/components/Dashboard.jsx:394-404 | the dashboard box is red exactly when the alerts page shows its warning for the same answers |
| Categories.PageIdentifier | myreact-app/src/components/Categories.jsx:52 | the identifier is never empty: a non-empty stored identifier is used as is, and "defaultUser" otherwise |
| Categories.FormatDate | myreact-app/src/components/Categories.jsx:57-63 | the text has at least seven characters: two digits, a slash, two digits, a slash and the year |
| Categories.FormatDateReadsBack | myreact-app/src/components/Categories.jsx:57-63 | the formatted date reads back as the day, the month and the year it came from |
| Categories.CheckExpenseForm | myreact-app/src/components/Categories.jsx:164-174 | blank fields give the "enter category name, amount, and date" message; an unparsable or negative amount gives "enter a valid amount"; otherwise the parsed amount is accepted |
| Categories.MissingFieldsIffBlank | myreact-app/src/components/Categories.jsx:165-168 | the missing-fields message shows exactly when some field is empty after trimming |
| Categories.AcceptedFormMeetsAddRoute | myreact-app/src/components/Categories.jsx:170-183 | a form the page accepts is refused by the server's add route exactly when its amount is 0 |
| Categories.SearchDateRange | myreact-app/src/components/Categories.jsx:119-154 | a failed check sets only its message; a failed request clears the results; an answer is shown, with "No expenses found…" when empty |
| Categories.ClearDateSearch | myreact-app/src/components/Categories.jsx:156-162 | clearing deactivates the search, empties the results and the error |
| Categories.FilteredCategories | myreact-app/src/components/Categories.jsx:306-308 | every category kept is one whose lower-cased name contains the lower-cased filter, and every such category is kept |
| Categories.EmptyFilterKeepsAll | myreact-app/src/components/Categories.jsx:306-308 | an empty filter keeps every category |
| Categories.FilterIgnoresCase | myreact-app/src/components/Categories.jsx:306-308 | filters that lower-case to the same text keep the same categories |
| Categories.GroupNames | myreact-app/src/components/Categories.jsx:311-317 | the group keys are distinct and include every result's category |
| Categories.GroupNamesPresent | myreact-app/src/components/Categories.jsx:311-317 | every group key has a non-empty group |
| Categories.CategoryNamed | myreact-app/src/components/Categories.jsx:311-317 | a category carried by some result is a group key |
| Categories.GroupByCategory | myreact-app/src/components/Categories.jsx:311-317 | the keys in insertion order, and each key's group is exactly the results of that category, in order |
| Categories.GroupsPartitionResults | myreact-app/src/components/Categories.jsx:311-317 | every result lies in exactly one group, the one of its category |
| Categories.ListViewOf | myreact-app/src/components/Categories.jsx:497-531 | a missing entry shows "Loading expenses...", an empty one "No expenses found", a non-empty one its expenses |
| Categories.Refreshed | myreact-app/src/components/Categories.jsx:79-81 | every listed category gets an entry, and unlisted ones keep theirs |
| Categories.Without | myreact-app/src/components/Categories.jsx:208-212 | the cache with exactly the given keys removed |
| Categories.CategoryCache.constructor | myreact-app/src/components/Categories.jsx:28-50 | the cache starts empty |
| Categories.CategoryCache.Store | myreact-app/src/components/Categories.jsx:95-117 | a category's entry becomes the answer, or the empty list when the request fails |
| Categories.CategoryCache.Refresh | myreact-app/src/components/Categories.jsx:71-89 | fetching the listed categories one after another leaves the cache refreshed by their answers |
| Categories.CategoryCache.ForgetCategory | myreact-app/src/components/Categories.jsx:207-212 | deleting a category removes exactly its entry |
| Categories.CategoryCache.ForgetEdited | myreact-app/src/components/Categories.jsx:260-268 | saving an edit removes the entries of the old name and of the new name |
| Categories.EditLeavesCategoriesUnloaded | myreact-app/src/components/Categories.jsx:258-268 | after an edit, the old and new categories show "Loading expenses..." while every other listed category shows what was just fetched |
| Register.EmailSplitUnique | myreact-app/src/components/Register.jsx:65 | the e-mail pattern matches in one way only: one '@', and the final label after the last dot |
| Register.WithValue | myreact-app/src/components/Register.jsx:104-108 | the changed field takes the value and every other field keeps its own |
| Register.FieldError | myreact-app/src/components/Register.jsx:32-98 | a field's error is empty exactly when its rule holds, and otherwise is that field's message |
| Register.ValidateForm | myreact-app/src/components/Register.jsx:32-102 | every field's error is recomputed, no other key changes, and the form passes exactly when every rule holds |
| Register.Change | myreact-app/src/components/Register.jsx:104-148 | the value is stored and only that field's error is recomputed, against the password held before the change |
| Register.LiveErrorAgreesWithSubmit | myreact-app/src/components/Register.jsx:104-148 | the live error of the changed field is the one a submit would show; every other field keeps its error, including a stale "Passwords must match." |
| Register.EmptyFormInvalid | myreact-app/src/components/Register.jsx:32-98 | the empty form fails, and the savings goal is the one field that may stay empty |
| Login.UnlockBadge | myreact-app/src/components/Login.jsx:56-58 | a badge with id 1 becomes earned with nothing else changed; any other badge is kept |
| Login.UnlockFirstLogin | myreact-app/src/components/Login.jsx:52-62 | the stored list (or the default catalog) with each badge unlocked in place |
| Login.UnlockOnlyFirstLogin | myreact-app/src/components/Login.jsx:52-62 | unlocking changes only the earned flag, sets it for id 1 and never clears it |
| Login.UnlockIdempotent | myreact-app/src/components/Login.jsx:52-62 | logging in again changes nothing more |
| Login.FirstLoginOnFreshBrowser | myreact-app/src/components/Login.jsx:13-62 | in a browser with nothing stored, the first login gives the catalog with only "First Login" earned |
| Login.HandleLogin | myreact-app/src/components/Login.jsx:64-108 | success shows its message exactly when the server accepts, then stores the identifier as typed and the unlocked list; otherwise storage is kept |
| ProfileView.MonthKeys | myreact-app/src/components/Profile.jsx:217-223 | the month keys are distinct, in insertion order |
| ProfileView.MonthKeysExact | myreact-app/src/components/Profile.jsx:217-223 | a month has a bucket exactly when some expense falls in it |
| ProfileView.MonthSumAbsent | myreact-app/src/components/Profile.jsx:217-223 | a month with no bucket has spent nothing |
| ProfileView.SumMonthsStep | myreact-app/src/components/Profile.jsx:219-223 | one more expense adds its amount to exactly the bucket of its month |
| ProfileView.MonthsAddUp | myreact-app/src/components/Profile.jsx:217-223 | the month totals add up to the total of the expenses bucketed |
| ProfileView.GroupByMonth | myreact-app/src/components/Profile.jsx:217-223 | the buckets' keys in insertion order, each holding its month's total |
| ProfileView.EffectiveBudget | myreact-app/src/components/Profile.jsx:225-226 | an unset or zero budget falls back to 80% of income, any other budget is used as is |
| ProfileView.CountWithin | myreact-app/src/components/Profile.jsx:227-230 | no more months are counted than there are |
| ProfileView.CountWithinMonotone | myreact-app/src/components/Profile.jsx:227-230 | a larger budget never counts fewer months as within it |
| ProfileView.MonthsWithinBudget | myreact-app/src/components/Profile.jsx:217-230 | the loop counts the months whose total is within the budget |
| ProfileView.SetEarnedAt | myreact-app/src/components/Profile.jsx:195-200 | only the badge at the found position changes, and only its earned flag |
| ProfileView.Reevaluated | myreact-app/src/components/Profile.jsx:192-242 | re-evaluation keeps the list's length |
| ProfileView.ReevaluatedBeginner | myreact-app/src/components/Profile.jsx:192-202 | Expense Tracker Beginner ends earned exactly when there are expenses, in either direction |
| ProfileView.ReevaluatedDayOne | myreact-app/src/components/Profile.jsx:204-215 | Day 1 Completed is set once a day has passed and is never taken away |
| ProfileView.ReevaluatedBudgetMaster | myreact-app/src/components/Profile.jsx:232-242 | Budget Master ends earned exactly when twelve months are within budget, in either direction |
| ProfileView.ReevaluatedOthers | myreact-app/src/components/Profile.jsx:192-244 | every badge other than the three checked is kept, and no badge changes anything but its flag |
| ProfileView.SetEarnedSame | myreact-app/src/components/Profile.jsx:195-199 | setting a flag to the value it has changes nothing |
| ProfileView.ReevaluatedChanges | myreact-app/src/components/Profile.jsx:246-248 | the list differs from the loaded one exactly when some checked flag changes |
| ProfileView.SetFlag | myreact-app/src/components/Profile.jsx:195-200 | one flag update in place, reporting a change exactly when the flag differed |
| ProfileView.CheckAndUpdateAchievements | myreact-app/src/components/Profile.jsx:176-249 | the list shown is the re-evaluated one, and it is replaced exactly when a flag changed |
| ProfileView.ReevaluateFlags | myreact-app/src/components/Profile.jsx:192-248 | the three updates give the re-evaluated list, and `hasUpdates` is set exactly when it differs |
| ProfileView.DistinctPositions | myreact-app/src/components/Profile.jsx:193-233 | the three looked-up positions are different badges |
| ProfileView.DayOneStep | myreact-app/src/components/Profile.jsx:204-215 | the flag is set only once a day has passed, and a change is reported exactly when it was not yet earned |
| ProfileView.ProgressBounds | myreact-app/src/components/Profile.jsx:304-305 | progress is between 0 and 100, full exactly at twelve months, otherwise months × 100 / 12 |
| ProfileView.FullProgressIffBudgetMaster | myreact-app/src/components/Profile.jsx:232-305 | the bar is full exactly when the check marks Budget Master earned |
| ProfileView.BudgetProgress | myreact-app/src/components/Profile.jsx:275-307 | the months within the effective budget, and their progress percentage between 0 and 100 |
| ProfileView.YearSavings | myreact-app/src/components/Profile.jsx:135-166 | the current year's spending, and income times that year's months with spending less the spending |
| ProfileView.AddUpMonths | myreact-app/src/components/Profile.jsx:150-157 | the loop sums the month totals and the income less spending of each month |
| ProfileView.TimesIsProduct | myreact-app/src/components/Profile.jsx:154-155 | adding the income once per month is income times the number of months |
| ProfileView.Chronological | myreact-app/src/components/Profile.jsx:262 | the same month keys, oldest first |
| ProfileView.RateAtLeast60IffSpentAtMost40Percent | myreact-app/src/components/Profile.jsx:266-270 | with a positive income, a savings rate of at least 60% means spending at most 40% |
| ProfileView.LatestSix | myreact-app/src/components/Profile.jsx:263 | at most six of the months, all taken from the list |
| ProfileView.LatestSixAreLatest | myreact-app/src/components/Profile.jsx:262-263 | no month left out is later than a month kept |
| ProfileView.SavingsChampionEarned | myreact-app/src/components/Profile.jsx:252-273 | earned exactly with a non-zero income, at least six expenses and months, and every one of the latest six saving at least 60%; the page defines this check but never calls it |
| ProfileView.AllSaveSixtyPercent | myreact-app/src/components/Profile.jsx:265-271 | the flag stays true exactly when every listed month saves at least 60% |
| ProfileView.Cents | myreact-app/src/components/Profile.jsx:465-472 | the number of cents lies within half a cent of the amount |
| ProfileView.CentsTextReadsBack | myreact-app/src/components/Profile.jsx:465-472 | the two-decimal text reads back as the number of cents it came from |
| ProfileView.Fixed2ReadsBack | myreact-app/src/components/Profile.jsx:465-472 | `toFixed(2)` of an amount reads back within half a cent of it |
| ProfileView.ExpenseRows | myreact-app/src/components/Profile.jsx:462-467 | one row per expense, in the order received |
| ProfileView.RowTexts | myreact-app/src/components/Profile.jsx:474 | each row becomes its cells joined by commas |
| ProfileView.ExportCsv | myreact-app/src/components/Profile.jsx:442-483 | the header, one row per expense, and a total row with the sum of all amounts, joined into the CSV text |
| ProfileView.ExpenseLines | myreact-app/src/components/Profile.jsx:460-469 | the loop pushes every expense's row and sums every amount |
| ProfileView.TotalStep | myreact-app/src/components/Profile.jsx:468 | each step adds one amount to the running total |
| ProfileView.LoadedSetting | myreact-app/src/components/Profile.jsx:371-381 | a stored flag is on exactly when it reads "true", and an absent one is on |
| ProfileView.SettingsRoundTrip | myreact-app/src/components/Profile.jsx:371-414 | saved settings load back unchanged, and with nothing saved both are on |
| ProfileView.DefaultProfileIncomplete | myreact-app/src/components/Profile.jsx:506-508 | a profile of defaults shows the incomplete banner, and one with name, email, phone and a positive income does not |
| Text.Pad2 | myreact-app/src/components/Categories.jsx:59-60 | `padStart(2, '0')` of a number below 100 is two digits that read back as the number |
| Text.TrimIsEmptyIffBlank | myreact-app/src/components/Categories.jsx:165 | a text trims to empty exactly when every character is whitespace |
| Text.Lower | myreact-app/src/components/Categories.jsx:307 | lower-casing maps each character and keeps the length |
| Text.ContainsEmpty | myreact-app/src/components/Categories.jsx:307 | every text contains the empty text |
| Uri.EscapeAt | backend/server.js:365-366 | an escape of an octet below 0x80 decodes to that character, three text characters long; a `%` without two hex digits decodes to nothing |
| Uri.DecodeFrom | backend/server.js:365-366 | decoding from any position gives at most as many characters as remain, or the `URIError` |
| Uri.DecodeUriComponent | backend/server.js:365-366 | the decoded text is never longer than the parameter; `None` is the thrown `URIError` |
| Uri.DecodeWithoutPercent | backend/server.js:476-478 | a name without `%` decodes to itself, so the second decoding leaves it unchanged |
| Uri.BarePercentThrows | backend/server.js:507-508 | a `%` not followed by two hex digits makes the decoding throw, whatever comes before it |
| Uri.DecodeEscapeAll | myreact-app/src/components/Categories.jsx:99 | decoding undoes the `%XY` escaping of every character of an ASCII text |
| Uri.DecodeExamples | backend/server.js:365-366 | `Food` stays `Food`, `a%20b` becomes `a b`, and `50% off` throws |

## Left out

- The network, the database driver, the browser's storage and the clock are not modelled as effects. Every request's answer, `now`, and every stored item are parameters; a failed request is a `None` or `Failed` value.
- Exceptions from the driver (a malformed ObjectId, a connection error) are not modelled. Routes answer 500 only where a schema validator rejects a document.
- Time zones are not modelled. Dates are civil dates in one zone, and `$month` is read in that zone, not in UTC.
- Floating point is not modelled: amounts are exact reals. `$round` is rounding half up, and NaN shares are `None`.
- `parseFloat`, `parseInt`, `JSON.parse` and the truthiness of amount strings are not modelled. Their outcomes are parameters (`parsed`, `selectedYear`, the stored list).
- `toLocaleDateString` is a function parameter of the CSV export.
- `toLowerCase` is modelled only for ASCII letters.
- The register field lengths count characters, not UTF-16 code units.
- Loading flags, the ordering of concurrent promises and React's batched state updates are not modelled. Each handler is a function from the state before it to the state after it, its awaited answers taken in order.
- The CSV Blob and download, the image upload (FileReader), `getMembershipBadge`, `getPieChartTitle`, the dashboard's own `formatDate`, `handleEditCategory` and `handleCancelEdit` are not modelled; they only compute display text or move form state.
- `handleDeleteExpense` and `handleAddCategory` have no member of their own: they are `Refresh` followed by `Store`, or `Refresh` alone, after a server route.
- The "Finance Streak" badge has no rule in the code and none in the model.
- Navbar.js and App.js are not part of this model: they only route between pages.
- The registration form's submit alerts are not modelled.
- The router's own decoding of route parameters is not modelled: a route's parameter is the text the router hands over, and a malformed escape that the router itself rejects never reaches a handler.
- The alerts page reads the monthly income but never uses it, so it is not in the model.
- `ProfileView.Chronological`: months are sorted by (year, month). The source sorts `new Date("YYYY-M")`, whose parsing depends on the JavaScript engine.
- `Categories.GroupByCategory`: keys are in first-appearance order. JavaScript objects put integer-like keys first, and a category named `__proto__` behaves differently; neither is modelled. The groups are built in a plain `{}`, so a category named after an inherited `Object.prototype` member (`constructor`, `toString`, `valueOf`, `hasOwnProperty` and the like) finds `acc[c]` already set, and the `push` on it throws and breaks the render; the model groups such a name like any other.
- `ProfileView.CheckAndUpdateAchievements`: works on a copy of the list. The source shares badge objects between the old and new arrays (`[...achievements]`), so it also mutates the old list in place; that aliasing is not captured.
- `ProfileView.ExportCsv`: the number of lines of the CSV text is not proved, only the rows and the text built from them.
- `Aggregation.CategorySummaries`: ties in the latest date (or, in `PieData`, in value) are put in an order the model chooses. The database's order for ties is unspecified.
