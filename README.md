# Finance tracker core, modelled in Dafny

This project models the logic at the core of a personal finance tracker. The tracker has an
Express server over PostgreSQL and Redis and a React client. Users record income and expense
transactions in shared categories. They list and filter their transactions and read analytics
over a chosen date range. Money is modelled in integer cents. Percentages, such as the savings
rate and the category shares, are modelled in hundredths of a percent.

The model follows the repository's files:

- `analytics.dfy` (`AnalyticsRoutes`): the five analytics endpoints, that is the overview, the
  expenses by category, the monthly trends, the recent transactions and the spending patterns.
  Each is a function over the stored transactions. The overview's totals loop and the trends'
  three loops are methods.
- `cache.dfy` and `glob.dfy` (`Cache`, `Glob`): the read-through cache middleware over a Redis
  store (a class whose entries the methods update), the Redis `KEYS` glob matcher, cache keys,
  lifetimes and `invalidateCache`.
- `ledger.dfy`, `sql.dfy`, `like.dfy` (`Ledger`, `Sql`, `Like`): the two tables as a `Database`
  class, SQL text as pieces and numbered placeholders, the partial-UPDATE builder, and `ILIKE`.
- `transaction_routes.dfy`, `category_routes.dfy` (`TransactionRoutes`, `CategoryRoutes`): the
  list query builder, validation, guard order, and the writes with their cache invalidation.
- `redis_retry.dfy` (`RedisRetry`): the Redis client's `retry_strategy`.
- The client files model the authentication and theme reducers, the route guards, the sidebar,
  the register, login, profile and transaction forms, the filter panel, the transactions page's
  state (a class), the list's pagination bar, the spending-patterns chart, the date ranges, and
  the dashboard and analytics pages.
- `calendar.dfy`, `sorting.dfy`, `text.dfy`, `wrappers.dfy` hold what the others share: dates
  and `new Date(y, m, d)` rollover, descending sort with a limit, decimal text, trimming and case
  mapping, and `Option`/`Outcome`.

Some behaviour is stated exactly as written because the code does it that way, not because it
is a defect:

- The search text goes into the `ILIKE` pattern unescaped, so `_` and `%` act as wildcards
  (`Like.SearchTextIsAPattern`).
- A category name made only of spaces passes validation (`CategoryRoutes.BlankNameAccepted`).
- Amount text that `parseFloat` reads as NaN passes the client's amount check
  (`TransactionForm.AmountExamples`).
- On a page past the last one, the server lists no row and the list shows only "No
  transactions found", with no bar to page back (`TransactionList.PagePastTheEnd`).
- "View" on a read-only row opens the edit form (`TransactionList.ViewingOpensTheEditor`).
- An unknown role is labelled "View Only" even though it can edit
  (`ProfileForm.LabelAgreesWithCanEdit`).

## Model

| member | source | states |
|---|---|---|
| AnalyticsRoutes.ResolveDate | server/routes/analytics.js:16-28 | a missing date takes its default (first of the month, or today), a given one is kept, and only an unparseable one yields nothing |
| AnalyticsRoutes.OverviewRows | server/routes/analytics.js:35-46 | the grouped query yields at most one row per kind, each holding the caller's in-range sum of that kind, and a row for a kind exactly when such a transaction exists |
| AnalyticsRoutes.SumKindWithoutRows | server/routes/analytics.js:38-43 | a kind with no matching transaction sums to 0 |
| AnalyticsRoutes.OverviewTotalsAreSums | server/routes/analytics.js:48-57 | the value the loop keeps for a kind is the caller's in-range sum of that kind, 0 when no row exists |
| AnalyticsRoutes.TotalsFromRows | server/routes/analytics.js:48-57 | the forEach over the rows leaves totalIncome and totalExpenses at the last income and expense row totals, 0 when absent |
| AnalyticsRoutes.RoundedRatio | server/routes/analytics.js:60-72 | Math.round of num/den: the result is the integer nearest the exact ratio, halves rounding up |
| AnalyticsRoutes.SavingsRateBounds | server/routes/analytics.js:60-72 | with positive income and non-negative expenses the rate is at most 100%, and at least 0% when expenses do not exceed income |
| AnalyticsRoutes.Overview | server/routes/analytics.js:14-79 | 400 "Invalid date format" for an unparseable date and 400 when start is after end, before any query; otherwise 200 with the resolved period, the in-range sums per kind, net = income − expenses, and the rounded savings rate (0 without income) |
| AnalyticsRoutes.CategoryTotalCoversCount | server/routes/analytics.js:94-103 | with positive amounts a category's summed expense is positive exactly when it has a matching transaction, and at least its count |
| AnalyticsRoutes.GroupedRows | server/routes/analytics.js:89-103 | the LEFT JOIN … HAVING keeps exactly the categories whose summed in-range expense of the caller is positive, at most one row each |
| AnalyticsRoutes.BreakdownRowsSpec | server/routes/analytics.js:89-105 | the breakdown rows are exactly the kept categories, ordered by total descending |
| AnalyticsRoutes.SumTotalsSorted | server/routes/analytics.js:104-117 | ordering the rows does not change their summed total |
| AnalyticsRoutes.GroupedSumIsCategorySum | server/routes/analytics.js:103-117 | dropping the zero-total categories does not change the summed total |
| AnalyticsRoutes.CategorySumIsExpenseSum | server/routes/analytics.js:94-101 | when every transaction's category exists and ids are unique, summing per category counts each in-range expense of the caller once |
| AnalyticsRoutes.BreakdownTotalIsOverviewExpenses | server/routes/analytics.js:117 | the breakdown's totalExpenses equals the overview's total expenses over the same range |
| AnalyticsRoutes.PercentageBounds | server/routes/analytics.js:120-123 | each percentage round(amount/total·10000)/100 lies in [0, 100] |
| AnalyticsRoutes.Shares | server/routes/analytics.js:109-123 | the percentage map yields exactly one share per breakdown row |
| AnalyticsRoutes.PercentageErrorAccumulates | server/routes/analytics.js:120-123 | the rounded percentages sum to the exact share within half a hundredth per row |
| AnalyticsRoutes.PercentagesSumToHundred | server/routes/analytics.js:117-123 | over the kept rows the percentages add up to 100% within n/2 hundredths for n rows |
| AnalyticsRoutes.CategoryBreakdownAsWritten | server/routes/analytics.js:82-137 | as written the handler names undeclared startDate/endDate after computing, so every request answers 500 |
| AnalyticsRoutes.CategoryBreakdown | server/routes/analytics.js:82-137 | corrected: 500 only for a date PostgreSQL cannot read, otherwise 200 with the breakdown over the resolved range |
| AnalyticsRoutes.CategoryBreakdownAlwaysFails | server/routes/analytics.js:125-129 | the request the corrected handler answers 200 gets 500 from the handler as written |
| AnalyticsRoutes.MonthSumWithoutRows | server/routes/analytics.js:147-157 | a month and kind without transactions of the caller sums to 0 |
| AnalyticsRoutes.MonthBlocks | server/routes/analytics.js:147-157 | the year's query rows fall into twelve month blocks |
| AnalyticsRoutes.ConcatOrdered | server/routes/analytics.js:157 | month blocks laid end to end come in month order |
| AnalyticsRoutes.TrendRowsOrdered | server/routes/analytics.js:147-158 | the trends query's rows have months in 1..12 and come ORDER BY month |
| AnalyticsRoutes.RowTotalAppend | server/routes/analytics.js:177-186 | later rows overwrite earlier ones for the same month entry and kind |
| AnalyticsRoutes.MonthRowsTotal | server/routes/analytics.js:147-156 | one month's rows fill exactly that month's entry with its sum per kind |
| AnalyticsRoutes.ConcatTotal | server/routes/analytics.js:177-186 | after all blocks, an entry holds what its own month's block put there |
| AnalyticsRoutes.TrendTotalsAreMonthSums | server/routes/analytics.js:147-186 | the value an entry ends with is that month's sum for the kind, and 0 for an index past December |
| AnalyticsRoutes.BuildMonthlyTrends | server/routes/analytics.js:163-191 | the three loops build max(count, 0) entries from January of the year, fill income and expenses from the rows whose month index is within length, and set each net to income − expenses |
| AnalyticsRoutes.EntryIsExpected | server/routes/analytics.js:163-191 | an entry built from the year's rows is the month's income, expenses and net |
| AnalyticsRoutes.MonthlyTrends | server/routes/analytics.js:140-201 | a year that is not a number fails (500); otherwise parseInt(months) entries (12 by default), each the month's income, expenses and net |
| AnalyticsRoutes.JoinOne | server/routes/analytics.js:218-219 | the inner join pairs a transaction with exactly the categories of its id |
| AnalyticsRoutes.JoinedRecent | server/routes/analytics.js:208-220 | the joined rows are exactly the caller's transactions with their categories |
| AnalyticsRoutes.RecentRowsAreLatest | server/routes/analytics.js:221-222 | the answer holds min(limit, n) joined rows, ordered by date then created_at descending, none older than a row left out |
| AnalyticsRoutes.RecentRowsBelongToCaller | server/routes/analytics.js:218-220 | every returned row is one of the caller's transactions joined with its category |
| AnalyticsRoutes.RecentTransactions | server/routes/analytics.js:204-245 | limit defaults to 10; a limit that is not a non-negative integer fails (500); otherwise the latest rows up to the limit |
| AnalyticsRoutes.SlotEncode | server/routes/analytics.js:266 | each (day, hour, type) group has its own slot among 7·24·2, and the slot decodes back to it |
| AnalyticsRoutes.GroupRow | server/routes/analytics.js:255-266 | a non-empty group's row carries its day, hour and type, its count, and an average that times the count gives the group's sum |
| AnalyticsRoutes.PatternRowsFromComplete | server/routes/analytics.js:255-267 | every non-empty group at or after a slot has its row |
| AnalyticsRoutes.PatternRowsSpec | server/routes/analytics.js:255-267 | every row is a non-empty group of the caller's in-range transactions with its average and count, every such group has a row, and rows are ordered by day then hour |
| AnalyticsRoutes.Patterns | server/routes/analytics.js:272-281 | one pattern per row, named from the seven-day table by its day of week |
| AnalyticsRoutes.SpendingPatternsAsWritten | server/routes/analytics.js:248-294 | as written the handler names undeclared startDate/endDate, so every request answers 500 |
| AnalyticsRoutes.SpendingPatterns | server/routes/analytics.js:248-294 | corrected: 500 only for an unreadable date, otherwise 200 with the patterns over the resolved range |
| AnalyticsRoutes.SpendingPatternsAlwaysFails | server/routes/analytics.js:283-287 | the request the corrected handler answers 200 gets 500 from the handler as written |
| Cache.Seconds | server/middleware/cache.js:56-62 | every lifetime lies between 300 and 3600 seconds, and the analytics lifetime is the 900-second default |
| Cache.Owner | server/middleware/cache.js:12 | the key's owner part (the user id, or "anonymous" when there is none) is non-empty and holds no ':' and no '/' |
| Cache.OwnerAfterLastColon | server/middleware/cache.js:12 | two keys that end in ':' + owner with colon-free owners have the same owner |
| Cache.CacheKey | server/middleware/cache.js:12 | the key `cache:<originalUrl>:<owner>`; `CacheKeyInjective` and `KeysSeparateUsers` state that it determines the URL and the owner and never joins two users |
| Cache.CacheKeyInjective | server/middleware/cache.js:12 | "cache:" + originalUrl + ":" + owner determines both the URL and the owner |
| Cache.KeysSeparateUsers | server/middleware/cache.js:12 | two different signed-in users never share a key, whatever the URLs |
| Cache.Serve | server/middleware/cache.js:4-41 | the handler is skipped exactly for a GET whose key holds a stored body while Redis answers, and then the reply is 200 with that body and the store is unchanged; otherwise the reply is the handler's |
| Cache.ServeBypass | server/middleware/cache.js:7-39 | a non-GET request, or a store that cannot be reached, runs the handler and leaves the store unchanged |
| Cache.HitIgnoresHandler | server/middleware/cache.js:15-20 | on a hit the stored body is answered and the handler never runs, so the handler does not matter |
| Cache.ServeTouchesOnlyItsKey | server/middleware/cache.js:12-33 | serving a request writes at most its own key; every other key keeps its entry |
| Cache.ServeIsolatesUsers | server/middleware/cache.js:12-33 | serving one user's request never changes another user's entries |
| Cache.MissThenHit | server/middleware/cache.js:15-33 | after a miss whose write lands, the same request is answered 200 from the store with the first body, without running the handler |
| Cache.ErrorReplayedAsSuccess | server/middleware/cache.js:26-33 | as written a 500 body is stored, and the next identical request gets it back with status 200 |
| Cache.Through | server/middleware/cache.js:12-20 | a client's GET succeeds exactly when the store replays it or the handler succeeds; a replay is a 200 carrying the stored body, and any fresh body is the handler's |
| Cache.ThroughAgreesWithServe | server/middleware/cache.js:7-39 | the client's view has the status `Serve` answers with, and is a replay exactly when the handler did not run, with the served body |
| Cache.FailureNotReplayed | server/middleware/cache.js:26-33 | corrected: a non-2xx answer is not stored, so the next request runs the handler again |
| Cache.SuccessStillCached | server/middleware/cache.js:26-33 | corrected: a 2xx answer is still stored and replayed |
| Cache.Invalidated | server/middleware/cache.js:44-54 | `KEYS` then `DEL` only removes entries and leaves the kept ones as they were; `InvalidatedKey` states which keys go |
| Cache.InvalidatedKey | server/middleware/cache.js:44-54 | invalidation removes exactly the keys the pattern matches and leaves every other entry unchanged |
| Cache.PrefixPatternRemoves | server/middleware/cache.js:44-54 | a literal prefix followed by `*` removes every key with that prefix |
| Cache.InvalidateIdempotent | server/middleware/cache.js:44-54 | invalidating twice with the same pattern is the same as once |
| Cache.InvalidateCommutes | server/middleware/cache.js:44-54 | two invalidations give the same store in either order |
| Cache.TransactionPatternRemovesListings | server/routes/transactions.js:236 | the transaction pattern removes each of the writer's keys whose URL contains `/transactions` |
| Cache.TransactionPatternSparesOthers | server/routes/transactions.js:236 | the transaction pattern leaves every other user's entries unchanged |
| Cache.EndpointPath | server/routes/analytics.js:14-248 | each analytics path segment is non-empty, has no '/', and starts with neither 't' nor 'c' |
| Cache.AnalyticsKeyLacks | server/routes/analytics.js:14-248 | an analytics key contains no '/' followed by a letter other than 'a' or its endpoint's first letter |
| Cache.TransactionPatternMissesAnalytics | server/routes/transactions.js:236 | as written the transaction pattern matches no `/analytics/...` key whose query string holds no '/', since `recent-transactions` has no '/' before `transactions` |
| Cache.TransactionPatternSparesAnalytics | server/routes/transactions.js:236 | so after a transaction write every analytics entry whose query string holds no '/' stays as it was |
| Cache.CategoryPatternMissesAnalytics | server/routes/categories.js:104 | as written the category pattern matches no analytics key whose query string holds no '/' |
| Cache.CategoryPatternSparesAnalytics | server/routes/categories.js:104 | so after a category write every analytics entry whose query string holds no '/' stays as it was |
| Cache.AfterTransactionWriteRemovesAnalytics | server/routes/transactions.js:236 | corrected: a transaction write also removes the writer's analytics keys |
| Cache.AfterTransactionWriteSparesOthers | server/routes/transactions.js:236 | corrected: it still leaves other users' entries unchanged |
| Cache.AfterCategoryWriteRemovesAnalytics | server/routes/categories.js:104 | corrected: a category write removes every analytics key |
| Cache.RedisStore.constructor | server/middleware/cache.js:1 | the store starts empty |
| Cache.RedisStore.Handle | server/middleware/cache.js:4-41 | one request through the middleware leaves the reply, the handler flag and the store as Serve describes |
| Cache.RedisStore.Keys | server/middleware/cache.js:46 | KEYS returns exactly the stored keys the pattern matches |
| Cache.RedisStore.Del | server/middleware/cache.js:48 | DEL removes exactly the given keys |
| Cache.RedisStore.Invalidate | server/middleware/cache.js:44-54 | invalidateCache leaves the store as Invalidated describes, and leaves it unchanged when the store cannot be reached |
| Cache.RedisStore.Expire | server/middleware/cache.js:28 | an entry whose time-to-live runs out disappears and nothing else changes |
| Glob.StarsAcceptAnything | server/middleware/cache.js:46 | a KEYS pattern of stars only matches every key |
| Glob.AcceptsLiteral | server/middleware/cache.js:46 | a literal piece matches exactly a key that starts with it, the rest of the pattern matching the rest of the key |
| Glob.AcceptsStar | server/middleware/cache.js:46 | `*` followed by a pattern matches a key exactly when the pattern matches some suffix of it |
| Glob.AcceptsExactly | server/middleware/cache.js:46 | a pattern without special characters matches only the identical key |
| Glob.OneStarAccepts | server/middleware/cache.js:46 | `pre*post` matches exactly the keys that start with pre and end with post, non-overlapping |
| Glob.StarThenLiteral | server/middleware/cache.js:46 | `*post` matches exactly the keys ending in post |
| Glob.StarWordStar | server/middleware/cache.js:46 | `*word*post` matches exactly the keys ending in post with word occurring before that end |
| Glob.TwoStarsAccepts | server/middleware/cache.js:46 | `pre*word*post` matches exactly the keys that start with pre, end with post, and hold word in between |
| Glob.TwoStarsMissesWithoutWord | server/middleware/cache.js:46 | a key in which word never occurs is not matched by `pre*word*post` |
| Glob.TwoStarsMatchesInside | server/middleware/cache.js:46 | pre + mid + post is matched by `pre*word*post` whenever word occurs in mid |
| Glob.OneStarMatchesInside | server/middleware/cache.js:46 | pre + mid + post is matched by `pre*post` for every mid |
| Glob.PrefixStarMatches | server/middleware/cache.js:46 | `pre*` matches every key beginning with pre |
| Glob.MatchIsAccepts | server/middleware/cache.js:46 | on a non-empty key the top-level match is the pattern scan |
| Ledger.ParseKind | server/routes/transactions.js:194-196 | only "income" and "expense" name a kind, and a parsed kind's name is the text it came from |
| Ledger.KindNameRoundTrip | server/routes/transactions.js:194-196 | every kind's name parses back to that kind |
| Ledger.FindCategory | server/routes/transactions.js:216-223 | the category lookup by id finds one exactly when a category has the id, and the one it returns is stored with that id |
| Ledger.CountUsing | server/routes/categories.js:224-229 | the count of transactions using a category is 0 exactly when no transaction refers to it |
| Ledger.FindTransaction | server/routes/transactions.js:297-304 | `WHERE id = $1 AND user_id = $2` finds a row exactly when the caller owns a transaction with the id, and returns that row |
| Ledger.RemoveTransaction | server/routes/transactions.js:379-382 | the DELETE keeps exactly the rows that are not the caller's row with the id, and changes nothing when there is none |
| Ledger.ReplaceById | server/routes/transactions.js:350-352 | the UPDATE replaces the rows with the id and leaves every other row in its place |
| Ledger.RemoveCategory | server/routes/categories.js:235-238 | deleting a category keeps exactly the categories with another id, and changes nothing when none has it |
| Ledger.ReplaceCategoryById | server/routes/categories.js:195-197 | the UPDATE replaces the category with the id and leaves the others in place |
| Ledger.InsertKeepsConsistent | server/routes/transactions.js:216-231 | inserting a positive amount of an existing category with the next id keeps ids distinct and every category reference valid |
| Ledger.ReplaceKeepsConsistent | server/routes/transactions.js:307-352 | an update that keeps the id, a positive amount and an existing category keeps the tables consistent |
| Ledger.RemoveKeepsDistinct | server/routes/transactions.js:379-382 | deleting transactions keeps their ids distinct |
| Ledger.RemoveKeepsConsistent | server/routes/transactions.js:379-382 | deleting transactions keeps the tables consistent |
| Ledger.InsertCategoryKeepsConsistent | server/routes/categories.js:86-99 | inserting a category with the next id and a name no category holds keeps ids and names distinct |
| Ledger.ReplaceCategoryKeepsConsistent | server/routes/categories.js:161-197 | an update whose name no other category holds keeps ids and names distinct |
| Ledger.RemoveCategoryKeepsDistinct | server/routes/categories.js:235-238 | deleting a category keeps ids and names distinct |
| Ledger.RemoveCategoryKeepsConsistent | server/routes/categories.js:224-238 | deleting a category no transaction uses keeps every reference valid |
| Ledger.Database.constructor | server/routes/transactions.js:226-229 | the database starts with no transactions and no categories, and consistent |
| Ledger.Database.InsertTransaction | server/routes/transactions.js:226-231 | the INSERT appends one row with the next id and the current time as created_at and updated_at, and changes nothing else |
| Ledger.Database.ReplaceTransaction | server/routes/transactions.js:350-352 | the UPDATE replaces the row with the id and changes nothing else |
| Ledger.Database.DeleteTransaction | server/routes/transactions.js:379-386 | the DELETE reports a row exactly when the caller owned one with the id, removes it, and changes nothing else |
| Ledger.Database.InsertCategory | server/routes/categories.js:96-101 | the INSERT appends one category with the next id and changes nothing else |
| Ledger.Database.ReplaceCategory | server/routes/categories.js:195-197 | the UPDATE replaces the category with the id and changes nothing else |
| Ledger.Database.DeleteCategory | server/routes/categories.js:235-242 | the DELETE reports a row exactly when a category had the id, removes it, and changes nothing else |
| Sql.Placeholder | server/routes/transactions.js:36 | `$n` is '$' followed by one or more decimal digits |
| Sql.PlaceholderInjective | server/routes/transactions.js:36 | different numbers give different placeholders |
| Sql.RenderAppend | server/routes/transactions.js:29-62 | the text of joined SQL pieces is the joined text |
| Sql.SetListNumbers | server/routes/transactions.js:319-343 | SET items pushed with `$${paramCount++}` from 1 use exactly the placeholders 1..n |
| Sql.UpdateNumbers | server/routes/transactions.js:348-351 | with `updated_at = CURRENT_TIMESTAMP` and `WHERE id = $n+1`, the UPDATE uses exactly the placeholders 1..n+1 |
| Sql.UpdateNumbersPlain | server/routes/categories.js:195-196 | the category UPDATE with `WHERE id = $n+1` uses exactly the placeholders 1..n+1 |
| Sql.SetsFor | server/routes/transactions.js:319-343 | the i-th SET item assigns the i-th present field from placeholder i+1 |
| Sql.ValuesOf | server/routes/transactions.js:319-343 | the values array holds the present fields' values, in order |
| Sql.PushField | server/routes/categories.js:178-189 | one `if (x !== undefined)` step extends the SET list, the values and the counter by that field and keeps them in step |
| Sql.SetsReadTheirValues | server/routes/transactions.js:319-352 | running the SET list against the values array (and whatever is pushed after it) assigns each present field its own value, in order |
| Sql.AssignAllAppend | server/routes/transactions.js:319-343 | assigning two runs of fields is assigning the first and then the second |
| Like.LikeLiteral | server/routes/transactions.js:58-62 | a LIKE pattern starting with plain text matches exactly the texts starting with that text whose rest matches the rest |
| Like.LikePercent | server/routes/transactions.js:58-62 | `%` followed by a pattern matches exactly when the pattern matches some suffix |
| Like.PercentMatchesAll | server/routes/transactions.js:58-62 | `%` alone matches every text |
| Like.SearchFinds | server/routes/transactions.js:58-62 | for search text without `%`, `_` or `\`, `%text%` matches exactly the texts that contain it |
| Like.ILikeSearchFinds | server/routes/transactions.js:58-62 | ILIKE `%text%` matches exactly when the lowered text contains the lowered search |
| Like.SearchTextIsAPattern | server/routes/transactions.js:61 | the search text is not escaped: "a_c" matches "abc", which does not contain it |
| TransactionRoutes.WhereConds | server/routes/transactions.js:29-62 | the WHERE clause has one condition for the owner plus one per filter supplied |
| TransactionRoutes.WhereParams | server/routes/transactions.js:30-62 | the parameters are the owner's id plus one value per filter supplied |
| TransactionRoutes.BuiltStart | server/routes/transactions.js:29-31 | the clause starts as the user condition at `$1`, with the user id as its one value and the counter at 1 |
| TransactionRoutes.AppendFilter | server/routes/transactions.js:34-62 | one `if (filter)` step appends the filter's condition at the next placeholder and pushes its value, keeping clause, parameters and counter in step |
| TransactionRoutes.AppendIfGiven | server/routes/transactions.js:34-62 | a filter is added exactly when its text is non-empty; either way the clause, the values and the counter stay those of the filters added so far |
| TransactionRoutes.BuildWhere | server/routes/transactions.js:28-62 | the builder produces the conditions of exactly the supplied filters, their values after the user id, and the parameter count |
| TransactionRoutes.JoinRows | server/routes/transactions.js:94-96 | every joined row pairs a stored transaction with the stored category it refers to |
| TransactionRoutes.FiltersMeanSelected | server/routes/transactions.js:34-62 | for the caller's rows, all filter conditions hold exactly when the row matches the request's type, category, dates and search |
| TransactionRoutes.CondReadsItsValue | server/routes/transactions.js:34-62 | the condition built for each filter, read against the parameters, tests exactly that filter |
| TransactionRoutes.WhereMeansSelected | server/routes/transactions.js:29-62 | the WHERE clause with its parameters selects exactly the caller's rows that match every supplied filter |
| TransactionRoutes.SearchIsSubstring | server/routes/transactions.js:58-62 | for plain search text a row matches exactly when its description or its category name contains the text, ignoring case |
| TransactionRoutes.WhereInStep | server/routes/transactions.js:29-62 | the WHERE text uses exactly the placeholders 1..(parameter count) and only the handler's own fragments, never request text |
| TransactionRoutes.SortColumn | server/routes/transactions.js:65-68 | the sort column is always one of date, amount, description, created_at, and the requested one when it is among them |
| TransactionRoutes.SortOrderIsAllowed | server/routes/transactions.js:69 | the order is always ASC or DESC, and ASC exactly when the request asks for "asc" in any case |
| TransactionRoutes.BuildListQuery | server/routes/transactions.js:28-102 | the count and list statements share the WHERE clause and its parameters; the list adds ORDER BY, LIMIT and OFFSET with the limit and offset pushed last |
| TransactionRoutes.ListStatementsInStep | server/routes/transactions.js:72-102 | both statements use exactly the placeholders they have values for, LIMIT and OFFSET the next two, and only the handler's fragments |
| TransactionRoutes.CountIsSelected | server/routes/transactions.js:72-80 | the count query counts exactly the selected rows |
| TransactionRoutes.PagesCover | server/routes/transactions.js:126 | `Math.ceil(total / limit)` gives enough pages to hold the total and no empty last page |
| TransactionRoutes.SelectIsSelected | server/routes/transactions.js:82-100 | the list statement's WHERE clause keeps exactly the selected rows, in join order |
| TransactionRoutes.DateKeyOrder | server/routes/transactions.js:98 | ordering by the date key is ordering by the calendar |
| TransactionRoutes.AmountKeyOrder | server/routes/transactions.js:98 | ordering by the amount key is ordering by amount |
| TransactionRoutes.NullDescriptionsLast | server/routes/transactions.js:98 | a NULL description sorts after every text, so last ascending and first descending |
| TransactionRoutes.ListReply | server/routes/transactions.js:102-133 | the list fails only with 500 and otherwise answers 200 with the requested page and limit |
| TransactionRoutes.ListReplyPagination | server/routes/transactions.js:120-128 | a successful reply's pagination is the page and limit asked for, the count of the rows the WHERE clause keeps, and `Math.ceil(total / limit)` pages |
| TransactionRoutes.ListReplyRows | server/routes/transactions.js:82-121 | the listed rows are the `limit` rows from the offset on of the caller's selected rows sorted on the column: each a selected row of the caller, ordered by the sort column in the sort direction, none listed more often than selected, and number `limit` or what remains after the offset, none once the offset reaches the total; every sorted row before the page sorts at or before every listed row, and every row after it at or after them |
| TransactionRoutes.ListedLength | server/routes/transactions.js:99-128 | in the reply's own terms, a page lists `limit` rows or what remains of the total after `(page - 1) * limit`, and none past the total |
| TransactionRoutes.ListReplyCounts | server/routes/transactions.js:14-133 | the list succeeds exactly when the parameters cast and the limit and offset are not negative; then total is the selected count, offset = (page−1)·limit and pages, present exactly for a positive limit, covers the total |
| TransactionRoutes.FindRow | server/routes/transactions.js:141-160 | the lookup returns a joined row that is the caller's transaction with the id, or nothing when no row is |
| TransactionRoutes.GetTransaction | server/routes/transactions.js:136-181 | 500 exactly when the id does not cast; 200 with the caller's transaction of that id and its category; otherwise 404, and then the caller has no such transaction |
| TransactionRoutes.ValidationErrors | server/routes/transactions.js:184-202 | the express-validator chains of the POST (and, with `optional`, of the PUT at lines 260-282) in chain order; `CreateValidation`, `UpdateValidation` and `EmptyCreateBody` state when each body passes and what an empty one reports |
| TransactionRoutes.CreateValidation | server/routes/transactions.js:184-211 | a POST body has no validation error exactly when the amount is a number of at least 0.01, the type is income or expense, the category id is an integer ≥ 1, the date is ISO 8601 and any description has at most 500 characters |
| TransactionRoutes.UpdateValidation | server/routes/transactions.js:260-291 | a PUT body has no validation error exactly when every field present satisfies the same rule |
| TransactionRoutes.EmptyCreateBody | server/routes/transactions.js:184-202 | an empty POST body collects the amount (twice), type, category and date errors, in chain order |
| TransactionRoutes.BuildTransactionUpdate | server/routes/transactions.js:318-343 | the SET list and the values name exactly the fields present, in order, with the counter one past them |
| TransactionRoutes.FieldsGivePatch | server/routes/transactions.js:318-343 | assigning the present fields of a valid PUT body, column by column, yields the patched transaction |
| TransactionRoutes.UpdateMeansPatch | server/routes/transactions.js:318-352 | running the UPDATE sets exactly the present fields and stamps updated_at |
| TransactionRoutes.UpdateStatementInStep | server/routes/transactions.js:348-352 | the UPDATE's placeholders are exactly 1..(number of values) |
| TransactionRoutes.CreateTransaction | server/routes/transactions.js:184-257 | 400 with the error details for an invalid body and 400 for an unknown category, both before any write; otherwise one row appended with the next id, the keys matching `cache:*/transactions*:<user id>` deleted when Redis answers, and 201 with the row |
| TransactionRoutes.UpdateTransaction | server/routes/transactions.js:260-372 | 400 for an invalid body, 404 for a transaction the caller does not own, 400 for an unknown category and 400 with no fields, all before any write; otherwise the row patched and stamped, the keys matching the transaction pattern deleted when Redis answers, and 200 with it |
| TransactionRoutes.DeleteTransaction | server/routes/transactions.js:375-396 | 404 when the caller owns no such transaction; otherwise exactly that row removed, the keys matching the transaction pattern deleted when Redis answers, and 200 |
| TransactionRoutes.WriteKeepsAnalytics | server/routes/transactions.js:236 | as written every cached analytics answer whose query string holds no '/' survives a transaction write unchanged |
| TransactionRoutes.RemoveOwnedRow | server/routes/transactions.js:379-386 | with distinct ids the DELETE removes one row when the caller owns it and none otherwise |
| CategoryRoutes.NameLeTotal | server/routes/categories.js:13 | any two names are ordered one way or the other |
| CategoryRoutes.NameLeTransitive | server/routes/categories.js:13 | the name order is transitive |
| CategoryRoutes.NameLeAntisymmetric | server/routes/categories.js:13 | names ordered both ways are equal |
| CategoryRoutes.InsertByName | server/routes/categories.js:13 | inserting a category into a listing adds exactly that category |
| CategoryRoutes.InsertByNameSorted | server/routes/categories.js:13 | inserting into a listing sorted by name keeps it sorted |
| CategoryRoutes.ListCategories | server/routes/categories.js:12-24 | the listing holds exactly the stored categories |
| CategoryRoutes.ListCategoriesSorted | server/routes/categories.js:12-24 | `ORDER BY name` lists every stored category, sorted by name |
| CategoryRoutes.ListingIsDetermined | server/routes/categories.js:12-24 | with distinct names, the sorted listing is the only arrangement of the categories sorted by name |
| CategoryRoutes.GetCategory | server/routes/categories.js:32-57 | 500 exactly when the id does not cast, 404 exactly when no category has it, otherwise 200 with the stored category of that id |
| CategoryRoutes.CategoryValidation | server/routes/categories.js:60-82 | a body is refused exactly when a required name is missing, a name is not 1 to 50 characters of letters, digits, white space and &, a description is longer than 200 characters or a color is not `#` and six hex digits |
| CategoryRoutes.DefaultColorIsHex | server/routes/categories.js:84 | the default color `#3B82F6` is a color the validators accept |
| CategoryRoutes.BlankNameAccepted | server/routes/categories.js:61-65 | a name of three spaces passes validation though it is blank |
| CategoryRoutes.BuildCategoryUpdate | server/routes/categories.js:173-189 | the SET list and values name exactly the body's fields, in the order name, description, color, with the counter one past them |
| CategoryRoutes.CategoryUpdateMeansPatch | server/routes/categories.js:173-197 | running the UPDATE sets exactly the body's fields of the category |
| CategoryRoutes.CategoryFieldsGivePatch | server/routes/categories.js:178-189 | assigning the present fields in order gives the patched category |
| CategoryRoutes.CategoryUpdateInStep | server/routes/categories.js:195-196 | the UPDATE's placeholders are exactly 1..(number of values) |
| CategoryRoutes.CreateCategory | server/routes/categories.js:60-120 | 400 with the details for an invalid body and 409 for a name already held, both before any write; otherwise one category appended with the next id and the given color or the default, the keys matching `cache:*/categories*` deleted when Redis answers, and 201 |
| CategoryRoutes.UpdateCategory | server/routes/categories.js:123-216 | 400 for an invalid body, 404 for an unknown id, 409 for a name another category holds and 400 with no fields, all before any write; otherwise the category patched, the keys matching the category pattern deleted when Redis answers, and 200 |
| CategoryRoutes.DeleteCategory | server/routes/categories.js:219-252 | 400 while a transaction uses the category, 404 when none has the id, otherwise exactly that category removed, the keys matching the category pattern deleted when Redis answers, and 200 |
| CategoryRoutes.WriteKeepsAnalytics | server/routes/categories.js:104 | as written every cached analytics answer whose query string holds no '/' survives a category write unchanged |
| RedisRetry.RetryStrategy | server/config/redis.js:8-22 | a refused connection gives up first, then a total retry time over an hour gives up, then more than 10 attempts stops, and otherwise the delay is attempt·100 ms capped at 3000 |
| RedisRetry.RefusedComesFirst | server/config/redis.js:9-12 | a refused connection gives up whatever the time spent and the attempt |
| RedisRetry.RetriesExactly | server/config/redis.js:8-22 | the client retries exactly when the connection was not refused, the hour is not spent and at most 10 attempts were made, and then waits between 100 and 1000 ms |
| RedisRetry.DelayNonDecreasing | server/config/redis.js:21 | a later attempt never waits less |
| RedisRetry.StopIsFinal | server/config/redis.js:17-20 | once the attempts stop, later attempts stop too |
| Calendar.DaysInMonth | client/src/pages/Dashboard.js:51 | every month has 28 to 31 days, February 29 in leap years |
| Calendar.OrdinalOrder | server/routes/analytics.js:41-42 | comparing dates field by field (`date >= $2 AND date <= $3`) agrees with comparing their day numbers |
| Calendar.MakeDate | client/src/pages/Dashboard.js:37-51 | `new Date(y, m, d)` is a valid date in month m of year y when d fits the month, and rolls into a later month when it does not |
| Calendar.DayOfWeek | server/routes/analytics.js:257 | `EXTRACT(DOW FROM date)` is a day number from 0 (Sunday) to 6 |
| Calendar.HourOfDay | server/routes/analytics.js:258 | `EXTRACT(HOUR FROM created_at)` is an hour from 0 to 23 |
| Sorting.Insert | server/routes/analytics.js:221 | inserting a row into a listing adds exactly that row |
| Sorting.InsertSorted | server/routes/analytics.js:221 | inserting into a listing sorted by descending (date, created_at) keeps it sorted |
| Sorting.SortDesc | server/routes/analytics.js:221 | `ORDER BY t.date DESC, t.created_at DESC` rearranges the rows into descending (date, created_at) order |
| Sorting.LexLeTotal | server/routes/transactions.js:98 | any two keys are ordered one way or the other |
| Sorting.LexLeTransitive | server/routes/transactions.js:98 | the key order is transitive |
| Sorting.InsertBySorted | server/routes/transactions.js:98 | inserting into a listing sorted on one key, in either direction, keeps it sorted |
| Sorting.SortBy | server/routes/transactions.js:98 | `ORDER BY column direction` rearranges the rows into that key's order |
| Sorting.Window | server/routes/transactions.js:99 | `LIMIT limit OFFSET offset` keeps the rows from position offset on, at most limit of them, none when offset is past the end |
| Sorting.WindowSorted | server/routes/transactions.js:98-99 | a window of a sorted listing is sorted and drawn from it |
| Sorting.WindowDominates | server/routes/transactions.js:98-99 | the rows `OFFSET` skips sort at or before every row of the page, and the rows after the page at or after every row of it |
| Sorting.Take | server/routes/analytics.js:222 | `LIMIT n` keeps the first n rows, or all of them when there are fewer |
| Sorting.PrefixDominates | server/routes/analytics.js:221-222 | in a descending listing every row of the first k is at least as recent as every row after them |
| Sorting.PrefixSorted | server/routes/analytics.js:221-222 | the first k rows of a sorted listing are sorted and drawn from it |
| Sorting.TopOfSorted | server/routes/analytics.js:221-222 | the limited listing holds rows of the input, sorted, none less recent than a row it leaves out |
| Text.DigitChar | server/middleware/cache.js:12 | the digit character of a number below 10 stands for that number |
| Text.NatToString | server/middleware/cache.js:12 | a number's decimal text is one or more digits, a single digit exactly below 10 |
| Text.NatToStringRoundTrip | server/middleware/cache.js:12 | reading a number's decimal text back gives the number |
| Text.NatToStringInjective | server/middleware/cache.js:12 | different numbers have different decimal texts |
| Text.TrimStart | client/src/pages/Login.js:43 | the leading part removed is white space and what is kept does not start with it |
| Text.TrimEnd | client/src/pages/Login.js:43 | the trailing part removed is white space and what is kept does not end with it |
| Text.TrimEmptyIffBlank | client/src/pages/Login.js:43 | `s.trim()` is empty exactly when s is all white space |
| Text.Lower | server/routes/transactions.js:69 | `toLowerCase` maps each character to its lower case, keeping the length |
| Text.Upper | server/routes/transactions.js:69 | `toUpperCase` maps each character to its upper case, keeping the length |
| Text.UpperOfLower | server/routes/transactions.js:69 | upper-casing a lowered text gives the text's upper case |
| Text.Prefix | client/src/components/analytics/SpendingPatternsChart.js:25 | `substring(0, n)` keeps the first n characters, or all of a shorter text |
| DateRanges.FirstOfMonth | client/src/pages/Dashboard.js:39 | `new Date(y, m, 1)` for a month index within the year is the first of that month |
| DateRanges.MonthToDate | client/src/pages/Dashboard.js:37-41 | `month` runs from the first of the current month to today |
| DateRanges.YearRange | client/src/pages/Dashboard.js:42-46 | `year` runs from January 1 to December 31 of the selected year |
| DateRanges.YearToDate | client/src/pages/Analytics.js:51-55 | the analytics fallback runs from January 1 of this year to today |
| DateRanges.QuarterEndAsWritten | client/src/pages/Dashboard.js:47-52 | `new Date(y, q*3+2, 31)` ends the first and fourth quarters on March 31 and December 31, but the second and third on July 1 and October 1 |
| DateRanges.QuarterAsWrittenOverreaches | client/src/pages/Dashboard.js:51 | a mid-year quarter's range as written takes in a valid day of the next quarter |
| DateRanges.Quarter | client/src/pages/Dashboard.js:47-52 | the corrected quarter runs from the first day of its first month to the last day of its third |
| DateRanges.QuarterCovers | client/src/pages/Analytics.js:45-50 | the corrected quarter holds exactly the valid days of the same year and quarter, today among them |
| DateRanges.Config | client/src/pages/Dashboard.js:32-59 | `dateRangeConfig` as written gives the month or year range for those values, the quarter ending on `new Date(y, q*3+2, 31)` for `quarter`, and the page's fallback for any other |
| DateRanges.ConfigCorrected | client/src/pages/Dashboard.js:47-52 | the corrected configuration gives the corrected quarter for `quarter` and otherwise what `dateRangeConfig` gives |
| DateRanges.ConfigsDiffer | client/src/pages/Dashboard.js:47-52 | the two configurations start alike and differ exactly for `quarter` in April to September |
| DateRanges.QuarterAsWrittenHoldsToday | client/src/pages/Dashboard.js:47-52 | the quarter as written starts on the first of its first month and contains today |
| DateRanges.RangesHoldToday | client/src/pages/Dashboard.js:36-58 | with the current year selected, every range contains today, as written and corrected |
| DashboardPage.DashboardRange | client/src/pages/Dashboard.js:32-59 | the dashboard reads any other value as `month`; every range but `year` ends today or is the quarter as written, and no range ends before it starts |
| DashboardPage.DashboardRangeCorrected | client/src/pages/Dashboard.js:47-52 | with the quarter corrected, `quarter` gives the corrected quarter and every other value the dashboard's own range |
| DashboardPage.OverviewCards | client/src/pages/Dashboard.js:92-131 | no cards before the overview loads, then income, expenses, net income and savings rate with their values, the net income styled as a success exactly when it is not negative |
| DashboardPage.RequestKeys | client/src/pages/Dashboard.js:65-79 | the cache keys of the four requests for a range: overview with `&period=`, breakdown with the range, trends with the year and recent with `?limit=5`; `FetchAsWritten` and `Fetch` state what each request then answers |
| DashboardPage.Settle | client/src/pages/Dashboard.js:67-79 | `Promise.all` stores the data exactly when all four requests succeed, each answer in its slot |
| DashboardPage.FetchAsWritten | client/src/pages/Dashboard.js:62-85 | against the handlers as written, over the range as written, the data loads exactly when Redis answers and holds an entry for the breakdown request; otherwise the breakdown's 500 leaves the dashboard without data, and when it loads the breakdown slot holds the replayed error body |
| DashboardPage.SecondLoadReplaysError | client/src/pages/Dashboard.js:62-85 | as written a first load on a store that answers gets 500 for the breakdown and stores its error body, after which a load within the lifetime succeeds |
| DashboardPage.Fetch | client/src/pages/Dashboard.js:62-85 | against the corrected handlers and over the corrected quarter (`DashboardRangeCorrected`) the data always loads; a slot holds the stored body exactly when Redis replays that request, and otherwise the caller's totals or breakdown over the chosen range, twelve months of the selected year, or at most five of the caller's newest transactions |
| AnalyticsPage.AnalyticsRange | client/src/pages/Analytics.js:31-57 | the analytics page reads any other value as this year so far, takes the quarter as written, and no range ends before it starts |
| AnalyticsPage.AnalyticsRangeCorrected | client/src/pages/Analytics.js:45-50 | with the quarter corrected, `quarter` gives the corrected quarter and every other value the page's own range |
| AnalyticsPage.RangesAgree | client/src/pages/Analytics.js:31-57 | the two pages ask for the same month, year and quarter; for any other value they agree exactly in January |
| AnalyticsPage.YearChoices | client/src/pages/Analytics.js:169 | five years, starting with the current one, each one less than the one before |
| AnalyticsPage.YearChoicesAreTheLastFive | client/src/pages/Analytics.js:169 | the choices are exactly this year and the four before it, newest first |
| AnalyticsPage.MonthlyAverage | client/src/pages/Analytics.js:294-312 | nothing before the overview loads, then a twelfth of the total income or expenses |
| AnalyticsPage.HealthScore | client/src/pages/Analytics.js:320-323 | the score is always within 0 to 100 |
| AnalyticsPage.HealthScoreClamps | client/src/pages/Analytics.js:321 | the score is the savings rate plus 50 while that lies within 0 to 100, pinned to the nearer end otherwise, and a better rate never lowers it |
| AnalyticsPage.SavingScoresHalf | client/src/pages/Analytics.js:321 | a range whose expenses do not exceed a positive income scores at least 50 |
| AnalyticsPage.RequestKeys | client/src/pages/Analytics.js:63-77 | the cache keys of the four requests for a range, the patterns request carrying the range; `FetchAsWritten` and `Fetch` state what each request then answers |
| AnalyticsPage.Settle | client/src/pages/Analytics.js:65-77 | `Promise.all` stores the data exactly when all four requests succeed, each answer in its slot |
| AnalyticsPage.FetchAsWritten | client/src/pages/Analytics.js:60-83 | against the handlers as written, over the range as written, the data loads exactly when Redis answers and holds entries for both the breakdown and the patterns requests, and then those slots hold the replayed error bodies |
| AnalyticsPage.SecondLoadReplaysErrors | client/src/pages/Analytics.js:60-83 | as written a first load on a store that answers stores both error bodies, after which a load within the lifetime succeeds |
| AnalyticsPage.Fetch | client/src/pages/Analytics.js:60-83 | against the corrected handlers and over the corrected quarter (`AnalyticsRangeCorrected`) the data always loads; a slot holds the stored body exactly when Redis replays that request, and otherwise the caller's totals, breakdown or patterns over the chosen range, or twelve months of the selected year |
| AuthContext.Reduce | client/src/contexts/AuthContext.js:8-56 | only AUTH_SUCCESS signs in, only AUTH_FAILURE and LOGOUT sign out and drop the token, and only AUTH_FAILURE sets an error; the lemmas below state each action in full |
| AuthContext.InitialState | client/src/contexts/AuthContext.js:59-65 | the provider starts signed out, not loading, without a user or error, holding the token stored in the browser |
| AuthContext.CanEdit | client/src/contexts/AuthContext.js:229-231 | a user may edit unless a signed-in user's role is exactly "read-only" |
| AuthContext.HasRole | client/src/contexts/AuthContext.js:224-226 | `hasRole(r)` holds exactly when a user is signed in and their role is r |
| AuthContext.StartKeepsIdentity | client/src/contexts/AuthContext.js:10-15 | AUTH_START sets loading and clears the error, keeping the user, token and sign-in |
| AuthContext.SuccessSignsIn | client/src/contexts/AuthContext.js:16-24 | AUTH_SUCCESS signs the user in with the token, not loading and with no error |
| AuthContext.FailureAndLogoutSignOut | client/src/contexts/AuthContext.js:25-42 | AUTH_FAILURE signs out keeping the message; LOGOUT is the same without a message |
| AuthContext.UpdateUserOverlays | client/src/contexts/AuthContext.js:43-47 | UPDATE_USER overlays the new fields on the user and keeps every other field and the loading flag |
| AuthContext.ClearErrorOnly | client/src/contexts/AuthContext.js:48-54 | CLEAR_ERROR clears only the error and any other action changes nothing |
| AuthContext.UpdateProfileStaysLoading | client/src/contexts/AuthContext.js:195-203 | after a successful profile update (AUTH_START then UPDATE_USER) the state is left loading |
| AuthContext.ReduceCorrected | client/src/contexts/AuthContext.js:43-47 | the corrected reducer differs only in clearing loading on UPDATE_USER |
| AuthContext.UpdateProfileCorrectedSettles | client/src/contexts/AuthContext.js:195-203 | with the corrected reducer a profile update ends not loading, without error, signed in as before, with the new fields overlaid on the user |
| ThemeContext.Reduce | client/src/contexts/ThemeContext.js:6-21 | TOGGLE_THEME gives light or dark, never the current theme; SET_THEME gives its payload unchecked; any other action keeps the theme |
| ThemeContext.ToggleTwice | client/src/contexts/ThemeContext.js:8-12 | toggling always gives a theme other than the current one, and toggling twice restores light or dark (anything else becomes dark) |
| ThemeContext.OtherActionsIgnored | client/src/contexts/ThemeContext.js:18-19 | an unknown action leaves the theme as it is |
| ThemeContext.InitialTheme | client/src/contexts/ThemeContext.js:24-36 | a stored preference wins; without one the system's dark preference picks dark, otherwise light |
| ThemeContext.SetThemeDispatch | client/src/contexts/ThemeContext.js:74-78 | `setTheme` dispatches exactly for "light" and "dark", with that theme |
| ThemeContext.NeverBothDarkAndLight | client/src/contexts/ThemeContext.js:85-86 | `isDark` and `isLight` never both hold, and one holds exactly for a known theme |
| ThemeContext.UserTheme | client/src/contexts/ThemeContext.js:69-78 | a toggle or `setTheme` keeps a known theme known and never leaves an empty one |
| ThemeContext.Mount | client/src/contexts/ThemeContext.js:39-51 | once mounted, the theme effect has stored the theme shown |
| ThemeContext.Handle | client/src/contexts/ThemeContext.js:47-66 | one event changes the theme as the reducer or the listener says, after which the effect has stored the theme shown |
| ThemeContext.Run | client/src/contexts/ThemeContext.js:47-66 | after one or more events the stored preference is the theme shown; no events change nothing |
| ThemeContext.SystemChangeNeverApplies | client/src/contexts/ThemeContext.js:47-62 | since the effect stores every theme, a system change never alters the theme after any sequence of events |
| ThemeContext.MountedIgnoresSystem | client/src/contexts/ThemeContext.js:47-66 | from mount on, whatever happens, system changes are ignored |
| ThemeContext.HandleCorrected | client/src/contexts/ThemeContext.js:47-62 | corrected: only the user's own choices are stored, system changes leave storage as it was |
| ThemeContext.SystemEventsKeepStorage | client/src/contexts/ThemeContext.js:54-62 | with the correction, a run of system changes leaves storage as it was |
| ThemeContext.CorrectedFollowsSystem | client/src/contexts/ThemeContext.js:54-62 | with the correction and no stored preference, the theme follows the latest system change |
| ThemeContext.CorrectedKeepsUserChoice | client/src/contexts/ThemeContext.js:57-61 | with the correction, once the user chooses a theme it is stored and system changes leave it alone |
| AppRoutes.ProtectedRoute | client/src/App.js:17-42 | a spinner while loading, the login page when signed out, "Access Denied" exactly when editing is required and not allowed, and the page otherwise |
| AppRoutes.Resolve | client/src/App.js:64-107 | the route table: the two public paths, the protected layout with its index redirect and four pages, and `*` to the dashboard; `PagesNeedTheRightState`, `NoRouteDeniesAccess` and `UnknownPathsGoToDashboard` state what each path shows |
| AppRoutes.PublicRoute | client/src/App.js:45-57 | a spinner while loading, the dashboard when signed in, and the page otherwise |
| AppRoutes.PagesNeedTheRightState | client/src/App.js:59-113 | every app page shows only when signed in and settled, the login and register pages only when signed out and settled, and every known path shows the spinner exactly while loading |
| AppRoutes.NoRouteDeniesAccess | client/src/App.js:94-101 | no route asks for editing, so no path shows "Access Denied" and a read-only user reaches the transactions page |
| AppRoutes.UnknownPathsGoToDashboard | client/src/App.js:92-107 | an unknown path and `/` for a signed-in user redirect to the dashboard |
| AppRoutes.RedirectsSettle | client/src/App.js:59-113 | once not loading, at most two redirects reach a page: an app page when signed in, login or register when not |
| AppRoutes.ProfileUpdateLeavesSpinner | client/src/App.js:17-57 | after a successful profile update every route shows the spinner |
| AppRoutes.CorrectedProfileUpdateShowsProfile | client/src/App.js:84-104 | with the corrected reducer the profile page shows again after the update |
| Sidebar.Filter | client/src/components/layout/Sidebar.js:45-49 | the filtered navigation keeps exactly the entries the user may see, in order |
| Sidebar.FilterAppend | client/src/components/layout/Sidebar.js:45-49 | filtering two lists joined is joining their filtered lists |
| Sidebar.FilterKeepsDistinct | client/src/components/layout/Sidebar.js:45-49 | filtering keeps the links distinct |
| Sidebar.WhatEachUserSees | client/src/components/layout/Sidebar.js:17-49 | an editor sees all four entries; a read-only user sees Dashboard, Analytics and Profile |
| Sidebar.ReadOnlyUserSees | client/src/components/layout/Sidebar.js:45-49 | a "read-only" user's sidebar holds Dashboard, Analytics and Profile, in that order |
| Sidebar.LockNeverShown | client/src/components/layout/Sidebar.js:85-86 | the lock icon's condition never holds for an entry the filter kept |
| Sidebar.EntriesLeadToPages | client/src/components/layout/Sidebar.js:68-76 | every entry a signed-in user sees links to a path that shows a page |
| Forms.HandleChange | client/src/pages/Register.js:28-42 | `handleChange` sets the named field, keeps every other field, and blanks that field's error while keeping the others |
| Forms.ChangesCommute | client/src/pages/Login.js:24-38 | edits to two different fields give the same form and errors in either order |
| Forms.EmailSplitChars | client/src/pages/Register.js:59 | in an address split at its '@', every other character is neither white space nor '@' |
| Forms.EmailPatternMeans | client/src/pages/Register.js:59 | an address the pattern accepts has no white space, exactly one '@' with text on both sides, and is not blank |
| Forms.EmailNotBlank | client/src/pages/Profile.js:53 | an address the pattern accepts is never blank |
| Forms.EmailAccepted | client/src/pages/Register.js:59 | "a@b.c" is accepted |
| Forms.EmailWithoutDotRejected | client/src/pages/Register.js:59 | "a@b" is refused for want of a dot after the '@' |
| Forms.EmailWithSpaceRejected | client/src/pages/Register.js:59 | "a b@c.d" is refused for its space |
| RegisterForm.WordsAreNotBlank | client/src/pages/Register.js:48-54 | a username of letters, digits and underscores is never blank |
| RegisterForm.UsernameRule | client/src/pages/Register.js:48-54 | no username error exactly when it has at least 3 characters, all letters, digits or underscores; "required" exactly when blank; "too short" exactly when not blank but under 3 |
| RegisterForm.EmailRule | client/src/pages/Register.js:57-61 | no e-mail error exactly when the pattern accepts it; "required" exactly when blank |
| RegisterForm.PasswordRule | client/src/pages/Register.js:64-70 | no password error exactly when it has at least 6 characters with a lower-case letter, an upper-case letter and a digit; "required" exactly when empty; "too short" exactly for 1 to 5 characters |
| RegisterForm.ConfirmError | client/src/pages/Register.js:73-77 | no confirmation error exactly when it is given and equals the password; "please confirm" exactly when it is empty |
| RegisterForm.NameError | client/src/pages/Register.js:80-87 | a name has an error exactly when it is longer than 50 characters |
| RegisterForm.Collect | client/src/pages/Register.js:44-90 | the error map holds exactly the messages found, field by field, never one for the role, and is empty exactly when none was found |
| RegisterForm.Validate | client/src/pages/Register.js:44-91 | `validateForm` reports each field's first failed rule and succeeds exactly when no rule fails |
| RegisterForm.ValidIffAllRulesHold | client/src/pages/Register.js:44-91 | the form is valid exactly when the username, e-mail, password, confirmation and name rules all hold |
| RegisterForm.InitialErrors | client/src/pages/Register.js:7-15 | the empty form reports username, e-mail, password and confirmation as required and no name error |
| RegisterForm.Payload | client/src/pages/Register.js:100 | the payload is the form without the confirmation |
| RegisterForm.Submit | client/src/pages/Register.js:93-106 | the form is sent exactly when valid, without the confirmation, with a password that matches it, of at least 6 characters, and a well-formed username |
| LoginForm.UsernameError | client/src/pages/Login.js:43-45 | no username error exactly when it is not blank |
| LoginForm.PasswordError | client/src/pages/Login.js:47-51 | "required", then "at least 6 characters"; `Rules` states that it passes exactly with at least 6 characters and says "too short" exactly for 1 to 5 |
| LoginForm.Rules | client/src/pages/Login.js:40-55 | no username error exactly when it is not blank; no password error exactly when it has at least 6 characters; "too short" exactly for 1 to 5 |
| LoginForm.Validate | client/src/pages/Login.js:40-55 | `validateForm` reports each field's error and succeeds exactly when the username is not blank and the password has at least 6 characters |
| LoginForm.Submit | client/src/pages/Login.js:57-68 | the form is sent unchanged exactly when it is valid |
| LoginForm.ValidateInitial | client/src/pages/Login.js:8-11 | the empty form reports both fields as required |
| ProfileForm.FormOfReadsUser | client/src/pages/Profile.js:16-24 | the form holds the user's first name, last name and e-mail, an empty text for a missing one |
| ProfileForm.Cancel | client/src/pages/Profile.js:74-82 | cancelling leaves edit mode, clears the errors and reloads every field from the user |
| ProfileForm.CancelUndoesEdits | client/src/pages/Profile.js:74-82 | an edit followed by cancel gives back the form loaded from the user |
| ProfileForm.NameError | client/src/pages/Profile.js:45-51 | a name has an error exactly when it is longer than 50 characters |
| ProfileForm.EmailError | client/src/pages/Profile.js:53-55 | an e-mail has no error exactly when it is empty or the pattern accepts it |
| ProfileForm.Validate | client/src/pages/Profile.js:42-59 | `validateForm` reports each field's error and succeeds exactly when the names fit and any e-mail is well formed, that is when no error was recorded |
| ProfileForm.Submit | client/src/pages/Profile.js:61-72 | the form is sent unchanged exactly when it has no errors |
| ProfileForm.RoleColor | client/src/pages/Profile.js:84-95 | the badge colour per role with a default; `RoleStylesDistinct` states that the three roles' colours differ from each other and from the default |
| ProfileForm.RoleIcon | client/src/pages/Profile.js:97-108 | the badge icon per role with a default; `RoleStylesDistinct` states that they are distinct |
| ProfileForm.PermissionsLabel | client/src/pages/Profile.js:322-324 | the permissions label; `LabelAgreesWithCanEdit` states that it is "View Only" exactly for a role that cannot edit or is unknown |
| ProfileForm.RoleStylesDistinct | client/src/pages/Profile.js:84-108 | admin, user and read-only have distinct colours and icons, each different from an unknown role's |
| ProfileForm.LabelAgreesWithCanEdit | client/src/pages/Profile.js:322-324 | for a known role "View Only" is shown exactly when the user cannot edit; an unknown role is labelled "View Only" though it can edit |
| TransactionForm.Initial | client/src/components/transactions/TransactionForm.js:5-11 | a new form is blank but for the type, expense, and the date, today |
| TransactionForm.ParseFloat | client/src/components/transactions/TransactionForm.js:46 | `parseFloat` after leading white space and a sign; `UnsignedDecimal` and `ParseCentsText` state what it reads |
| TransactionForm.UnsignedDecimal | client/src/components/transactions/TransactionForm.js:46 | `parseFloat` reads digits, a point and digits as the whole part plus the fraction over its power of ten |
| TransactionForm.ParseCentsText | client/src/components/transactions/TransactionForm.js:46 | `parseFloat` reads an amount typed with two decimals back as that many cents |
| TransactionForm.TypedAmountRule | client/src/components/transactions/TransactionForm.js:46-48 | a typed amount passes exactly when it is more than zero cents |
| TransactionForm.AmountError | client/src/components/transactions/TransactionForm.js:46-48 | the amount check; `TypedAmountRule` and `AmountExamples` state that a typed amount passes exactly when it is above zero and that NaN passes |
| TransactionForm.AmountExamples | client/src/components/transactions/TransactionForm.js:46-48 | "-5" and the empty text are refused, while "abc", which `parseFloat` reads as NaN, passes |
| TransactionForm.Validate | client/src/components/transactions/TransactionForm.js:43-64 | `validateForm` reports the amount, category, date and description errors, none for the type, and succeeds exactly when it reports none |
| TransactionForm.CleanMeans | client/src/components/transactions/TransactionForm.js:43-64 | the form is valid exactly when the amount is given and parses to NaN or a positive number, a category and a date are chosen and the description has at most 500 characters |
| TransactionForm.Submit | client/src/components/transactions/TransactionForm.js:66-84 | the form is sent exactly when valid, with the amount replaced by its `parseFloat` value and every other field as typed |
| TransactionForm.OrElse | client/src/components/transactions/TransactionForm.js:18-22 | `x \|\| fallback` keeps a non-empty value and takes the fallback otherwise |
| TransactionForm.EditShowsTransaction | client/src/components/transactions/TransactionForm.js:15-25 | editing loads the transaction's type (default expense), date (default today), description and amount, and its category id written out so that it reads back as the same id |
| TransactionForm.EditedFormChecksOnlyAmount | client/src/components/transactions/TransactionForm.js:15-64 | for a loaded transaction with a category, a date and a short description, only the amount can fail validation |
| TransactionForm.FilteredCategories | client/src/components/transactions/TransactionForm.js:86-88 | the offered categories are exactly those whose lower-cased name is not "income", or all of them for an income |
| TransactionForm.FilteredAppend | client/src/components/transactions/TransactionForm.js:86-88 | filtering two lists joined is joining their filtered lists |
| TransactionForm.IncomeOffersAll | client/src/components/transactions/TransactionForm.js:86-88 | an income is offered every category |
| TransactionForm.ExpenseHidesIncome | client/src/components/transactions/TransactionForm.js:86-88 | an expense is never offered a category named "Income" in any case, and is offered every other category |
| TransactionFilters.HandleChange | client/src/components/transactions/TransactionFilters.js:5-7 | a control emits a patch of exactly its own field with the new value |
| TransactionFilters.ActiveIffSomeCriterion | client/src/components/transactions/TransactionFilters.js:21-22 | filters are active exactly when search, type, category, start or end date is non-empty |
| TransactionFilters.SortingIsNotFiltering | client/src/components/transactions/TransactionFilters.js:21-22 | changing the sort field or order never changes whether filters are active |
| TransactionFilters.CriterionActivates | client/src/components/transactions/TransactionFilters.js:5-22 | setting a criterion to a non-empty value makes filters active |
| TransactionFilters.ClearDeactivates | client/src/components/transactions/TransactionFilters.js:9-22 | "Clear all" leaves no filter active, sorts by date descending and adds no other field |
| TransactionsPage.Page.constructor | client/src/pages/Transactions.js:20-36 | the page starts on page 1 of 20 rows with no filter active and the form closed |
| TransactionsPage.Page.HandleFilterChange | client/src/pages/Transactions.js:78-81 | the patch is merged over the filters, every other field kept, and the page reset to 1 |
| TransactionsPage.Page.QuickFilter | client/src/components/transactions/TransactionFilters.js:193-218 | a quick filter sets both dates, makes filters active, and resets the page to 1 |
| TransactionsPage.Page.ClearFilters | client/src/components/transactions/TransactionFilters.js:9-19 | clearing through the page leaves no filter active and resets the page to 1 |
| TransactionsPage.Page.HandlePageChange | client/src/pages/Transactions.js:84-86 | only the page number changes |
| TransactionsPage.Page.HandleLoaded | client/src/pages/Transactions.js:49-51 | a fetch's answer replaces the pagination and nothing else |
| TransactionsPage.Page.HandleEdit | client/src/pages/Transactions.js:107-110 | editing opens the form on that transaction, filters and pagination unchanged |
| TransactionsPage.Page.HandleFormClose | client/src/pages/Transactions.js:127-130 | closing the form forgets the edited transaction |
| TransactionsPage.Page.SubmitRequest | client/src/pages/Transactions.js:89-95 | a PUT to `/transactions/<id>` exactly when editing, a POST to `/transactions` otherwise, with the form's submission as body |
| TransactionsPage.PatchesCompose | client/src/pages/Transactions.js:78-79 | two patches applied in turn equal the two merged in order |
| TransactionsPage.PutPathsDistinct | client/src/pages/Transactions.js:92 | different transactions are updated through different paths |
| TransactionsPage.EditThenClose | client/src/pages/Transactions.js:107-130 | an edit shows that transaction in the form, and after closing the next form starts blank |
| TransactionList.BarFor | client/src/components/transactions/TransactionList.js:173-215 | the bar's range, arrows and buttons for a pagination; `RangeIsThePage`, `ArrowsStayInRange` and `ActiveButton` state what they show |
| TransactionList.Buttons | client/src/components/transactions/TransactionList.js:193-210 | at most five numbered buttons, 1 upwards, the current page's active |
| TransactionList.PaginationBar | client/src/components/transactions/TransactionList.js:37-173 | the bar shows exactly when the list is not loading, has rows and there is more than one page |
| TransactionList.ListView | client/src/components/transactions/TransactionList.js:37-173 | the placeholders exactly while loading, "No transactions found" exactly when not loading and no row arrived, otherwise the rows with the bar as `PaginationBar` decides |
| TransactionList.RangeIsThePage | client/src/components/transactions/TransactionList.js:177-179 | "Showing a to b of n" names exactly the rows of the current page |
| TransactionList.ArrowsStayInRange | client/src/components/transactions/TransactionList.js:183-215 | an enabled Previous or Next leads to a page that exists, and Previous is disabled exactly on page 1 |
| TransactionList.ActiveButton | client/src/components/transactions/TransactionList.js:193-210 | exactly the current page's button is active while it is among the first five, and none beyond them |
| TransactionList.RangeCountsListedRows | client/src/components/transactions/TransactionList.js:177-179 | for a page within range, "Showing a to b" counts exactly the rows the server listed |
| TransactionList.PageWithinCount | client/src/components/transactions/TransactionList.js:177-179 | for a page within range, the shown range holds `limit` rows or what remains of the total |
| TransactionList.PagePastTheEnd | client/src/components/transactions/TransactionList.js:60-173 | on a page past the last the server lists no row, so the list shows "No transactions found" and no bar |
| TransactionList.SignPrefix | client/src/components/transactions/TransactionList.js:132 | an amount is shown with "+" exactly for an income, "-" otherwise |
| TransactionList.Actions | client/src/components/transactions/TransactionList.js:139-164 | an editor gets Edit and Delete, anyone else View alone |
| TransactionList.ViewingOpensTheEditor | client/src/components/transactions/TransactionList.js:139-164 | Delete is offered exactly to editors, and View calls the same handler as Edit |
| SpendingPatternsChart.DaysAreTheDays | client/src/components/analytics/SpendingPatternsChart.js:14-22 | the accumulator's keys are distinct and are exactly the day names that occur |
| SpendingPatternsChart.AbsentDayIsZero | client/src/components/analytics/SpendingPatternsChart.js:14-22 | a day that does not occur contributes nothing |
| SpendingPatternsChart.GroupByDay | client/src/components/analytics/SpendingPatternsChart.js:14-22 | the reduce gives one bucket per day, in first-appearance order, holding that day's amount (average times count) and count |
| SpendingPatternsChart.SumOverOneMore | client/src/components/analytics/SpendingPatternsChart.js:19-20 | one more group adds its weight to its own day only |
| SpendingPatternsChart.BucketsAddUp | client/src/components/analytics/SpendingPatternsChart.js:14-22 | the buckets together hold the whole amount and count |
| SpendingPatternsChart.ChartData | client/src/components/analytics/SpendingPatternsChart.js:24-28 | one bar per bucket, labelled with at most three leading letters of its day, with its amount, count and the colour of its position |
| SpendingPatternsChart.Chart | client/src/components/analytics/SpendingPatternsChart.js:4-28 | no chart without patterns; otherwise one bar per day that occurs, each with that day's amount and count |
| SpendingPatternsChart.LabelsDistinct | client/src/components/analytics/SpendingPatternsChart.js:25 | the seven three-letter labels are distinct |

## Left out

- PostgreSQL itself is not modelled. Each query is a function over the stored rows. `TransactionRoutes.Casts` stands for the server's casting of the text parameters it binds. `ORDER BY name` and `ORDER BY t.description` compare code points, as the C collation does (`CategoryRoutes.NameLe`, `TransactionRoutes.SortKey`); a database with another collation orders text by its own rules.
- The JSON row mapping is left out, including the `parseFloat` that turns a stored `DECIMAL` amount into a number. Amounts stay integer cents throughout.
- The server entry point, the rate limiter, the JWT and bcrypt authentication middleware and the role check are left out. Each handler receives the authenticated user's id as a parameter and runs as though the role check passed.
- The Redis client, its network connection, connection events and concurrent requests filling the same key are left out. Expiry is an explicit step on the store, not wall-clock time. The model does not establish that the client library calls `retry_strategy` the way the option documents.
- express-validator's `isISO8601` is abstracted: a query date is either a given date or malformed text.
- Floating point is left out. Money is integer cents. `Math.round` and `AVG` are computed on exact rationals. `parseFloat` reads a decimal prefix only, with no exponent, `Infinity` or hexadecimal form.
- `Intl.NumberFormat`, date-fns `format` and `toLocaleString` (display formatting only) are left out.
- The host time zone is left out: every date is a UTC calendar day, and the clock is a parameter.
- Text lengths count characters, not UTF-16 code units.
- `toLowerCase` and `toUpperCase` map ASCII letters only. Trimming uses the ECMAScript white-space and line-terminator set.
- React rendering, effects scheduling, axios, `localStorage`, toasts and `window.confirm` are left out. The reducers, guards and handlers are modelled as the state changes they make.
- The transactions page's `handleDelete` and `fetchTransactions` (a request and a toast, with no logic of their own) are left out.
- The asynchronous `login`, `register` and `fetchProfile` actions of the authentication context are modelled only through the reducer actions they dispatch.
- Purely presentational components (layout, cards, the header and the chart wrappers other than the spending-patterns data shaping) are left out.
- TransactionRoutes.ListReply: rows whose sort keys tie are listed in join order. PostgreSQL leaves their order open, so the model fixes which tied rows fall on each side of a page boundary.
- TransactionRoutes.UpdateTransaction, CategoryRoutes.UpdateCategory: a PUT body field is either absent or a value, so a JSON `null` cannot be sent. The handlers' `!== undefined` tests let `null` through, so a `null` description would clear the column. The model does not cover clearing a description this way.
- AppRoutes.UnknownPathsGoToDashboard: paths are matched as exact strings. React Router also matches them case-insensitively and with a trailing slash, so `/Dashboard` or `/transactions/` reach a page in the app, while here they count as unknown paths.
- Calendar.MakeDate: `new Date(y, m, d)` reads a year from 0 to 99 as 1900 + y, and the model takes the year as given. The year selectors only offer the current year and the four before it, so such a year never reaches the date ranges.
- Cache.Seconds: states that every lifetime lies between 300 and 3600 seconds and that the analytics lifetime is 900 seconds, not each lifetime's exact value, because only those facts are used elsewhere in the model.

## Findings

| source | as written | input that shows it | evidently intended | confidence | as-written member | corrected member |
|---|---|---|---|---|---|---|
| server/routes/analytics.js:125-129 | the category-breakdown handler puts `startDate` and `endDate` in its reply, but neither is declared in it, so building the reply throws and the handler answers 500 | any request to the category breakdown, such as one with no query at all | the range computed from the query, as the overview handler uses | high; not executed | AnalyticsRoutes.CategoryBreakdownAsWritten | AnalyticsRoutes.CategoryBreakdown |
| server/routes/analytics.js:283-287 | the spending-patterns handler uses the same undeclared names and always answers 500 | any request to the spending patterns | the range computed from the query | high; not executed | AnalyticsRoutes.SpendingPatternsAsWritten | AnalyticsRoutes.SpendingPatterns |
| server/routes/transactions.js:236 | a transaction write invalidates the pattern `cache:*/transactions*:<user id>`, which matches no analytics key whose query string holds no '/' (every key the client's requests produce), so the analytics stay stale for up to 15 minutes | user 7 reads the overview, then creates a transaction; the overview entry survives | the user's analytics entries are dropped as well | high; not executed | TransactionRoutes.WriteKeepsAnalytics | Cache.AfterTransactionWriteRemovesAnalytics |
| server/routes/categories.js:104 | a category write invalidates only `cache:*/categories*`, leaving every analytics entry whose query string holds no '/', such as a breakdown that shows the category's old name | renaming a category after a user has read the breakdown | the analytics entries are dropped as well | high; not executed | CategoryRoutes.WriteKeepsAnalytics | Cache.AfterCategoryWriteRemovesAnalytics |
| server/middleware/cache.js:26-33 | the wrapped `res.json` stores every body, whatever the status, so an error body is cached and later replayed with status 200 | an analytics request whose handler answers 500; the same URL again answers 200 with the error body | only successful answers are stored | high; not executed | Cache.ErrorReplayedAsSuccess | Cache.FailureNotReplayed |
| client/src/pages/Dashboard.js:51 | `new Date(year, quarter * 3 + 2, 31)` rolls over to July 1 and October 1 for the second and third quarters (the same line is at client/src/pages/Analytics.js:49) | today is 2026-05-10: the quarter range ends on 2026-07-01 | the last day of the quarter's third month | high; not executed | DateRanges.QuarterEndAsWritten | DateRanges.Quarter |
| client/src/contexts/AuthContext.js:195-203 | `updateProfile` dispatches `AUTH_START` and, on success, `UPDATE_USER`; the reducer's `UPDATE_USER` case (lines 43-47) keeps `loading`, so the state stays loading and the route guards keep showing the spinner | any successful profile update from a signed-in, idle state | the update ends the loading that `AUTH_START` began | high; not executed | AuthContext.UpdateProfileStaysLoading | AuthContext.UpdateProfileCorrectedSettles |
| client/src/contexts/ThemeContext.js:47-51 | the effect that stores the theme runs on the first render, so the saved value always exists and a change of the system preference is never applied | no saved theme, then the system switches to dark | the theme follows the system until the user chooses one | high; not executed | ThemeContext.SystemChangeNeverApplies | ThemeContext.CorrectedFollowsSystem |
