# Expense manager front end — a verified model of its client-side logic

The application is a Next.js front end for a personal expense tracker. Its pages
talk to a separate HTTP API. Beneath the fetch calls and the JSX there is a thin
layer of client logic, and this project models that layer in Dafny:

- **Session store and route guard.** The session is two localStorage slots, `token`
  and `userId`. `AuthWrapper` runs on every pathname change and does one of three
  things: it signs the visitor out and goes to `/login`, it goes to `/dashboard`, or it
  lets the page render. Login writes the two slots. Logout clears both.
- **Dashboard.** The data fetch checks the credentials first, then the format of
  `userId` (exactly 24 hex digits). It then accepts the three replies (transactions,
  categories, user) all or nothing. The page then derives some figures: the
  transactions of the selected month, the monthly expense and revenue totals, the spend
  per category for the pie chart and the category cards, and each card's budget meter.
- **Categories.** The initial load. A new category is appended only after the server
  answers. A budget edit replaces the budget of the entry with a given id, only after
  success.
- **Transactions form.** Expenses need a category. The request body carries a
  category only for expenses. The request month is 1-based. Choosing revenue clears the
  category. The first category fetched is preselected.

Modules:

| module | file | models |
|---|---|---|
| `Wrappers` | wrappers.dfy | `Option` for nullable JavaScript values |
| `Domain` | domain.dfy | transactions, categories, dates, the abstract HTTP reply |
| `Session` | session.dfy | the `SessionStore` class: both slots plus the router's last push |
| `Guard` | guard.dfy | `src/components/AuthWrapper.tsx` |
| `Aggregation` | aggregation.dfy | the derived figures of `src/app/dashboard/page.tsx` |
| `Dashboard` | dashboard.dfy | the state and handlers of `src/app/dashboard/page.tsx` |
| `Categories` | categories.dfy | `src/app/categories/page.tsx` |
| `Transactions` | transactions.dfy | `src/app/transactions/page.tsx` |
| `Login` | login.dfy | `src/app/login/page.tsx` |

Conventions:

- Network replies and dates are inputs. Each request is answered by a
  `Reply<T>`: either `NetworkError` (the fetch rejects), or `Answered(ok, body)`, where
  `body` is `None` when `response.json()` would throw or the JSON lacks the shape the
  page reads.
- A handler that issues a request returns its body (or whether it was issued), so
  "no request" can be stated.
- A slot is *present* under JavaScript truthiness, so `null` and `""` are both missing.
- Amounts are exact integer cents. Percentages are exact reals.
- Transactions carry an explicit `Date(year, month, day)` with a 0-based month, in
  place of the date string the source parses.
- Two handlers keep a flag raised while their request is in flight: login's
  `isLoading` and the category form's `isSubmitting`. Each is split into a `Begin…`
  half (up to the request) and a `Finish…` half (once it has settled), so the raised
  flag is observable.

Behaviours of the code that a reader might not expect; the model keeps them:

- A session is meant to hold both slots or neither. Login writes `token` before it
  reads `data.user.id`. So a success body without `user` leaves the new token written
  and the userId as it was (`Login.LoginPage.FinishSubmit`). When no userId was stored,
  this is a half session, and the guard clears it on the next gated page
  (`Guard.GatedPageSessionIsWhole`). When an older userId was stored, the pair counts as
  signed in and the guard lets it through.
- A missing `token` or `user.id` in a success body is stored as the text "undefined".
  That text counts as present (`Login.LoginSessionPassesGuard`).
- Only the dashboard checks the userId format. The categories page checks only
  presence. The transactions page checks nothing and posts the raw slot value as `user`.

## Model

| member | source | states |
|---|---|---|
| `Domain.ServerErrorOr` | src/app/login/page.tsx:36 | `data.error \|\| fallback`: the server's message when present and non-empty, otherwise the fallback; never empty when the fallback is not |
| `Session.StoredText` | src/app/login/page.tsx:31-32 | `setItem` of a JSON string stores it unchanged; an undefined field is stored as "undefined" |
| `Session.SessionStore.constructor` | src/components/AuthWrapper.tsx:16-17 | the store starts with the given slots and no navigation |
| `Session.SessionStore.SetToken` | src/app/login/page.tsx:31 | writing the token slot |
| `Session.SessionStore.SetUserId` | src/app/login/page.tsx:32 | writing the userId slot |
| `Session.SessionStore.Clear` | src/components/AuthWrapper.tsx:21-22 | removing both keys leaves both slots empty |
| `Session.SessionStore.Navigate` | src/components/AuthWrapper.tsx:23 | `router.push` records the path as the last navigation |
| `Session.Present` | src/components/AuthWrapper.tsx:20 | JavaScript truthiness of a stored slot: a missing key and the empty string are missing, any non-empty string is present |
| `Guard.Decide` | src/components/AuthWrapper.tsx:18-26 | three mutually exclusive, exhaustive outcomes: sign out iff a credential is missing off the auth pages; dashboard iff both are present on an auth page; otherwise stay |
| `Guard.IsAuthPage` | src/components/AuthWrapper.tsx:18 | the auth pages are exactly `/login` and `/signup`; every other path, the dashboard included, is gated |
| `Guard.DecideFor` | src/components/AuthWrapper.tsx:16-26 | for a stored session: sign out iff not signed in off the auth pages; dashboard iff signed in on an auth page |
| `Guard.AfterGuard` | src/components/AuthWrapper.tsx:20-23 | storage is cleared exactly in the sign-out case and is otherwise untouched |
| `Guard.Target` | src/components/AuthWrapper.tsx:20-26 | a route is pushed in every case except "stay" |
| `Guard.GuardIdempotent` | src/components/AuthWrapper.tsx:20-23 | running the guard twice on a path leaves the same storage as running it once, and a sign-out is repeated on the second run |
| `Guard.GatedPageSessionIsWhole` | src/components/AuthWrapper.tsx:16-23 | after the guard on a gated page both slots are present or both are removed |
| `Guard.AuthWrapper.constructor` | src/components/AuthWrapper.tsx:11 | the wrapper starts in the loading state |
| `Guard.AuthWrapper.Check` | src/components/AuthWrapper.tsx:15-28 | loading ends false in every branch; missing credentials off `/login` and `/signup` clear both keys and go to `/login`; both present on an auth page go to `/dashboard` with storage unchanged; the other two cases change nothing |
| `Guard.CheckTwice` | src/components/AuthWrapper.tsx:15-28 | two checks on a gated page with a half session end with both slots cleared and `/login` pushed |
| `Aggregation.Filter` | src/app/dashboard/page.tsx:44-48 | the result holds exactly the input elements satisfying the predicate and is no longer than the input |
| `Aggregation.FilterAppend` | src/app/dashboard/page.tsx:44-48 | filtering distributes over concatenation, so the input order is kept |
| `Aggregation.TotalAppend` | src/app/dashboard/page.tsx:50-52 | the amount sum of a concatenation is the sum of the sums |
| `Aggregation.Total` | src/app/dashboard/page.tsx:52 | the reduce sum of one transaction is its amount; with no negative amounts the sum is not negative |
| `Aggregation.TotalOfDisjointFilters` | src/app/dashboard/page.tsx:50-56 | the total over two disjoint conditions is the sum of the two totals |
| `Aggregation.FilteredTransactionsExact` | src/app/dashboard/page.tsx:44-48 | `filteredTransactions` holds exactly the transactions of the selected month and year, in order: it splits at the head and over any concatenation |
| `Aggregation.FilteredTransactions` | src/app/dashboard/page.tsx:44-48 | holds exactly the transactions of the selected month and year, and no more than the input |
| `Aggregation.MonthlyTotal` | src/app/dashboard/page.tsx:50-56 | `monthlyExpenses` / `monthlyRevenue` equal the one-pass sum of exactly the amounts of that type in that period |
| `Aggregation.PipelineIsSumWhere` | src/app/dashboard/page.tsx:50-56 | filtering by period, then by type, then summing equals the independent one-pass sum |
| `Aggregation.MonthlyTotalEmpty` | src/app/dashboard/page.tsx:50-56 | both monthly totals are 0 for no transactions |
| `Aggregation.MonthlyTotalAppend` | src/app/dashboard/page.tsx:50-56 | the monthly totals add over concatenated transaction lists |
| `Aggregation.OtherPeriodIgnored` | src/app/dashboard/page.tsx:44-56 | a transaction of another month or year does not change either monthly total |
| `Aggregation.MonthlyTotalsPartition` | src/app/dashboard/page.tsx:50-56 | monthly expenses plus monthly revenue is the sum of all the month's transactions |
| `Aggregation.MarchExample` | src/app/dashboard/page.tsx:44-56 | expenses of 10.00, 20.00 and 30.00 in March 2024 and one in April total 60.00 for March, with 0 revenue |
| `Aggregation.NoMatchingExpenseSpendsZero` | src/app/dashboard/page.tsx:221-223 | a category without matching expenses shows 0 spend |
| `Aggregation.CategorySpend` | src/app/dashboard/page.tsx:495-497 | per-category spend equals the one-pass sum of the amounts of expenses with that category name, over all the given transactions |
| `Aggregation.SpendPipelineIsExpenseSum` | src/app/dashboard/page.tsx:221-223 | filtering the category's expenses and summing equals the one-pass sum; revenue and other categories add nothing |
| `Aggregation.CategoryExpenses` | src/app/dashboard/page.tsx:220-228 | one entry per category, in order, with that category's name and its spend |
| `Aggregation.ExpenseDataByCategory` | src/app/dashboard/page.tsx:230-234 | labels and data have the length and order of `categories`; `labels[i]` is its name and `data[i]` its spend |
| `Aggregation.SpendTotalIsExpensesInCategories` | src/app/dashboard/page.tsx:219-228 | with distinct names, the per-category spends add up to the total of the expenses whose category is one of them |
| `Aggregation.ChartSumIsSpendTotal` | src/app/dashboard/page.tsx:230-234 | the chart's data adds up to the sum of the per-category spends |
| `Aggregation.ChartSumsToCategorizedExpenses` | src/app/dashboard/page.tsx:219-234 | with distinct category names, the pie's slices add up to the expenses booked under those categories, none counted twice |
| `Aggregation.BudgetMeter` | src/app/dashboard/page.tsx:498-514 | no meter exactly for a zero budget; otherwise the percentage is spend ÷ budget × 100; the over-budget style iff the percentage exceeds 100; the bar width is min(percentage, 100), so never above 100, and full iff the percentage reaches 100 |
| `Aggregation.OverBudgetIffOverspent` | src/app/dashboard/page.tsx:498-514 | with a positive budget the card is over budget iff spend exceeds the budget, and the bar is full iff spend reaches it |
| `Aggregation.CategoryCards` | src/app/dashboard/page.tsx:494-514 | one card per category, in order, with the spend over all the given transactions and the meter of that spend against its budget |
| `Aggregation.SpendIgnoresSelectedMonth` | src/app/dashboard/page.tsx:219-228 | the chart and cards do not follow the month selector: a March expense shows as spend with April selected, while the April-filtered list would give 0 |
| `Dashboard.HexRunIff` | src/app/dashboard/page.tsx:81 | the pattern "exactly n hex digits" accepts exactly the strings of length n whose characters are all in 0-9, a-f, A-F |
| `Dashboard.ValidUserId` | src/app/dashboard/page.tsx:81 | a userId passes iff it has length 24 and only hex digits |
| `Dashboard.ObjectIdAccepted` | src/app/dashboard/page.tsx:81 | a 24-digit ObjectId is accepted |
| `Dashboard.MalformedUserIdsRejected` | src/app/dashboard/page.tsx:81-90 | 25 characters, or a non-hex letter, are rejected |
| `Dashboard.Accept` | src/app/dashboard/page.tsx:125-172 | the three replies are accepted iff all answered ok, both lists are arrays and the balance is a number; then exactly their contents are taken |
| `Dashboard.AnyFailureRejects` | src/app/dashboard/page.tsx:125-151 | one failed or non-ok reply rejects the whole load |
| `Dashboard.DashboardPage.constructor` | src/app/dashboard/page.tsx:28-34 | empty data, loading, no error, the current month and year selected |
| `Dashboard.DashboardPage.FetchData` | src/app/dashboard/page.tsx:59-184 | loading ends false; requests are issued iff both credentials are present and the userId is well-formed; missing credentials go to `/login` and set no error; a malformed userId sets the format error; accepted replies replace transactions, categories and balance and clear the error; any other outcome sets the single load error and keeps the old data |
| `Dashboard.DashboardPage.SelectMonth` | src/app/dashboard/page.tsx:302 | the month selector sets the 0-based month |
| `Dashboard.DashboardPage.SelectYear` | src/app/dashboard/page.tsx:313 | the year selector sets the year |
| `Dashboard.DashboardPage.Visible` | src/app/dashboard/page.tsx:44-48 | the rendered list holds exactly the loaded transactions of the selected period |
| `Dashboard.DashboardPage.MonthlyExpenses` | src/app/dashboard/page.tsx:50-52 | equals the one-pass sum of the selected period's expense amounts |
| `Dashboard.DashboardPage.MonthlyRevenue` | src/app/dashboard/page.tsx:54-56 | equals the one-pass sum of the selected period's revenue amounts |
| `Dashboard.DashboardPage.CategoryChart` | src/app/dashboard/page.tsx:219-234 | one label and one value per loaded category, in order; each value is the spend over all loaded transactions, not the month-filtered ones |
| `Dashboard.DashboardPage.Cards` | src/app/dashboard/page.tsx:494-514 | one card per loaded category with its spend over all loaded transactions and the meter of that spend against its budget |
| `Dashboard.DashboardPage.Logout` | src/app/dashboard/page.tsx:189-193 | both keys removed and `/login` pushed |
| `Categories.WithBudget` | src/app/categories/page.tsx:122-126 | length kept; each entry with the id gets the new budget with name and id unchanged; every other entry is identical |
| `Categories.WithBudgetUnknownId` | src/app/categories/page.tsx:122-126 | an id no entry carries leaves the list unchanged |
| `Categories.WithBudgetOverrides` | src/app/categories/page.tsx:122-126 | a later budget edit of the same id overrides an earlier one |
| `Categories.CategoriesPage.constructor` | src/app/categories/page.tsx:15-19 | empty list and form, no error, loading, not submitting |
| `Categories.CategoriesPage.EditForm` | src/app/categories/page.tsx:159-174 | the name and budget inputs set the form |
| `Categories.CategoriesPage.Load` | src/app/categories/page.tsx:22-54 | loading ends false; without credentials it goes to `/login` with no request; a successful reply replaces the list; any failure sets 'Erro ao carregar categorias' and keeps the list |
| `Categories.CategoriesPage.BeginAdd` | src/app/categories/page.tsx:56-79 | the POST is issued iff both credentials are present, carrying the form and the userId, and `isSubmitting` is then true; otherwise `/login` is pushed and `isSubmitting` is false again |
| `Categories.CategoriesPage.FinishAdd` | src/app/categories/page.tsx:81-93 | `isSubmitting` ends false; on success the returned category is appended last and the form reset; on failure the list and form are unchanged and the error is 'Erro ao adicionar categoria' |
| `Categories.CategoriesPage.UpdateBudget` | src/app/categories/page.tsx:96-131 | without credentials it goes to `/login` with no request and no change; on success the list becomes the budget replacement by id; on failure the list is unchanged and the error is 'Erro ao atualizar orçamento' |
| `Categories.AddThenEdit` | src/app/categories/page.tsx:56-131 | a successful add and then a successful budget edit of the new entry leave the old entries intact and the new one last with the new budget |
| `Transactions.BuildRequest` | src/app/transactions/page.tsx:71-80 | the category is sent iff the type is expense; the month is the date's 0-based month plus one, in 1..12; the year is the date's; the other fields are passed through |
| `Transactions.RequestMonthMatchesDashboardFilter` | src/app/transactions/page.tsx:78-79 | a transaction with the request's date shows on the dashboard exactly under 0-based month `month - 1` of the request's year |
| `Transactions.TransactionsPage.constructor` | src/app/transactions/page.tsx:13-20 | an expense dated today, no category, loading |
| `Transactions.TransactionsPage.Load` | src/app/transactions/page.tsx:24-50 | loading ends false; a parsed list replaces the options and preselects the first name if there is one, otherwise the category stays; a failure changes nothing |
| `Transactions.TransactionsPage.ChangeType` | src/app/transactions/page.tsx:121-126 | choosing revenue clears the category; choosing expense keeps it |
| `Transactions.TransactionsPage.SelectCategory` | src/app/transactions/page.tsx:173 | the category selector sets the category |
| `Transactions.TransactionsPage.EditForm` | src/app/transactions/page.tsx:143-195 | the amount, description and date inputs set the form |
| `Transactions.TransactionsPage.Submit` | src/app/transactions/page.tsx:52-93 | an expense without category sets 'Category is required for expenses' and posts nothing; otherwise the body is the built request; ok goes to `/dashboard`; non-ok shows the server's `error` or 'Failed to create transaction'; a network or parse failure shows 'Erro ao criar transação' |
| `Transactions.SubmitWithDefaultCategory` | src/app/transactions/page.tsx:37-41 | after a load, an expense can be posted without touching the selector, and it carries the first category's name |
| `Login.SessionAfterLogin` | src/app/login/page.tsx:29-32 | a success body with `user` fills both slots, with the token and the user id when present |
| `Login.LoginSessionPassesGuard` | src/app/login/page.tsx:29-33 | a login whose token and id are not empty yields a session the guard treats as signed in |
| `Login.LoginPage.constructor` | src/app/login/page.tsx:9-12 | empty form, no error, not loading |
| `Login.LoginPage.EditForm` | src/app/login/page.tsx:71-91 | the email and password inputs set the form |
| `Login.LoginPage.BeginSubmit` | src/app/login/page.tsx:17-27 | `isLoading` is true while the credentials are posted |
| `Login.LoginPage.FinishSubmit` | src/app/login/page.tsx:29-43 | `isLoading` ends false; ok writes `token` and `userId` and goes to `/dashboard`; non-ok writes nothing and shows the server's `error` or 'Erro ao fazer login'; a network or parse failure writes nothing and shows 'Erro ao fazer login'; an ok body without `user` has written the token only and left the userId as it was |

## Left out

- HTTP: URLs, headers, the bearer token, JSON encoding and the two styles of base-URL
  configuration are not modelled. Replies are inputs. The dashboard's three requests
  run concurrently in the source; the model takes them as three given replies.
- The dashboard request's query string (the current month and year) is not modelled.
  Clocks are not modelled either: "today" is a constructor argument.
- Date parsing (`new Date(...)`, `getMonth`, `getFullYear`, `toISOString`) is not
  modelled. Dates are explicit fields. The source's UTC-parse/local-month mismatch
  for `YYYY-MM-DD` strings is therefore not captured.
- `parseFloat`, `toFixed(2)` and floating-point rounding are not modelled. Amounts are
  exact cents. The category form sends its budget text as entered.
- Aggregation.BudgetMeter: a zero budget has no meter. The source divides by zero and
  renders JavaScript's Infinity or NaN.
- Categories.CategoriesPage.Load: a JSON body that is not an array cannot be
  represented. The source stores such a body as the list; the model can only model a
  body that cannot be read at all.
- Transactions.TransactionsPage.Load: likewise, a non-array body that the source would
  store cannot be represented.
- Categories.CategoriesPage.FinishAdd: appends to the list as it is when the reply
  arrives. The source appends to the list captured when the form was submitted, so an
  edit finished in between is not modelled.
- Requests that overlap, such as a second submit while the first is in flight, are
  not modelled.
- Rendering is not modelled: JSX, styling, the chart library, the colour array, the
  reload button and console logging.
- The signup page and the loading spinner are not part of this model. Neither writes
  session state: signup is a POST with a fallback message and the spinner is
  presentational.
- The root layout and the dashboard layout wrapper are not part of this model.
