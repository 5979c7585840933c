# Le KAIZEN finance core, in Dafny

This project models the decision and aggregation logic of the Le KAIZEN personal-finance
dashboard (a Next.js/React application) and proves properties of it. It covers these parts:

- **Cash-flow projection** (`Projection`):
  - the editable lists of planned incomes and expenses;
  - the loop that builds the month-by-month balance series and the final balance.
- **Statistics cards** (`StatCards`): income, expenses, balance, borrowed income ("Emprunt"),
  own gain, and the investment and reimbursement sub-totals, per type filter.
- **Period filtering**:
  - `Dashboard`: the interval around the current date, the transactions and transfers
    inside it, the type filter and the category options;
  - `Charts`: a reference date moved by the previous and next buttons, with the interval,
    label and transaction filter around it.
- **Authentication** (`Auth`):
  - a PIN-protected user store and a session user;
  - login with first-user registration, logout, PIN change and rename, each with its
    checks in order.
- **Settings form** (`Settings`): ordered validation and the effect of its submit.
- **Budget plan** (`Planning`): append, remove by position, and the remaining amount.
- **Routing decisions**:
  - `SubNavigation`: the sub-navigation group of a path and its active link;
  - `DashboardHeader`: the header's transaction type and add action, and its currency choices;
  - `Layout`: the login redirect and the application chrome.
- **Currency display** (`Currency`): the rate table, the conversion, and the locale and
  number-format options.
- **Speech hook** (`Speech`): the transcript fold, the error messages, and the listening flag.

Shared modules:

- `Calendar`: proleptic Gregorian days with the date-fns operations used (day and month
  stepping; bounds of a week, month, quarter and year).
- `Periods`: the four reporting periods and their intervals.
- `Seqs`: order-preserving filtering.
- `Finance`: transactions and transfers.
- `Text`: decimal rendering.
- `Wrappers`: `Option` and `Outcome`.

Design choices:

- **Amounts.** Amounts are whole numbers of XOF (`int`). Currency conversion uses `real`.
- **Week start.** The week start is a parameter (0 is Sunday). The dashboard calls date-fns
  without a locale, so its week starts on Sunday. The charts page passes the French locale.
- **Handlers.** Handlers that replace React state with new lists are pure functions.
- **State updates.** Handlers that update state step by step are class methods. Their
  contracts state the new state through the pure functions, and the properties are proved
  about those functions.

## Model

| member | source | states |
|---|---|---|
| Calendar.NextDay | src/app/charts/page.tsx:39 | the next day is a real day, later than the given one |
| Calendar.PrevDay | src/app/charts/page.tsx:34 | the previous day is a real day, earlier than the given one |
| Calendar.NextPrevInverse | src/app/charts/page.tsx:33-41 | a day forward and a day back cancel out, in either order |
| Calendar.AddDays | src/app/charts/page.tsx:33-41 | stepping n days gives a real day, later for n ≥ 0 and earlier for n ≤ 0 |
| Calendar.AddDaysAdditive | src/app/charts/page.tsx:33-41 | stepping a days then b days is stepping a + b days |
| Calendar.DayNumberAddDays | src/app/charts/page.tsx:33-41 | stepping n days moves the day count by exactly n |
| Calendar.Weekday | src/components/dashboard/index.tsx:52 | the weekday is in 0..6 |
| Calendar.WeekdayAnchors | src/components/dashboard/index.tsx:52 | the numbering is JavaScript `getDay`: 1 January 1970 is 4 (Thursday), 7 January 2024 is 0 (Sunday) |
| Calendar.WeekdayNext | src/components/dashboard/index.tsx:52 | each next day is the next weekday, 6 wrapping round to 0; with the anchors this fixes every weekday |
| Calendar.StartOfWeek | src/components/dashboard/index.tsx:52 | the week's first day is a real day, on or before the given day |
| Calendar.EndOfWeek | src/components/dashboard/index.tsx:52 | the week's last day is a real day, on or after the given day |
| Calendar.WeekShape | src/app/charts/page.tsx:49 | a week starts on the configured weekday and its last day is 6 days after its first |
| Calendar.WeekdayAfterWeeks | src/app/charts/page.tsx:39 | whole weeks later the weekday is the same |
| Calendar.MonthIndexDetermines | src/app/charts/page.tsx:52-54 | equal month ordinals mean the same year and month |
| Calendar.AddMonths | src/app/charts/page.tsx:39 | adding n months moves the month ordinal by n and clamps the day to the target month's length |
| Periods.PeriodInterval | src/components/dashboard/index.tsx:50-63 | the interval contains the date; month, quarter and year run from the first to the last day of their unit; a quarter spans months 3(q−1)+1 to 3q |
| Periods.WeeklyIntervalShape | src/app/charts/page.tsx:48-49 | a weekly interval starts on the week-start day and spans seven days |
| Periods.SameUnitSameInterval | src/app/charts/page.tsx:52-64 | two dates in the same month, quarter or year get the same interval |
| Periods.SameMonthIndex | src/app/charts/page.tsx:52-60 | the same month ordinal means the same month; the same quarter ordinal means the same year and quarter |
| Charts.DurationKey | src/app/charts/page.tsx:34 | `period.slice(0,-2)+'s'` is "weeks", "months", "quarters" and "annuals" |
| Charts.AddDuration | src/app/charts/page.tsx:33-41 | years and months step by calendar months, keeping the day clamped to the target month's length; weeks step by 7 days and days by 1 day; any other key leaves the date unchanged |
| Charts.Step | src/app/charts/page.tsx:33-41 | both buttons step with the same key and a sign for the direction, landing on a real day |
| Charts.ChartsPage.constructor | src/app/charts/page.tsx:22-23 | the page starts on the monthly period at today's date |
| Charts.ChartsPage.HandlePrev | src/app/charts/page.tsx:33-36 | the date becomes the step back from the old date; the period is kept |
| Charts.ChartsPage.HandleNext | src/app/charts/page.tsx:38-41 | the date becomes the step forward from the old date; the period is kept |
| Charts.PeriodLabel | src/app/charts/page.tsx:47-65 | each period gets its own kind of label (weekly a week label, monthly a month label, quarterly a quarter label, annually a year label); a week label carries the interval's bounds; a quarter label carries the date's quarter q, months 3(q−1)+1 to 3q and the year; month and year labels carry the date's month and year |
| Charts.FilteredTransactions | src/app/charts/page.tsx:68 | an ordered subsequence of the transactions holding every copy of each transaction dated in the interval and nothing else |
| Charts.NextThenPrevSameInterval | src/app/charts/page.tsx:33-41 | next then previous lands in the interval the user started from, for every period |
| Charts.QuarterlyAndAnnualStepsStayPut | src/app/charts/page.tsx:33-41 | as written, the quarterly and yearly buttons leave the date unchanged |
| Charts.CorrectedStep | src/app/charts/page.tsx:33-41 | the intended step (one week, month, quarter or year) lands on a real day |
| Charts.StepAgreesForWeeksAndMonths | src/app/charts/page.tsx:33-41 | for weeks and months the written step is the intended one |
| Charts.CorrectedNextIsAdjacent | src/app/charts/page.tsx:33-65 | with the intended step, next's interval starts the day after the current interval ends |
| Charts.NextWeekIsAdjacent | src/app/charts/page.tsx:48-49 | seven days later the week starts the day after the current week ends |
| Charts.NextOfUnitEnd | src/app/charts/page.tsx:52-64 | the day after a month, quarter or year starts the next unit |
| Charts.CorrectedNextThenPrevSameInterval | src/app/charts/page.tsx:33-65 | with the intended step, next then previous returns to the starting interval |
| Charts.ChartsPage.HandlePrevCorrected | src/app/charts/page.tsx:33-36 | the intended previous button: the date becomes the intended step back |
| Charts.ChartsPage.HandleNextCorrected | src/app/charts/page.tsx:38-41 | the intended next button: the date becomes the intended step forward |
| Seqs.Filter | src/components/dashboard/index.tsx:65 | `filter` keeps exactly the accepted elements, in order, as a subsequence |
| Seqs.SubsequenceTransitive | src/components/dashboard/index.tsx:65-70 | a subsequence of a subsequence is a subsequence of the whole |
| Seqs.FilterCount | src/components/dashboard/stat-cards.tsx:11-13 | filtering keeps every accepted copy of an element and no rejected one |
| Seqs.FilterMultiset | src/components/dashboard/index.tsx:65 | the filtered list holds every copy of each accepted element and no copy of a rejected one, for all elements at once |
| Seqs.FilterPermutation | src/components/dashboard/stat-cards.tsx:11-44 | filtering reorderings of one list gives reorderings of one list |
| Seqs.FilterKeepsAll | src/components/dashboard/index.tsx:65-70 | a filter accepting every element returns the list unchanged |
| Seqs.FilterConcat | src/components/dashboard/stat-cards.tsx:38-44 | filtering a concatenation is the concatenation of the filtered parts |
| Seqs.FilterIdempotent | src/components/dashboard/index.tsx:65-70 | filtering twice with one test is filtering once |
| Seqs.FilterCommute | src/components/dashboard/index.tsx:65-70 | the interval filter and the type filter can be applied in either order |
| StatCards.ShownFigures | src/components/dashboard/stat-cards.tsx:27-60 | income shows income, borrowing and income minus borrowing; expense shows expenses, investment and reimbursement; otherwise income, expenses and their difference |
| StatCards.SumConcat | src/components/dashboard/stat-cards.tsx:11-13 | the total of two lists joined is the sum of their totals |
| StatCards.SumPermutation | src/components/dashboard/stat-cards.tsx:11-13 | the total does not depend on the order of the transactions |
| StatCards.FilteredSumPermutation | src/components/dashboard/stat-cards.tsx:11-44 | every filtered total does not depend on the order |
| StatCards.FiguresPermutationInvariant | src/components/dashboard/stat-cards.tsx:11-60 | the cards shown are the same for any reordering of the transactions |
| StatCards.FiguresDependOnTotals | src/components/dashboard/stat-cards.tsx:19-60 | the cards depend on the transactions only through the five totals |
| StatCards.IncomeAndExpensesPartition | src/components/dashboard/stat-cards.tsx:11-17 | income plus expenses is the total of all transactions, so an empty list gives 0 |
| StatCards.EmpruntWithinIncome | src/components/dashboard/stat-cards.tsx:21-25 | with non-negative amounts, 0 ≤ borrowing ≤ income and own gain ≥ 0 |
| StatCards.IncomeOnlyCountsZero | src/components/dashboard/stat-cards.tsx:38-44 | a list of income records has an expense category total of 0 |
| StatCards.CategoryTypeMismatchCountsZero | src/components/dashboard/stat-cards.tsx:38-44 | adding income records before or after any list leaves its expense category totals unchanged |
| StatCards.IncomeTotal | src/components/dashboard/stat-cards.tsx:11-13 | definition of `income`; properties in StatCards.IncomeAndExpensesPartition, StatCards.EmpruntWithinIncome and StatCards.FilteredSumPermutation |
| StatCards.ExpenseTotal | src/components/dashboard/stat-cards.tsx:15-17 | definition of `expenses`; properties in StatCards.IncomeAndExpensesPartition and StatCards.FilteredSumPermutation |
| StatCards.Balance | src/components/dashboard/stat-cards.tsx:19 | definition of `balance`; properties in StatCards.ShownFigures and StatCards.FiguresPermutationInvariant |
| StatCards.TotalEmprunt | src/components/dashboard/stat-cards.tsx:21-23 | definition of `totalEmprunt`; properties in StatCards.EmpruntWithinIncome |
| StatCards.GainPropre | src/components/dashboard/stat-cards.tsx:25 | definition of `gainPropre`; properties in StatCards.EmpruntWithinIncome |
| StatCards.TotalInvestissement | src/components/dashboard/stat-cards.tsx:38-40 | definition of `totalInvestissement`; properties in StatCards.CategoryTypeMismatchCountsZero and StatCards.FilteredSumPermutation |
| StatCards.TotalRemboursement | src/components/dashboard/stat-cards.tsx:42-44 | definition of `totalRemboursement`; properties in StatCards.CategoryTypeMismatchCountsZero and StatCards.FilteredSumPermutation |
| Dashboard.ByType | src/components/dashboard/index.tsx:68-70 | no filter keeps the list; a type keeps every copy of each transaction of that type, in order, and nothing else |
| Dashboard.FilteredDataFor | src/components/dashboard/index.tsx:46-73 | transactions are every copy of each one in the interval, and of the type when one is set, in order, and nothing else; transfers are every copy of each one in the interval, in order, and nothing else |
| Dashboard.TypedPeriodMultiset | src/components/dashboard/index.tsx:65-70 | the interval filter then the type filter keeps each transaction's copies exactly when it passes both |
| Dashboard.TransfersIgnoreType | src/components/dashboard/index.tsx:66 | the transfers shown do not depend on the type filter |
| Dashboard.FilteredDataIdempotent | src/components/dashboard/index.tsx:65-70 | filtering the filtered data again changes nothing |
| Dashboard.AllTransactionsForType | src/components/dashboard/index.tsx:75-81 | every transaction, or every copy of each one of the type, in order, with no period involved |
| Dashboard.CategoryOptions | src/components/dashboard/index.tsx:83-93 | income categories, expense sub-categories, or both in that order, each offered with label = value |
| Text.NatToString | src/app/projection/page.tsx:82 | non-empty decimal digits without a leading zero whose value is the number |
| Text.NatToStringInjective | src/app/projection/page.tsx:82 | different numbers print differently |
| Projection.MonthLabelSpellsMonth | src/app/projection/page.tsx:82 | the label of month i is "Mois " followed by the decimal digits of i |
| Projection.MonthLabel | src/app/projection/page.tsx:82 | definition of `Mois ${i}`; properties in Projection.MonthLabelSpellsMonth and Projection.MonthLabelsDistinct |
| Projection.WithItems | src/app/projection/page.tsx:50-51 | only the chosen list is replaced |
| Projection.AddItem | src/app/projection/page.tsx:32-39 | one blank row (id given, empty description, amount 0, once) is appended to the chosen list; the other list is untouched |
| Projection.RemoveItem | src/app/projection/page.tsx:41-47 | exactly the rows with that id leave the chosen list; every copy of every other row stays, in order; the other list is untouched |
| Projection.RemoveAbsentId | src/app/projection/page.tsx:41-47 | removing an id no row carries changes nothing |
| Projection.RemoveItemIdempotent | src/app/projection/page.tsx:41-47 | removing an id twice is removing it once |
| Projection.ApplyEdit | src/app/projection/page.tsx:53-54 | the edited field takes the value and every other field is kept |
| Projection.ItemChange | src/app/projection/page.tsx:49-57 | length, order and ids are kept; rows with the id take the edit and the others are unchanged; the other list is untouched |
| Projection.ItemChangeIdempotent | src/app/projection/page.tsx:49-57 | applying an edit twice is applying it once |
| Projection.FlowTotalConcat | src/app/projection/page.tsx:68-69 | the flow total of two lists joined is the sum of their totals |
| Projection.FlowTotal | src/app/projection/page.tsx:68-69 | definition of the per-recurrence total; properties in Projection.FlowTotalConcat and Projection.AddFlows |
| Projection.BalanceAt | src/app/projection/page.tsx:72-78 | definition of the balance at month i; properties in Projection.BalanceClosedForm and Projection.MonthOverMonth |
| Projection.Series | src/app/projection/page.tsx:59-87 | definition of the series; properties in Projection.ProjectionData, Projection.EmptyListsFlat and Projection.AddItemKeepsSeries |
| Projection.AddFlows | src/app/projection/page.tsx:68 | the forEach adds the total of the items of the given recurrence to the accumulator |
| Projection.ProjectionData | src/app/projection/page.tsx:59-87 | the series has months + 1 points labelled "Mois i" in order, point 0 holds the initial balance, and point i the balance of month i |
| Projection.BalanceClosedForm | src/app/projection/page.tsx:72-78 | from month 1 on, the balance is initial + i·(recurring net) + (one-off net) |
| Projection.MonthOverMonth | src/app/projection/page.tsx:68-78 | from month 2 on, each month adds exactly the recurring net |
| Projection.EmptyListsFlat | src/app/projection/page.tsx:59-87 | with no items every point holds the initial balance |
| Projection.MonthLabelsDistinct | src/app/projection/page.tsx:81-84 | no two months share a label |
| Projection.AddItemKeepsSeries | src/app/projection/page.tsx:32-39 | adding a blank row leaves the series unchanged |
| Projection.FinalBalance | src/app/projection/page.tsx:89 | an empty series gives 0 |
| Projection.FinalBalanceClosedForm | src/app/projection/page.tsx:89 | the final balance is initial + n·(recurring net) + (one-off net) |
| Auth.MockHash | src/contexts/auth-context.tsx:28 | the hash is "hashed-" followed by the PIN |
| Auth.MockHashInjective | src/contexts/auth-context.tsx:28 | different PINs hash differently |
| Auth.LoginStep | src/contexts/auth-context.tsx:57-86 | passes iff the stored hash matches or the store is empty; on a pass the name is in session and stored; a failure is "wrong credentials" with nothing changed; the store changes only by registering into an empty store |
| Auth.LogoutStep | src/contexts/auth-context.tsx:88-92 | nobody is authenticated afterwards; the store is kept |
| Auth.IsAuthenticated | src/contexts/auth-context.tsx:132 | definition of `isAuthenticated`; properties in Auth.LogoutStep, Auth.LoginStep and Layout.LogoutRedirects |
| Auth.ChangePinStep | src/contexts/auth-context.tsx:94-106 | not logged in, then user missing, then wrong old PIN, each failing with nothing changed; passing all three checks succeeds, and success sets only that user's hash to the new PIN's and keeps the session |
| Auth.ChangeUsernameStep | src/contexts/auth-context.tsx:108-128 | not logged in, then user missing, then wrong PIN, then name taken, each failing with nothing changed; passing all four checks succeeds, and success moves the user's hash to the new name and puts it in session |
| Auth.SessionInStorePreserved | src/contexts/auth-context.tsx:57-128 | every operation keeps the session user among the stored users |
| Auth.NoUserNotFoundWhenConsistent | src/contexts/auth-context.tsx:94-112 | while that holds, "user not found" never occurs |
| Auth.UserCountKept | src/contexts/auth-context.tsx:57-128 | only registration adds a user; PIN change and rename keep the user count |
| Auth.ChangePinThenLogin | src/contexts/auth-context.tsx:94-106 | after a PIN change, login takes the new PIN and refuses the old one |
| Auth.ChangeUsernameThenLogin | src/contexts/auth-context.tsx:108-128 | after a rename, the new name logs in with the PIN and the old name is refused |
| Auth.RenameToSelfRefused | src/contexts/auth-context.tsx:119-122 | renaming to one's own name fails as "already taken" |
| Auth.RegistrationOnlyWhenEmpty | src/contexts/auth-context.tsx:70-84 | an unknown name passes iff the store is empty, which then holds just that user |
| Auth.AuthProvider.constructor | src/contexts/auth-context.tsx:31-33 | no session user, loading, not registering |
| Auth.AuthProvider.CheckUserStatus | src/contexts/auth-context.tsx:36-55 | a saved session is resumed; otherwise registering is set iff the store is empty; loading ends |
| Auth.AuthProvider.Login | src/contexts/auth-context.tsx:57-86 | the outcome and new state are those of the login step |
| Auth.AuthProvider.Logout | src/contexts/auth-context.tsx:88-92 | the new state is that of the logout step |
| Auth.AuthProvider.ChangePin | src/contexts/auth-context.tsx:94-106 | the outcome and new state are those of the PIN-change step |
| Auth.AuthProvider.ChangeUsername | src/contexts/auth-context.tsx:108-128 | the outcome and new state are those of the rename step |
| Settings.Validate | src/app/settings/page.tsx:23-34 | an empty field, then a mismatch, then a length other than 4, each iff its condition holds |
| Settings.NonDigitPinAccepted | src/app/settings/page.tsx:31 | four letters pass validation |
| Settings.SubmittedChange | src/app/settings/page.tsx:40 | the call as written passes iff the stored hash is the hash of the username, and then stores the typed old PIN |
| Settings.TypedOldPinIgnored | src/app/settings/page.tsx:39-45 | a user typing the right old PIN changes nothing, while the intended call would store the new PIN |
| Settings.OldPinStoredAsNew | src/app/settings/page.tsx:40 | when the PIN equals the username, the call succeeds but does not store the new PIN |
| Settings.SettingsPage.constructor | src/app/settings/page.tsx:16-19 | empty fields, not loading |
| Settings.SettingsPage.HandleSubmit | src/app/settings/page.tsx:21-52 | a failed check shows its message and changes nothing else; otherwise, with a user, the misbound change runs, success is reported and the fields cleared; loading ends false |
| Settings.SettingsPage.HandleSubmitCorrected | src/app/settings/page.tsx:21-52 | the typed PINs reach the PIN change; success is reported only when it passed, otherwise its message is shown and the fields are kept |
| Planning.AddItem | src/app/planning/page.tsx:25-27 | one "Nouvelle catégorie" row with 0 planned and 0 spent is appended; the prefix is unchanged |
| Planning.RemoveItem | src/app/planning/page.tsx:29-31 | an index in range removes exactly that position, keeping the order; any other index changes nothing |
| Planning.RemoveItemLength | src/app/planning/page.tsx:29-31 | the list shrinks by one iff the index is a position |
| Planning.RemoveAddedItem | src/app/planning/page.tsx:25-31 | removing the row just added restores the plan |
| Planning.Remaining | src/app/planning/page.tsx:63 | spent + remaining = planned; remaining is negative iff overspent |
| Planning.InitialEntertainmentOverspent | src/app/planning/page.tsx:14-18 | the initial 'Divertissement' line has remaining −20000 |
| SubNavigation.FindGroupIn | src/components/dashboard/sub-navigation.tsx:27-34 | the first matching group in declaration order, or the empty list when none matches |
| SubNavigation.FindGroup | src/components/dashboard/sub-navigation.tsx:27-34 | definition of `findGroup` over the declared groups; properties in SubNavigation.FindGroupIn, SubNavigation.IncomeXSelectsTransactions and SubNavigation.DashboardHasNoGroup |
| SubNavigation.IncomeXSelectsTransactions | src/components/dashboard/sub-navigation.tsx:29 | "/incomeX" selects the transactions group |
| SubNavigation.DashboardHasNoGroup | src/components/dashboard/sub-navigation.tsx:33 | "/dashboard" gets no links |
| SubNavigation.AllHrefsListsTheTable | src/components/dashboard/sub-navigation.tsx:10-25 | the list of links enumerates the table, one position per link |
| SubNavigation.HrefsPrefixFree | src/components/dashboard/sub-navigation.tsx:10-25 | no link is a prefix of another |
| SubNavigation.OneLinkMatches | src/components/dashboard/sub-navigation.tsx:27-32 | two links that are both prefixes of a path are the same link |
| SubNavigation.AtMostOneGroupMatches | src/components/dashboard/sub-navigation.tsx:27-32 | at most one group matches a path |
| SubNavigation.GroupsDistinct | src/components/dashboard/sub-navigation.tsx:10-25 | the groups differ pairwise |
| SubNavigation.OrderIrrelevant | src/components/dashboard/sub-navigation.tsx:27-34 | any reordering of the groups finds the same group for every path |
| SubNavigation.IsActive | src/components/dashboard/sub-navigation.tsx:50 | definition of `isActive`; properties in SubNavigation.AtMostOneActive |
| SubNavigation.AtMostOneActive | src/components/dashboard/sub-navigation.tsx:50 | at most one link of a group is active |
| DashboardHeader.TransactionType | src/components/dashboard/dashboard-header.tsx:27-31 | income iff the path is exactly "/income", expense iff exactly "/expenses", none otherwise |
| DashboardHeader.AddActionFor | src/components/dashboard/dashboard-header.tsx:60-75 | no button iff "/planning" or "/"; transfer sheet iff "/transfers"; otherwise the transaction sheet with the path's type |
| DashboardHeader.OtherPathsGetUntypedSheet | src/components/dashboard/dashboard-header.tsx:60-75 | any other path gets the transaction sheet with no type |
| DashboardHeader.ChoicesMatchRates | src/components/dashboard/dashboard-header.tsx:53-55 | the choices are exactly the currencies with a rate, each once |
| Layout.ShouldRedirect | src/app/layout.tsx:31-35 | redirect iff not loading, not authenticated and not on "/login" |
| Layout.IsAppRoute | src/app/layout.tsx:53 | authenticated and not on "/login" |
| Layout.Render | src/app/layout.tsx:37-79 | placeholder iff loading or an anonymous visitor off "/login"; otherwise the page, with chrome iff it is an app route |
| Layout.RedirectShowsPlaceholder | src/app/layout.tsx:31-51 | a redirected visitor never sees the page |
| Layout.ChromeOnlyForSignedIn | src/app/layout.tsx:69-79 | the header, assistant and mobile navigation need a signed-in user off "/login" |
| Layout.SignedInOnLogin | src/app/layout.tsx:31-53 | a signed-in user on "/login" is not redirected and sees no chrome |
| Layout.LogoutRedirects | src/app/layout.tsx:29-35 | after logout every page but "/login" redirects and shows the placeholder |
| Currency.Convert | src/lib/utils.ts:16-18 | a number iff the currency has a rate, and that number times the rate is the XOF amount; XOF converts to itself |
| Currency.Locale | src/lib/utils.ts:37-46 | fr-FR iff XOF or EUR, en-US otherwise |
| Currency.FormatOptionsOf | src/lib/utils.ts:20-35 | decimal style iff unitOnly; minimum 2 decimals, 0 for XOF; compact iff asked, with maximum 1; code display iff XOF and not unitOnly; Intl accepts the options iff the currency code is well formed and the call is not compact or is XOF |
| Currency.FormatOptions | src/lib/utils.ts:20-35 | the options built assignment by assignment are the ones above |
| Currency.CorrectedFormatOptions | src/lib/utils.ts:20-29 | the intended options: accepted by Intl iff the currency code is well formed, otherwise as written except a minimum of 0 when compact |
| Currency.RateCurrenciesWellFormed | src/lib/utils.ts:8-12 | every currency of the rate table is a well-formed code, so the header's choices never hit Intl's code check |
| Currency.OccursInTail | src/lib/utils.ts:41 | an occurrence after the first character is an occurrence in the rest |
| Currency.IndexOf | src/lib/utils.ts:41 | the first occurrence of the pattern, or none anywhere |
| Currency.ReplaceFirst | src/lib/utils.ts:41 | no occurrence leaves the text; otherwise the first occurrence is replaced and the rest kept |
| Currency.LaterOccurrenceKept | src/lib/utils.ts:41 | a later occurrence survives the replacement |
| Currency.FormatCurrency | src/lib/utils.ts:15-49 | throws iff the currency code is not three ASCII letters, or compact and not XOF; otherwise renders the converted amount with that locale and those options, and replaces "XOF" by "FCFA" for XOF without unitOnly |
| Currency.CompactUsdRejected | src/lib/utils.ts:23-29 | compact USD options hold minimum 2 over maximum 1, which Intl rejects |
| Speech.FinalTextConcat | src/hooks/use-speech-recognition.ts:33-38 | the text of joined results is the join of their texts |
| Speech.FinalText | src/hooks/use-speech-recognition.ts:33-38 | definition of the final transcript; properties in Speech.FinalTextConcat, Speech.InterimIgnored, Speech.AllFinal and Speech.CollectFinalTranscript |
| Speech.InterimIgnored | src/hooks/use-speech-recognition.ts:35-37 | a non-final result adds nothing wherever it sits |
| Speech.AllFinal | src/hooks/use-speech-recognition.ts:33-38 | when all results are final the text is all their transcripts |
| Speech.NoneFinal | src/hooks/use-speech-recognition.ts:33-38 | when none is final the text is empty |
| Speech.CollectFinalTranscript | src/hooks/use-speech-recognition.ts:33-38 | the loop yields the final transcripts from resultIndex on, in order |
| Speech.ErrorMessage | src/hooks/use-speech-recognition.ts:44-49 | microphone message iff not-allowed or service-not-allowed; no-sound message iff no-speech; generic otherwise |
| Speech.SpeechRecognizer.constructor | src/hooks/use-speech-recognition.ts:17-30 | not listening, empty transcript, a recognizer iff supported |
| Speech.SpeechRecognizer.OnResult | src/hooks/use-speech-recognition.ts:32-40 | the transcript is replaced by the new final text; listening is kept |
| Speech.SpeechRecognizer.OnError | src/hooks/use-speech-recognition.ts:42-56 | the code's message is shown and listening stops |
| Speech.SpeechRecognizer.OnEnd | src/hooks/use-speech-recognition.ts:58-61 | listening stops and the onEnd callback runs once |
| Speech.SpeechRecognizer.StartListening | src/hooks/use-speech-recognition.ts:66-80 | acts only with a recognizer while not listening: clears the transcript and starts, or only warns when unsupported |
| Speech.SpeechRecognizer.StopListening | src/hooks/use-speech-recognition.ts:82-87 | afterwards not listening; nothing else changes |

## Left out

- Rendering is not modelled: JSX, recharts, the shadcn components, icons and toasts' styling. Only a toast's title, text and variant are kept.
- Intl output is not modelled. `Intl.NumberFormat` is a function parameter of `Currency.FormatCurrency`; locale month names and `format` patterns ('d MMM', 'MMMM yyyy', 'LLL') are out too. `Charts.PeriodLabel` keeps the kind of label and the numbers that go into it, not its text.
- Dates are whole days. Time of day and time zones are not modelled, so `parseISO` (local time) on the dashboard and `new Date` (UTC for date-only strings) on the charts page are treated alike. A stored date that does not parse is a `Date` that is not `Valid`, which no interval contains.
- The date-fns duration keys for hours, minutes and seconds are not modelled: the buttons only ever pass "weeks", "months", "quarters" or "annuals".
- Amounts are whole numbers, so JavaScript floating point and `parseFloat(...) \|\| 0` on inputs are not modelled. `Projection.FinalBalance` does not model `\|\| 0` on NaN, which whole numbers never produce.
- Persistence is not modelled: transactions and transfers are parameters, and the user store is a map from name to PIN hash. User ids, `sessionStorage` writes and the router's navigation calls are left out. `getUserByUsername(null)` is read as "some user exists".
- Async and timing are not modelled. Each handler is one sequential step; the settings page's 500 ms timer runs to completion inside `Settings.SettingsPage.HandleSubmit`. Rejected promises that nobody awaits are not observable there.
- Fresh ids (`crypto.randomUUID`) are a parameter of `Projection.AddItem`.
- Browser APIs are left out: the SpeechRecognition object's `start`/`stop` calls, `window` feature detection (a parameter of the speech hook's constructor), and JSON parsing of the saved session.
- The income and expense category lists are parameters of `Dashboard.CategoryOptions`; the types module that defines them is not part of this model.
- Settings.Validate: `newPin.length` counts UTF-16 code units in JavaScript; here it counts characters.

## Findings

| source | as written | input that shows it | evidently intended | confidence | as-written member | corrected member |
|---|---|---|---|---|---|---|
| src/app/charts/page.tsx:34 | the previous/next buttons pass `{quarters: 1}` or `{annuals: 1}` to date-fns `add`/`sub`, which reads neither key, so the date does not move | quarterly period, any date, press next | step by 3 months for a quarter and 12 months for a year | not executed; date-fns reads only years, months, weeks, days, hours, minutes and seconds | Charts.QuarterlyAndAnnualStepsStayPut | Charts.CorrectedNextIsAdjacent |
| src/app/settings/page.tsx:40 | `changePin(user.username, oldPin, newPin)` against `changePin(oldPin, newPin)`: the username is checked as the old PIN and the typed old PIN is stored as the new one; success is reported either way | user "awa" with PIN "1234" types old "1234", new "5678": nothing is stored, yet "Votre code PIN a été modifié." is shown | pass the typed old and new PINs, await the outcome, report its error | not executed | Settings.TypedOldPinIgnored | Settings.SettingsPage.HandleSubmitCorrected |
| src/lib/utils.ts:23-29 | `compact` sets `maximumFractionDigits` 1 but leaves `minimumFractionDigits` 2 for USD and EUR, which `Intl.NumberFormat` refuses with a RangeError (ECMA-402, SetNumberFormatDigitOptions) | `formatCurrency(1500, 'USD', true)` | compact figures with at most one decimal, minimum lowered to fit | not executed | Currency.CompactUsdRejected | Currency.CorrectedFormatOptions |
