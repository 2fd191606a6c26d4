# WhatsApp finance bot: verified model

This project is a Dafny model of the core logic of a WhatsApp personal-finance bot.

**What the bot does.** Users send chat commands such as `!salario 4500`, `!gasto 35 almoço #food`, `!folga 2025-12-10` or `!relatorio`, or free text such as "gastei 25 no lanche". The bot keeps a ledger of salary, expense, overtime, leave and worked-day entries per phone number, plus a user row of preferences and thresholds. It answers with reports, alerts and exports, and sends scheduled digests.

**Modules.** The model follows the program's files:

- `Text`, `Numbers`, `Dates`, `Sorting` (`text.dfy`, `numbers.dfy`, `dates.dfy`, `sorting.dfy`): The JavaScript and library behaviour the bot relies on. `trim`, `split(/\s+/)`, ASCII case mapping, `parseFloat` and `parseInt`, how a number prints in a template string, strict `moment(..., 'YYYY-MM-DD', true)` parsing, `ORDER BY` over text and a stable sort.
- `Nlu` (`nlu.dfy`): `src/nlu.js`: `normalize`; `extractNumbers` (its regular expression as written); `extractDate`; `extractCategory`; the ordered first-match rule table of `interpret`; `suggest`.
- `Ledger` (`ledger.dfy`): `src/db.js` as an in-memory store. It is a class holding the entries table, the users map, the category limits, the monthly salaries and the crypto watchlist. The SQL aggregates are functions over the entry sequence.
- `Analytics` (`analytics.dfy`): `src/analytics.js`: the moving-average forecast, the category breakdown and the historical series, each over the rows `getEntries` returns.
- `Reports` (`reports.dfy`): The computations inside `src/commands.js` handlers. Splitting the expense description from its category, the three alerts, the salary mood, the net balance and its verdict, goal status, the monthly leave bank and CSV serialisation.
- `Commands` (`commands.dfy`): Every handler of `src/commands.js` as a method on the store, plus `dispatchCommand`. Each handler states its reply and the exact new store as a predicate on the store before and after (`SalaryEffect`, `ExpenseEffect`, ...). `Effect` collects them by case, so `dispatchCommand` states what the chosen handler does with the message's own words. The reply is a datatype carrying the values the text would print.
- `MessageQueue` (`message_queue.dfy`): `src/messageQueue.js`: the FIFO queue as a class, with `processQueue` given the outcome of each send.
- `Scheduler` (`scheduler.dfy`): `src/scheduler.js`: recipient filtering, digest values and the single `try` that ends a run.
- `MarketData` (`market_data.dfy`): `getInvestmentSuggestions` of `src/marketData.js`.

**Representation choices.**
- Amounts and hours are exact: `Decimal(negative, mantissa, exponent)` as parsed, `real` once stored.
- Dates are `Date(year, month, day)` and `Month(year, month)` values. The store's timestamps are `Stamp(date, second)`: a date and the second of that day.
- "Today", "now" and the answer of the Google Sheets call are parameters.
- The outcome of each WhatsApp send is an input sequence.

**Where the model follows the code rather than the documentation.**
- The number regular expression takes its first alternative, `\d{1,3}(?:[.,]\d{3})*(?:[.,]\d{2})?`, whenever a digit starts a match. So "salario 4500" is interpreted as `!salario 450`, not 4500 (`Nlu.FourDigitsSplit`).
- `getEntries` does not select the `category` column. So, through the store, the category alert fires only for a limit of zero or less (`Reports.CategoryAlertNeedsRows`). The breakdown also has at most one slice, `Sem categoria` (`Analytics.BreakdownWithoutCategories`).
- The category alert dates rows by `created_at`, not by their effective date.
- The scheduler writes to `phone + '@c.us'` without the `endsWith` check that the queue applies.
- The scheduler keeps no record of what it already sent today.
- The breakdown sorts by total with ties left in insertion order. It does not order ties by name.
- The notify-hour rule of `interpret` calls an undefined `extractNumber`. It is modelled as the outcome `Crash`.

## Model

| member | source | states |
|---|---|---|
| Nlu.FoldChar | src/nlu.js:6-8 | Below U+00C0 a character is only lower-cased; above, a Latin-1 letter loses its accent. |
| Nlu.Scrub | src/nlu.js:5-9 | After folding and replacing foreign characters by spaces, only the kept class `[a-z0-9#\s.,:-]` remains, and the text is no longer than before. |
| Nlu.Collapse | src/nlu.js:10 | Every run of white space becomes one space. No two spaces are adjacent. The result is empty only for empty input. Every other character is a non-space character of the input. |
| Nlu.NormalizeIsNormal | src/nlu.js:4-12 | `normalize` output holds only `a-z 0-9 # . , : -` and single spaces, with no space at either end. |
| Nlu.NormalFixed | src/nlu.js:4-12 | Normalized text is left unchanged by `normalize`. |
| Nlu.NormalizeIdempotent | src/nlu.js:4-12 | `normalize` is idempotent. |
| Nlu.LeadEnd | src/nlu.js:16 | `\d{1,3}` is greedy: it takes three digits unless the run or the text ends sooner. |
| Nlu.TokenParses | src/nlu.js:23-27 | A captured number always parses (never NaN), to a non-negative value. |
| Nlu.NumbersFrom | src/nlu.js:19-28 | Every number the scan finds is non-negative. |
| Nlu.ScanStep | src/nlu.js:19-27 | One `regex.exec` match pushes the value of its cleaned text, and the scan resumes at the end of the match. |
| Nlu.ExtractNumbers | src/nlu.js:14-30 | The `while` loop over `regex.exec` returns exactly the scan's numbers, left to right, all non-negative. |
| Nlu.DigitChunks | src/nlu.js:16-19 | A separator-less digit run of n digits is captured as ceil(n/3) numbers. |
| Nlu.DigitChunk | src/nlu.js:16-19 | In a digit run, the first captured number is its next three digits, or fewer at the end. |
| Nlu.FourDigitRun | src/nlu.js:16-27 | Four digits are captured as two numbers: the first three digits, then the last one. |
| Nlu.FourDigitsSplit | src/nlu.js:16-27 | "4500" yields the numbers 450 and 0. |
| Nlu.DigitsToken | src/nlu.js:23-26 | A captured digit run is read as the integer it spells. |
| Nlu.BrazilianClean | src/nlu.js:23 | In "1.234,56" the thousands point is removed and the decimal comma kept. |
| Nlu.BrazilianAmount | src/nlu.js:16-26 | "1.234,56" yields exactly 1234.56. |
| Nlu.FirstAt | src/nlu.js:33 | The leftmost index where the pattern matches, and none before it; or no match anywhere. |
| Nlu.FirstText | src/nlu.js:32-35 | `str.match(p)`: the text of the leftmost match, or `None` exactly when nothing matches. |
| Nlu.MonthTokensFrom | src/nlu.js:124 | Every token of the global month match has the form `20dd-dd`. |
| Nlu.TagFrom | src/nlu.js:38 | The first `#` followed by a word character, with the maximal word run after it; `None` when there is no such `#`. |
| Nlu.ExtractCategory | src/nlu.js:37-40 | A found category is a non-empty run of `[a-z0-9_]` characters. |
| Nlu.RemoveNumbersFrom | src/nlu.js:85 | Removing every number, with its `R$` prefix, leaves text without digits. |
| Nlu.KeywordAt | src/nlu.js:86 | A keyword is found at a position iff one of the alternatives occurs there as a whole word, ignoring case. |
| Nlu.RemoveKeywordsFrom | src/nlu.js:86 | Removing the expense keywords never adds a digit. |
| Nlu.Stripped | src/nlu.js:83-86 | After the tag, number and keyword removals, the text has no digit. |
| Nlu.Description | src/nlu.js:83-88 | The expense description is non-empty, trimmed at both ends and free of digits. |
| Nlu.DefaultDescription | src/nlu.js:88 | The fallback description `gasto` is non-empty, trimmed and digit-free. |
| Nlu.Name | src/nlu.js:49-150 | Every command the interpreter can emit is `!` followed by lower-case letters. |
| Nlu.Firing | src/nlu.js:49-148 | One flag per rule of the table, in table order. |
| Nlu.FirstSet | src/nlu.js:49-154 | The first set flag from k on, with none set before it; or none set at all. |
| Nlu.FirstFiring | src/nlu.js:49-154 | The first set flag is the first rule of the table that fires, and there is none exactly when no rule fires. |
| Nlu.DateSuffix | src/nlu.js:98 | The date suffix is empty or starts with a space. |
| Nlu.ExpenseValue | src/nlu.js:76-80 | The value is the first number, or the last when the first is zero. It is `None` exactly when there is no number, or both first and last are zero. |
| Nlu.ReportCommand | src/nlu.js:53-58 | With a `20YY-MM` month (01-12) the result is `!relatoriomes YYYY-MM`; otherwise `!relatorio`. |
| Nlu.GoalCommand | src/nlu.js:61-65 | `!meta` with the first number, or `!meta 0` when there is no number. |
| Nlu.SalaryCommand | src/nlu.js:68-72 | `!salario` with the first number; no command without a number. |
| Nlu.ExpenseCommand | src/nlu.js:75-90 | `!gasto` exactly when a non-zero value is found; no command otherwise. |
| Nlu.OvertimeCommand | src/nlu.js:93-99 | `!horaextra` with a non-zero first number and the date suffix; no command when the first number is missing or zero. |
| Nlu.HistoryCommand | src/nlu.js:123-127 | `!historico` exactly when at least two `YYYY-MM` tokens occur; no command otherwise. |
| Nlu.Apply | src/nlu.js:49-152 | A rule's result is a well-formed command line. It crashes exactly for the notify-hour rule, which calls an undefined function. |
| Nlu.Resolve | src/nlu.js:44-154 | The deciding rule, when there is one, is a position in the table. |
| Nlu.Interpret | src/nlu.js:43-155 | The empty string yields no command; any command has well-formed arguments. |
| Nlu.HelpWins | src/nlu.js:49 | Text containing the word `ajuda`, `help` or `comandos` yields `!ajuda`, before any later rule. |
| Nlu.InterpretFirst | src/nlu.js:49-154 | The first rule that fires decides the result. |
| Nlu.NoRuleNoCommand | src/nlu.js:154 | When no rule fires there is no command. |
| Nlu.FirstRuleAtStart | src/nlu.js:49 | The help rule, first in the table, decides whenever it fires. |
| Nlu.NameWord | src/nlu.js:49-150 | A command name is one word without white space. |
| Nlu.CommandHead | src/nlu.js:56 | The first word of an emitted command line is its command name. |
| Nlu.NumberLine | src/nlu.js:63 | A command with one number splits into the name and the printed number. |
| Nlu.ReportMonthIsStrict | src/nlu.js:55-56 | The month of a report phrase is one that the strict `YYYY-MM` parser accepts. |
| Nlu.StrictMonthText | src/nlu.js:55 | Text matching `20\d{2}-(0[1-9]\|1[0-2])` parses as a strict month. |
| Nlu.MatchedUpTo | src/nlu.js:164-173 | At most one hint per family examined. |
| Nlu.MatchedFamilies | src/nlu.js:164-173 | The pushed hints are those of exactly the matching families, in family order. |
| Nlu.NoneMatched | src/nlu.js:164-174 | No hint is pushed exactly when no keyword family matches. |
| Nlu.Take | src/nlu.js:175 | `slice(0, 3)` is the prefix of length min(3, n). |
| Nlu.HintsFor | src/nlu.js:163-175 | For normalized text, between one and three hints come back. |
| Nlu.HintsDefault | src/nlu.js:163-175 | Exactly the default hint comes back iff no family matches; otherwise the first three matched hints. |
| Nlu.FirstHintNotDefault | src/nlu.js:174 | When a family matched, the result is not the default hint alone. |
| Nlu.Suggestions | src/nlu.js:160-176 | `[]` iff the input is empty; otherwise at most three hints. |
| Nlu.SuggestionsDefault | src/nlu.js:160-176 | For non-empty input: exactly `['Ex: gasto 20 cafe']` iff no family matches, else the first three matched hints in rule order. |
| Nlu.Suggest | src/nlu.js:160-176 | The method returns exactly `Suggestions(raw)`. |
| Nlu.CollectHints | src/nlu.js:163-175 | The family tests, the default push and the cut compute exactly `HintsFor(t)`. |
| Ledger.KindName | src/db.js:42 | The `type` column text is a non-empty lower-case word. |
| Ledger.SumAppend | src/db.js:241 | Appending a row changes a `SUM` exactly by that row's share. |
| Ledger.TotalsAppend | src/db.js:238-249 | A new row adds its amount or hours only to its own kind, and only when in scope. A worked day changes no total. |
| Ledger.SumAbsent | src/db.js:241-248 | A kind with no rows in scope sums to 0. |
| Ledger.AbsentKindIsZero | src/db.js:241-249 | Each of salary, expense, overtime and leave is 0 when it has no rows in scope. |
| Ledger.EmptyRange | src/db.js:256-277 | A range whose start is after its end gives all-zero totals. |
| Ledger.MonthBounds | src/db.js:323 | A date is in a month exactly when it lies between the month's first and last day. |
| Ledger.MonthIsRange | src/db.js:256-336 | The monthly totals equal the range totals from the month's first day to its last. |
| Ledger.Row | src/db.js:312 | `getEntries` returns every column except `category`. |
| Ledger.KeyLeqIsTotalPreorder | src/db.js:312 | `ORDER BY COALESCE(event_date, created_at)` is a total preorder. |
| Ledger.RowsOf | src/db.js:312 | Exactly the user's rows are selected: every row of that phone is kept, and every kept row is one of them. Each lacks its category. |
| Ledger.Entries | src/db.js:309-317 | `getEntries` returns the user's rows sorted by effective date, as a permutation of them. |
| Ledger.EntriesHaveNoCategory | src/db.js:312 | Every row `getEntries` returns belongs to the user and has no category. |
| Ledger.DefaultUser | src/db.js:18-35 | A new user row has the column defaults: zero amounts, flags off, `pt`, hour 8, insights on, briefing off at 8. |
| Ledger.WithUser | src/db.js:206-215 | `ensureUser` keeps an existing user unchanged and inserts exactly one default row otherwise. Nobody else changes. |
| Ledger.WithUserIdempotent | src/db.js:206-215 | `ensureUser` is idempotent. |
| Ledger.ApplyPrefs | src/db.js:100-103 | Exactly the supplied preference fields are written, and nothing else changes. |
| Ledger.EmptyPrefsKeepUser | src/db.js:107 | An update that supplies no field changes nothing. |
| Ledger.Store.constructor | src/db.js:39-49 | An empty database. |
| Ledger.Store.EnsureUser | src/db.js:206-215 | The users table becomes `WithUser(old, phone)`. A known user resolves its stored row. A new user resolves only the phone and a zero last salary (`InsertedUser`), as line 212 does. Nothing else changes. |
| Ledger.Store.AddEntry | src/db.js:218-226 | Appends exactly one row, whose id is greater than every earlier one, and returns that id. Earlier rows and the other tables are unchanged. |
| Ledger.Store.AddWorkedDay | src/db.js:446-448 | Appends one workday row with hours 1 and the description `Dia trabalhado <date>`, trimmed. |
| Ledger.Store.UpdateSalary | src/db.js:228-236 | Writes the last salary and its time for an existing user only. |
| Ledger.Store.SetGoal | src/db.js:289-297 | Writes `target_income` for an existing user only. |
| Ledger.Store.SetExpensePercent | src/db.js:398-406 | Writes `max_expense_percent` for an existing user only. |
| Ledger.Store.SetExpenseValue | src/db.js:408-416 | Writes `max_expense_value` for an existing user only. |
| Ledger.Store.SetNotifications | src/db.js:506-514 | Writes both notification flags. |
| Ledger.Store.SetSheetsId | src/db.js:516-524 | Writes the sheets id. |
| Ledger.Store.SetUserPrefs | src/db.js:95-115 | Rejects with `notify_hour inválido`, writing nothing, exactly when the hour is outside 0-23. Otherwise writes exactly the supplied fields; an empty update is a no-op. |
| Ledger.Store.SetMorningBriefPrefs | src/db.js:117-134 | Rejects with `hora inválida` exactly for an hour outside 0-23; otherwise writes only the supplied fields. |
| Ledger.Store.SetMonthlySalary | src/db.js:352-360 | Upserts the (phone, month) row, which then reads back the new amount. |
| Ledger.Store.SetCategoryLimit | src/db.js:476-494 | Latest write wins for (phone, category); every other limit reads back as before. |
| Ledger.Store.AddCryptoSymbol | src/db.js:146-154 | The upper-cased symbol joins the set; a duplicate changes nothing. |
| Ledger.Store.RemoveCryptoSymbol | src/db.js:156-164 | Only that upper-cased symbol of that user is removed. |
| Ledger.Store.CryptoWatchlist | src/db.js:166-174 | Exactly the user's symbols, in strictly ascending order. |
| Ledger.LimitsOf | src/db.js:496-504 | `getAllCategoryLimits`: each of the user's limits once, with its value, ordered by category. |
| Ledger.WatchlistIsASet | src/db.js:146-164 | Adding twice equals adding once; removing after adding leaves the symbol absent. |
| Analytics.MonthsOf | src/analytics.js:9-16 | The distinct effective months of the rows, never empty for non-empty rows. |
| Analytics.MonthsOfMembers | src/analytics.js:10-12 | A month is listed exactly when some row is dated in it. |
| Analytics.MonthAbsentSums | src/analytics.js:12-15 | A month without rows has zero salary and expense. |
| Analytics.GroupByMonth | src/analytics.js:9-16 | The `forEach` builds a map whose keys are exactly the months, each holding that month's sums. |
| Analytics.MonthLeqIsTotalPreorder | src/analytics.js:17 | `YYYY-MM` text order is a total preorder on months. |
| Analytics.SortedMonths | src/analytics.js:17 | The months, ascending, as a permutation. |
| Analytics.SortedMonthsMembers | src/analytics.js:17 | Sorting keeps exactly the given months. |
| Analytics.SortedMonthsDistinct | src/analytics.js:17 | Sorting distinct months keeps them distinct. |
| Analytics.Window | src/analytics.js:19 | `slice(-3)`: the last min(3, n) months. |
| Analytics.Average | src/analytics.js:26-28 | The average times the months used is the sum. |
| Analytics.AverageDifference | src/analytics.js:28 | Averaging distributes over the difference, so `net` agrees with salary minus expense. |
| Analytics.Averaged | src/analytics.js:24-29 | The forecast carries `months_used` and the window sums divided by it. |
| Analytics.Prediction | src/analytics.js:7-31 | The error result exactly when there are no rows. Otherwise `months_used` is min(3, number of distinct months). |
| Analytics.PredictNextMonth | src/analytics.js:7-31 | The method computes exactly `Prediction(es)`. |
| Analytics.ForecastNet | src/analytics.js:26-28 | The forecast net is forecast salary minus forecast expense. |
| Analytics.SingleMonthForecast | src/analytics.js:19-29 | With a single month the forecast equals that month's sums. |
| Analytics.WindowIsLatest | src/analytics.js:17-19 | In the ascending list, every month outside the window precedes every month inside it. |
| Analytics.ForecastWindowIsLatest | src/analytics.js:9-24 | The forecast averages the latest months of the data. |
| Analytics.CountedRows | src/analytics.js:36-37 | A row is kept iff it is an expense with a non-zero amount, of the given month when one is given. |
| Analytics.CategoriesIn | src/analytics.js:38-42 | The category keys, each once. |
| Analytics.CategoriesInMembers | src/analytics.js:39-41 | A key is listed exactly when some row has it, a missing category counting as `Sem categoria`. |
| Analytics.ByTotalDescIsTotalPreorder | src/analytics.js:43 | Larger-total-first is a total preorder. |
| Analytics.Slices | src/analytics.js:38-43 | One slice per category, holding that category's total. |
| Analytics.Breakdown | src/analytics.js:34-44 | Non-increasing by total, and a permutation of the per-category slices of the counted rows. |
| Analytics.GroupByCategory | src/analytics.js:38-42 | The map that the `forEach` fills has exactly the categories as keys, each holding its total. |
| Analytics.CategoryBreakdown | src/analytics.js:34-44 | The method computes exactly `Breakdown(es, month)`. |
| Analytics.SliceSumPermutation | src/analytics.js:43 | Reordering slices keeps their sum. |
| Analytics.SlicesAddUp | src/analytics.js:38-42 | The per-category totals add up to the summed amounts of the rows. |
| Analytics.BreakdownDistinct | src/analytics.js:38-43 | Each category appears once in the breakdown. |
| Analytics.BreakdownTotals | src/analytics.js:38-43 | Each slice holds its category's total, and that category occurs among the counted rows. |
| Analytics.BreakdownCovers | src/analytics.js:38-43 | Every counted row's category has a slice. |
| Analytics.BreakdownSum | src/analytics.js:36-43 | The breakdown totals sum to the summed amounts of the included expenses. |
| Analytics.BreakdownWithoutCategories | src/analytics.js:40 | With rows from `getEntries` (no category) the breakdown has at most one slice, `Sem categoria`. |
| Analytics.InRange | src/analytics.js:49-54 | Keeps exactly the rows dated from the first day of `start` to the last day of `end`. |
| Analytics.Points | src/analytics.js:64-67 | One point per month with its salary and expense sums and net = salary − expense. |
| Analytics.HistoricalData | src/analytics.js:47-68 | The method computes exactly `History(es, start, end)`. |
| Analytics.HistoryAscending | src/analytics.js:63-67 | The months are strictly ascending. |
| Analytics.HistoryInRange | src/analytics.js:51-63 | Every month emitted lies in `[start, end]` and has at least one row. |
| Analytics.HistoryComplete | src/analytics.js:51-63 | Every month in range that has a row is emitted. |
| Analytics.EmptyHistory | src/analytics.js:49-54 | A start after the end gives `[]`. |
| Analytics.InRangeEmpty | src/analytics.js:51-54 | A start after the end keeps no row. |
| Reports.DescriptionText | src/commands.js:39 | The description is never empty; no words give `Gasto`. |
| Reports.ExpenseTagged | src/commands.js:34-39 | A final `#c` word becomes the category `c`; the words between the value and it form the description. |
| Reports.ExpenseUntagged | src/commands.js:34-39 | Without a final `#` word there is no category and every word after the value is description. |
| Reports.DescriptionKeepsWords | src/commands.js:39 | Non-empty words are joined by single spaces, never replaced by the default. |
| Reports.PercentIsRatio | src/commands.js:45-47 | The division-free percent test agrees with `(expense / salary) * 100 >= limit`. |
| Reports.PercentPart | src/commands.js:45-50 | The percent alert appears iff the percent limit > 0, salary > 0 and the spent share reaches the limit. |
| Reports.ValuePart | src/commands.js:51-53 | The absolute alert appears iff the value limit > 0 and expense ≥ limit. |
| Reports.CategoryPart | src/commands.js:55-67 | The category alert appears iff a category is given, its limit exists and that month's category total reaches it. |
| Reports.ExpenseAlerts | src/commands.js:44-68 | At most three alerts, in the order percent, value, category. |
| Reports.AlertsFire | src/commands.js:44-68 | Each alert is present exactly when its own condition holds, independently of the others. |
| Reports.UncategorisedTotal | src/commands.js:60-63 | Rows without a category add nothing to a category total. |
| Reports.CategoryAlertNeedsRows | src/commands.js:55-67 | Over rows from `getEntries`, the category alert fires iff a category and a limit ≤ 0 exist. |
| Reports.RecentSalaries | src/db.js:279-287 | The user's salary amounts, latest first. |
| Reports.LastTwo | src/db.js:282 | `LIMIT 2`: the first min(2, n) elements. |
| Reports.MoodOf | src/commands.js:18-26 | The first-salary line exactly when fewer than two salaries exist. |
| Reports.MoodAfterSalary | src/commands.js:15-26 | After storing a salary, the mood says whether it rose, fell or stayed level against the previous salary, with the size of the change. With no previous salary it is the first-salary line. |
| Reports.SalariesIgnoreOthers | src/db.js:282 | Rows of other users or kinds leave the salary history unchanged. |
| Reports.HourlyRate | src/commands.js:112 | The hourly rate is salary / 220, and 0 for zero salary. |
| Reports.OvertimeValue | src/commands.js:113 | Overtime value × 220 = hours × salary. |
| Reports.Net | src/commands.js:114 | Net = salary + hours × salary/220 − expense. |
| Reports.NetWithoutOvertime | src/commands.js:112-114 | Without overtime, net = salary − expense. |
| Reports.VerdictOf | src/commands.js:115-117 | The cut-spending line iff net < 50% of salary. Great iff net > 90% (and not below 50%). Neutral otherwise. |
| Reports.VerdictsExclusive | src/commands.js:115-117 | With a non-negative salary the two tests never both hold. |
| Reports.GoalStatusOf | src/commands.js:242 | No goal iff goal ≤ 0; reached iff net ≥ goal; otherwise the shortfall, goal − net. |
| Reports.LeaveCount | src/db.js:385-395 | The number of leave rows of the month. |
| Reports.MonthBank | src/commands.js:249-251 | Monthly balance = worked days − leaves. |
| Reports.LeaveCountIsHours | src/db.js:385-395 | Since every leave is one hour, counting leaves equals summing their hours. |
| Reports.HeaderColumns | src/commands.js:288 | The CSV header names eight columns on one line. |
| Reports.NumberText | src/commands.js:292-293 | `x \|\| ''` prints nothing exactly for a missing or zero value. |
| Reports.CsvFields | src/commands.js:289-298 | Eight columns per row. |
| Reports.CsvBody | src/commands.js:289-298 | One line per row, in order. |
| Reports.FieldsHaveNo | src/commands.js:289-298 | No column of a `getEntries` row holds a comma; only the description can hold a line break. |
| Reports.CsvLineColumns | src/commands.js:289-298 | Every CSV line has exactly seven commas, because the description's commas become `;`. |
| Reports.CsvLines | src/commands.js:288-299 | The export is the header plus exactly one line per row. |
| Commands.PositiveArg | src/commands.js:13-14 | Accepts iff `parseFloat` gives a number above zero; a missing part is rejected. |
| Commands.HourArg | src/commands.js:481-482 | Accepts iff `parseInt` gives an integer in 0-23. |
| Commands.ClassifyDate | src/commands.js:77 | An accepted date is strictly formatted and formats back to the given text. |
| Commands.OptionalDate | src/commands.js:75-77 | No date exactly when the part is missing or empty; a present one must be strict. |
| Commands.DateOrToday | src/commands.js:85-86 | A missing date is today's; an accepted one is strict. |
| Commands.MonthArg | src/commands.js:235 | Accepts iff the strict `YYYY-MM` parser does; the month formats back to the given text. |
| Commands.YesNoArg | src/commands.js:490-491 | Accepts iff the lower-cased word is `sim` or `nao`; true for `sim`. |
| Commands.HandleSalary | src/commands.js:12-29 | Rejects with the usage text and no store change unless the value is positive. Otherwise: ensures the user, appends one salary row, writes the last salary, and replies with the mood of the two latest salaries. |
| Commands.HandleExpense | src/commands.js:31-71 | Rejects unless the value is positive. Otherwise appends one expense row with the split description and category. The alerts are evaluated on the totals after the write. |
| Commands.HandleOvertime | src/commands.js:73-82 | Rejects on a non-positive value or a non-strict date, with no change. Otherwise appends one overtime row. |
| Commands.HandleLeave | src/commands.js:84-91 | A strict date, today by default. Appends one leave of one hour; nothing is written on rejection. |
| Commands.HandleWorked | src/commands.js:93-101 | A strict date, today by default. Appends one worked day and replies with the leave bank after the write. |
| Commands.HandleLeaveBank | src/commands.js:103-107 | Ensures the user and replies with credit, debit and balance. |
| Commands.HandleReport | src/commands.js:109-127 | All-time totals, priced overtime, net and verdict; only the user row is ensured. |
| Commands.HandleMonthlyReport | src/commands.js:233-271 | Rejects a non-strict month with no change. Otherwise the month's totals, net, goal status and monthly leave bank. |
| Commands.HandleMonthlySalary | src/commands.js:273-282 | Checks in order: three words, then a strict month, then a positive value; no change on rejection. Otherwise upserts the monthly salary. |
| Commands.HandleSetGoal | src/commands.js:225-231 | Rejects unless the value is positive; otherwise writes the goal. |
| Commands.HandleAlertConfig | src/commands.js:343-357 | Needs three words and a positive value. `pct` sets the percent threshold and `valor` the absolute one. Any other kind ensures the user and is rejected. |
| Commands.HandleNotifications | src/commands.js:359-373 | `diaria` changes only the daily flag and `semanal` only the weekly one; the other is kept. Any other kind changes nothing but ensures the user. |
| Commands.HandleCategoryLimit | src/commands.js:375-383 | Rejects unless the value is positive; otherwise the category's limit becomes that value. |
| Commands.HandleCategoryLimits | src/commands.js:385-391 | The user's limits, or the no-limits notice when there are none. |
| Commands.HandleCategories | src/commands.js:393-403 | The all-time breakdown with its total, or the notice when it is empty. |
| Commands.HandlePrediction | src/commands.js:405-417 | The forecast, or the warning carrying its error. |
| Commands.HandleHistorical | src/commands.js:419-433 | Two strict months, else rejection with no change. Then the series, or the notice when it is empty. |
| Commands.HandleExportCsv | src/commands.js:284-302 | The CSV of the rows `getEntries` returns, or the nothing-to-export notice. |
| Commands.HandleExportPdf | src/commands.js:304-341 | The totals, net, goal status and rows the document prints, or the notice. |
| Commands.HandleExportSheets | src/commands.js:435-448 | The id is saved before the export; the reply depends on the export outcome. |
| Commands.HandleLanguage | src/commands.js:450-457 | Only `pt` or `en` (any case) is accepted, and it is written lower-cased. |
| Commands.HandlePrefs | src/commands.js:459-477 | Replies with the preferences, the briefing setting and the sorted watchlist. |
| Commands.HandleNotifyHour | src/commands.js:479-486 | An integer hour 0-23 becomes the notify hour; otherwise rejection with no change. |
| Commands.HandleInsight | src/commands.js:488-495 | `sim` stores 1 and `nao` stores 0; anything else is rejected with no change. |
| Commands.HandleBriefing | src/commands.js:497-504 | `sim`/`nao` sets the briefing flag; anything else is rejected with no change. |
| Commands.HandleBriefingHour | src/commands.js:506-513 | An hour 0-23 becomes the briefing hour; otherwise rejection with no change. |
| Commands.HandleAddCrypto | src/commands.js:515-522 | The upper-cased symbol, if it is 2-10 letters or digits, joins the watchlist; otherwise rejection with no change. |
| Commands.HandleRemoveCrypto | src/commands.js:524-530 | Removes the upper-cased symbol. |
| Commands.HandleListCrypto | src/commands.js:532-537 | The sorted watchlist, or the notice when it is empty. |
| Commands.HandlersListed | src/commands.js:190-220 | Every handler has a `case` in the switch. |
| Commands.RouteFrom | src/commands.js:189-221 | A found handler has exactly that label; none found means no later label matches. |
| Commands.RouteExact | src/commands.js:189-221 | A token routes iff it is some handler's label, and then to a handler with that label. |
| Commands.InterpretedCommandsRoute | src/commands.js:187-220 | Every command line the free-text interpreter emits reaches the handler of its own command. |
| Commands.Dispatch | src/commands.js:186-223 | The reply is not-recognised iff the lower-cased first word is no label, and that reply changes nothing. Otherwise the case whose label is exactly that word answers. Its handler runs on the message's own words, and the new store and the reply are the ones that handler's contract states (`Effect`). The reply is one of that handler's warnings, notices or results (`RepliesAs`). The read-only cases only ensure the user row; `!menu` and `!ajuda` change nothing. |
| Commands.DispatchShared | src/commands.js:190-220 | Each case shared with the interpreter runs its own handler on the given words: the new store and reply are that handler's (`SharedEffect`), the reply is one of its own. The read-only cases only ensure the user row; `!menu` and `!ajuda` change nothing. |
| Commands.DispatchMoney | src/commands.js:190-191 | `!salario` and `!gasto` each run their own handler on the given words, with that handler's new store and reply. |
| Commands.DispatchHours | src/commands.js:192-194 | `!horaextra`, `!folga` and `!trabalhei` each run their own handler on the given words, with that handler's new store and reply. |
| Commands.DispatchSetting | src/commands.js:198-213 | `!meta`, `!notificar`, `!idioma` and `!insight` each run their own handler on the given words, with that handler's new store and reply. |
| Commands.DispatchReport | src/commands.js:195-202 | `!relatorio`, `!relatoriomes`, `!bancofolgas`, `!exportcsv` and `!exportpdf` each run their own handler on the given words, with that handler's new store and reply. |
| Commands.DispatchLookup | src/commands.js:206-220 | `!categorias`, `!previsao`, `!historico`, `!menu` and `!ajuda` each run their own handler on the given words, with that handler's new store and reply. |
| MessageQueue.ChatIdShape | src/messageQueue.js:24 | A chat id ends with `@c.us`. A phone that already ends with it is kept; any other gets it appended. |
| MessageQueue.ChatIdIdempotent | src/messageQueue.js:24 | Applying the suffix rule twice equals applying it once. |
| MessageQueue.Backoff | src/messageQueue.js:29 | The wait is min(30000, 1000·attempt): at most 30000 and at least 1000 after a failure. |
| MessageQueue.BackoffMonotone | src/messageQueue.js:29 | More failures never shorten the wait. |
| MessageQueue.BackoffCapped | src/messageQueue.js:29 | The wait is the cap exactly from the thirtieth failure on. |
| MessageQueue.Sent | src/messageQueue.js:21-26 | One sent pair per message, in order: pair i is the chat id and text of message i. |
| MessageQueue.SentAppend | src/messageQueue.js:21-26 | Sending two runs in turn equals sending their concatenation. |
| MessageQueue.Delivered | src/messageQueue.js:21-32 | The count of leading successes, stopping at the first failure. |
| MessageQueue.DeliveredAt | src/messageQueue.js:21-32 | The count is fixed by where the first failure is. |
| MessageQueue.HeadBlocks | src/messageQueue.js:22-32 | A failing head blocks the whole queue. |
| MessageQueue.Queue.constructor | src/messageQueue.js:2-5 | An empty queue, no client, not sending, attempt 0. |
| MessageQueue.Queue.SetClient | src/messageQueue.js:7-9 | Sets the client and nothing else. |
| MessageQueue.Queue.Enqueue | src/messageQueue.js:11-13 | Appends to the tail and changes nothing else. |
| MessageQueue.Queue.Process | src/messageQueue.js:15-38 | No-op when sending, when the queue is empty or without a client. Otherwise the delivered prefix is removed and sent in FIFO order, and `sending` is cleared. Each success resets `attempt`. The first failure keeps the head, adds one attempt and returns that attempt's backoff. |
| Scheduler.DigestNet | src/scheduler.js:32-35 | The digest net satisfies net·220 = salary·(220 + hours) − expense·220. The weekly goal line is reached iff goal > 0 and net ≥ goal, `Sem meta` iff goal ≤ 0, and otherwise shows the shortfall. |
| Scheduler.OptedIn | src/scheduler.js:28-29 | A row is kept iff it is in the read rows and its user asked for the run. |
| Scheduler.Messages | src/scheduler.js:30-43 | Each message goes to `phone@c.us` with that user's digest. |
| Scheduler.DeliveredIsPrefix | src/scheduler.js:26-47 | A run delivers a prefix of the full broadcast, in the order read. |
| Scheduler.NoFailureReachesAll | src/scheduler.js:28-44 | With no failure every opted-in user gets exactly one digest. |
| Scheduler.FailureEndsRun | src/scheduler.js:26-47 | A failure ends the run for all remaining users. |
| Scheduler.Notify | src/scheduler.js:24-48 | Nothing without a client; otherwise exactly what the run delivers. |
| MarketData.SpentBelowIsPercent | src/marketData.js:63-65 | The division-free band test agrees with `(expense / salary) * 100 < p`. |
| MarketData.AdviceBands | src/marketData.js:60-68 | With salary > 0, exactly one band is chosen by the spent share; with salary ≤ 0, the register-your-salary line. |
| MarketData.MissingIsZero | src/marketData.js:60-61 | A missing figure counts as zero. |
| MarketData.InvestmentSuggestions | src/marketData.js:57-72 | Exactly two items: the advice, then the diversification tip. |
| Nlu.ScrubFixed | src/nlu.js:5-9 | Text already in the kept alphabet is not changed by folding and scrubbing. |
| Nlu.CollapseFixed | src/nlu.js:10 | Text of kept characters with no two adjacent spaces is not changed by collapsing. |
| Nlu.BrazilianValue | src/nlu.js:16-26 | The scan of "1.234,56" captures exactly one number, 1234.56. |
| Ledger.WorkedDayCredit | src/db.js:453-458 | A worked day adds one to the credit and the balance, and leaves the debit unchanged. |
| Ledger.LeaveDebit | src/db.js:453-458 | A leave adds one to the debit, leaves the credit unchanged, and lowers the balance by one. |
| Reports.LinesCount | src/commands.js:298 | Joining a header and n single-line rows with line breaks gives exactly n line breaks. |
| Numbers.PointTextParses | src/nlu.js:26 | Digits m written with k decimals read back as m·10^-k. |
| Numbers.Canonical | src/nlu.js:63 | Trailing fractional zeros are stripped, sign and zero-ness kept. |
| Numbers.Show | src/nlu.js:63 | A printed number is never empty. |
| Text.LowerFixed | src/commands.js:452 | Text without upper-case letters is not changed by lower-casing. |
| Text.TrimStart | src/nlu.js:45 | Removes exactly the leading white space. |
| Text.TrimEnd | src/nlu.js:45 | Removes exactly the trailing white space. |
| Text.LexLeqIsTotalPreorder | src/db.js:169 | Text comparison, as `ORDER BY` uses it, is a total preorder. |
| Text.Lower | src/commands.js:188 | ASCII lower-casing, character by character. |
| Text.Upper | src/commands.js:517 | ASCII upper-casing, character by character. |
| Text.UpperIdempotent | src/commands.js:517 | Upper-casing twice equals once. |
| Text.Trim | src/nlu.js:45 | No white space at either end. The result occurs in the input with only white space before and after it, so exactly the leading and trailing white space is removed. |
| Text.Words | src/commands.js:187 | Non-empty words, none containing white space; no words iff the text is all white space. |
| Text.SplitArgs | src/commands.js:187 | `trim().split(/\s+/)` has at least one part. It is `[""]` iff the text has no word, and otherwise the words. |
| Text.WordsAfter | src/commands.js:187 | A word followed by white space splits off as the first word. |
| Text.WordsSkip | src/commands.js:187 | Leading white space splits off no word. |
| Text.ReplaceChar | src/commands.js:294 | Replaces exactly the occurrences of one character. |
| Text.SortedSet | src/db.js:169 | `ORDER BY`: each element once, strictly ascending. |
| Text.CountChar | src/commands.js:299 | Counts occurrences; zero exactly when absent. |
| Text.JoinCount | src/commands.js:299 | Joining pieces free of `c` with `c` gives one `c` fewer than pieces. |
| Text.JoinAbsent | src/commands.js:298 | A character absent from the pieces and the separator is absent from the join. |
| Numbers.ValueSign | src/commands.js:13-14 | A parsed value is above zero exactly when it is non-negative with a non-zero mantissa. |
| Numbers.ParseLeadingDigit | src/nlu.js:26 | Text starting with a digit parses, to a non-negative number. |
| Numbers.ParseDigits | src/nlu.js:26 | A run of digits parses as the integer it spells. |
| Numbers.ShowParses | src/nlu.js:63 | A number printed into a command line reads back through `parseFloat` as the same value. |
| Numbers.ShowChars | src/nlu.js:63 | A printed non-negative number is digits with at most a decimal point. |
| Numbers.CanonicalValue | src/nlu.js:63 | Stripping trailing zeros keeps the value. |
| Numbers.NatToString | src/nlu.js:63 | Digits that spell n. |
| Dates.ParseStrictDate | src/commands.js:77 | An accepted date is a calendar date. |
| Dates.ParseStrictMonth | src/commands.js:235 | An accepted month is valid. |
| Dates.FormatThenParseDate | src/commands.js:77 | Formatting a date and parsing it strictly gives the date back. |
| Dates.ParseThenFormatDate | src/commands.js:77 | Strictly parsed text is exactly the formatted date. |
| Dates.FormatThenParseMonth | src/commands.js:235 | Formatting a month and parsing it strictly gives the month back. |
| Dates.ParseThenFormatMonth | src/commands.js:235 | Strictly parsed text is exactly the formatted month. |
| Sorting.InsertSorted | src/analytics.js:43 | Insertion keeps the list sorted and adds exactly the new element. |
| Sorting.SortBy | src/analytics.js:43 | The result is sorted and is a permutation of the input. |

## Left out

- Binary floating point is not modelled. Amounts are exact decimals and reals, so `toFixed` rounding, 0.1 + 0.2 effects and overflow to Infinity are absent.
- Numbers.Show: prints plain digits. JavaScript's `String(number)` uses exponent notation below 1e-6 and from 1e21 on, so a command line such as `!gasto 1e-7` reads differently. `parseFloat` still reads it back as the same value.
- `parseFloat` does not accept the literal `Infinity`.
- `formatCurrency`, `toFixed` and the literal reply texts are not modelled; replies carry the values the text prints.
- Unicode NFD decomposition is modelled only for Latin-1 letters. `toLowerCase` and `toUpperCase` map ASCII letters only.
- index.js (WhatsApp client, HTTP and Socket.IO), sheets.js (a foreign API) and events.js (the `emitUpdate` notifications) are not part of this model.
- The Google Sheets export is a parameter: its success or error message.
- The PDF document and the base64 encoding of the CSV and PDF files are not modelled: foreign libraries.
- The network fetches of `marketData.js` (prices and news) are not modelled.
- The help text of `handleHelp` and the menu text are not modelled; only which reply is given.
- Clocks are inputs. `moment()` (local "today") and `CURRENT_TIMESTAMP` (UTC "now") are parameters, and the model does not relate the two.
- Cron schedules, `setInterval` and `setTimeout` are not modelled; `processQueue` is one run given the send outcomes. So is the race in which `finally` clears `sending` while a retry is pending.
- The user rows that `getAllUsersTotals` returns are an input to the scheduler, not computed from the store.
- The digest texts are not modelled; the digests carry their values.
- The per-day listings of the monthly report (overtime by day, leaves, worked days) are not modelled, beyond the monthly leave-bank balance.
- `initDb` and `initDbMonthly` migrations and the SQLite engine are not modelled.
- `getUser`, `markDailySent` and `markInsightSent` are not modelled separately. `markDailySent` and `markInsightSent` are called by nothing in the core; `getUser` appears through the user map.
- Reports.RecentSalaries: `ORDER BY created_at DESC` is modelled as reverse table order. Rows created in the same second may come back in a different order in SQLite.
- Sorting.SortBy: states sortedness and permutation but not stability, although the model's insertion sort keeps ties in arrival order as `Array.prototype.sort` does.
- Commands.RouteExact: the handler labels are not proved pairwise distinct. The first matching `case` is taken, as in the `switch`.
- Nlu.CollectHints: the ten `if` tests of `suggest` are a loop over a family table in the same order.
