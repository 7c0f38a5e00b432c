# maxim_income_bot — a verified model of the conversation and the record store

maxim_income_bot is a Telegram bookkeeping bot for a driver. Through a reply keyboard the
driver adds orders (count, nominal, tips) and expenses, asks for a daily or a monthly
report, and deletes or edits a record picked by date and id. This project models, in
Dafny, the parts of `app/bot.py` and `app/crud.py` that decide what happens, with the
record fields of `app/models.py`:

- **the conversation** (`flow.dfy`, module `Flow`). Each user is in a `FlowState`: idle,
  or one step of the add-order, add-expense, monthly-report, daily-report, delete or edit
  wizards. A state carries the values that its flow has collected so far. `Flow.Step` is
  what one text message does. It returns the user's next state, both tables afterwards
  and the kind of answer. `Flow.Route` picks the handler that aiogram runs, which is the
  first registered handler whose filter accepts the message. The ranks follow the
  handlers' order in the file: cancel, `/start`, then the menu buttons and the state
  handlers interleaved as registered, then the default handler.
- **the running bot** (`bot.dfy`, class `Bot.Bot`). It holds the dispatcher's per-user
  FSM storage as a `map<UserId, FlowState>` and the database as a `Store.RecordStore`.
  `Receive` handles one message in place. Its contract says it does what `Flow.Step`
  says, it changes only the sender's entry, and it keeps the store's invariant.
- **date text** (`dates.dfy`). This covers `strptime` with `%d-%m-%y` and `%d-%m-%Y` as
  CPython's `_strptime` matches them: `%d` accepts one or two digits or a space and a
  digit, the `%y` pivot maps 69–99 to 19xx and 00–68 to 20xx, and the whole text must
  match. It also covers Gregorian validity, `strftime("%d-%m-%y")` and the first and
  last day of a month.
- **Python's conversions** of message text (`text.dfy`, `numbers.dfy`): `strip`,
  `lower`, `isdigit`, `int()`, `float()` on decimal literals, and `int()` of a float.
- **the record store** (`store.dfy`). The two tables are sequences of rows with unique
  positive keys. The pure functions are the queries and the table after each change.
  Class `RecordStore` carries the in-place `add_*`, `delete_*` and `edit_*` operations,
  each proved against those functions.
- **the reports** (`reports.dfy`). The daily sums are over one date. The monthly report
  groups rows by day in a dict with accumulating loops, lists the days in chronological
  order and ends with the grand totals. Method `BuildMonthlyReport` runs the loops of the
  source and is proved equal to the specification `MonthlySummary`.

Money is an exact `real`. Dates are `(day, month, year)` values. The server's clock is
the parameter `today`.

Behaviour that the model reproduces as the code has it:

- The add-order flow asks for a date and normalises it, but `add_order_record` never
  receives that date. Every order is stored under the day it is saved
  (`Flow.OrderSavedWithTodaysDate`, `Flow.OrderDateIgnored`).
- A DD-MM-YYYY expense date is rewritten as DD-MM-YY. The store then reads it back
  through the `%y` pivot, so a year outside 1969–2068 is stored in the wrong century
  (`Flow.ExpenseYearThroughPivot`).
- The default handler takes no FSM context, so it leaves the state as it is. A
  description of the bot in which it returns the user to idle comes to the same thing:
  the default handler runs only when the user is already idle
  (`Flow.UnrecognizedOnlyWhenIdle`).
- A bad date in the monthly or daily report step keeps the user in that step. The
  monthly step reads its text only with `%d-%m-%Y`, so it refuses "hari ini"
  (`Flow.MonthlyRejectsToday`). The daily step accepts "hari ini"
  (`Flow.DailyAcceptsToday`).
- The order date step tests "hari ini" before stripping. The expense date step tests it
  after stripping (`Flow.TodayWithBlanks`).
- `isdigit()` runs on the raw order count, so " 5" is refused although `int(" 5")` would
  read it (`Flow.OrderCountRefusesBlank`).
- While an order is being added, the later menu buttons reach the order step's handler
  first, because that handler is registered before them (`Flow.OrderFlowShadowsMenus`,
  `Flow.ExpenseButtonAsOrderCount`).

## Model

| member | source | states |
|---|---|---|
| Dates.DaysInMonth | app/bot.py:263 | `calendar.monthrange`: a month has 28 to 31 days, and has 29 exactly when it is February of a leap year |
| Dates.PivotYear | app/crud.py:79 | the `%y` year of a two-digit field lies in 1969–2068 and ends in those two digits |
| Dates.ParseDate | app/bot.py:119-121 | what `strptime` accepts names a real calendar date; read with `%y`, the year lies in the pivot window; `Dates.LongTextOfParse` and `Dates.FormatShortOfParse` state that an accepted text is the text of the date it names |
| Dates.ParseFormatShort | app/crud.py:79 | the DD-MM-YY text of a date reads back with `%y` as that date with its year moved into the pivot window |
| Dates.ParseLongText | app/bot.py:121 | the DD-MM-YYYY text of any date reads back with `%Y` as exactly that date |
| Dates.FormatShortOfParse | app/bot.py:118-124 | an 8-character text that `%d-%m-%y` accepts is written back unchanged by `strftime("%d-%m-%y")` |
| Dates.LongTextOfParse | app/bot.py:121 | a 10-character text that `%d-%m-%Y` accepts is the DD-MM-YYYY text of the date it names, so the parse keeps the typed day, month and year |
| Dates.ShortReadingInWindow | app/crud.py:79 | for a year in 1969–2068, going through DD-MM-YY and back gives the same date |
| Dates.ShortReadingOutsideWindow | app/crud.py:79 | for any other year the round trip lands in another century with the same last two digits |
| Dates.InMonthRange | app/bot.py:262-266 | a date lies between the first and the last day of a month exactly when it is in that month, leap years included |
| Text.Strip | app/bot.py:115 | `strip()` leaves no whitespace at either end and never lengthens the text |
| Text.StripKeepsMiddle | app/bot.py:115 | `strip()` removes only whitespace, and only at the two ends: the result is the slice of the text after its leading whitespace, and everything after that slice is whitespace |
| Numbers.ParseInt | app/bot.py:403 | on ASCII text without underscores, `int()` succeeds exactly when the stripped text is an optional sign followed by digits |
| Numbers.ParseIntIgnoresBlanks | app/bot.py:403 | `int()` reads a text as it reads the text stripped of its surrounding whitespace |
| Numbers.ParseIntPadded | app/bot.py:403 | `int()` of a digit run with a `+` or `-` sign and blanks around it is that run's value with that sign |
| Numbers.LeadingZeros | app/bot.py:403 | leading zeros do not change the value `int()` reads |
| Numbers.ParseIntText | app/bot.py:403 | `int(str(i)) == i` for every integer |
| Numbers.ParseFloatIntText | app/bot.py:147 | `float(str(i))` is `i` for every integer |
| Numbers.ParseFloat | app/bot.py:147 | `float()` on a decimal literal: surrounding whitespace, an optional sign, a mantissa and an optional exponent, anything else a ValueError; its values are stated by `Numbers.ParseFloatIntText` and `Numbers.ParseFloatDecimal` |
| Numbers.ParseFloatDecimal | app/bot.py:147 | `float()` reads a decimal fraction such as "12.50", ".5" or "7." as its exact value |
| Numbers.Trunc | app/crud.py:27 | `int(x)` of a float truncates toward zero |
| Store.NextId | app/crud.py:68-70 | the key of a new row is positive and above every key in the table |
| Store.Find | app/crud.py:8 | `.first()` of the id and user filter: the first row with that key and that owner, and nothing exactly when no row matches |
| Store.OnDate | app/crud.py:92-96 | the point query returns exactly the user's rows of that date |
| Store.InRange | app/crud.py:46-58 | the range query returns exactly the user's rows with start ≤ date ≤ end |
| Store.Inserted | app/crud.py:61-90 | the table after `db.add` of a new row; `Store.InsertedFresh` and `Store.InsertedOtherUser` state what it keeps and adds |
| Store.Removed | app/crud.py:7-21 | the table after `db.delete` of the row that `.first()` finds; `Store.RemovedExactly` and `Store.RemovedOtherUser` state what it removes |
| Store.OrderEdited | app/crud.py:23-34 | the order table after `edit_order_record`; `Store.OrderEditedExactly` and `Store.OrderEditedOtherUser` state what it changes |
| Store.ExpenseEdited | app/crud.py:37-43 | the expense table after `edit_expense_record`; `Store.ExpenseEditedExactly` and `Store.ExpenseEditedOtherUser` state what it changes |
| Store.InsertedFresh | app/crud.py:61-71 | an insert appends one row with a key no other row has, and the table keeps unique keys |
| Store.RemovedExactly | app/crud.py:7-21 | a delete removes exactly the row with that id and user, if there is one, and keeps every other row |
| Store.OrderEditedExactly | app/crud.py:23-34 | an order edit changes only the named column of the matching row: "order" sets the count to `int(new_value)`, "nominal" and "tips" set theirs, another name changes nothing; every other row stays |
| Store.ExpenseEditedExactly | app/crud.py:37-43 | an expense edit sets the amount of the matching row and leaves every other row alone |
| Store.InsertedOtherUser | app/crud.py:61-71 | an insert for one user leaves every other user's rows as they were |
| Store.RemovedOtherUser | app/crud.py:7-21 | a delete never touches another user's rows |
| Store.OrderEditedOtherUser | app/crud.py:23-34 | an order edit never touches another user's rows |
| Store.ExpenseEditedOtherUser | app/crud.py:37-43 | an expense edit never touches another user's rows |
| Store.RecordStore.constructor | app/models.py:6-21 | both tables start empty and well formed |
| Store.RecordStore.AddOrderRecord | app/crud.py:61-71 | appends one order with the next key, the given user, count, nominal and tips, and today's date as the column default; the expenses stay |
| Store.RecordStore.AddExpenseRecord | app/crud.py:73-90 | fails and inserts nothing exactly when the date is not a DD-MM-YY date; otherwise appends one expense with the next key and the `%y` reading of the date |
| Store.RecordStore.DeleteOrderRecord | app/crud.py:7-13 | returns true exactly when an order with that id and user exists, and removes exactly that row |
| Store.RecordStore.DeleteExpenseRecord | app/crud.py:15-21 | returns true exactly when an expense with that id and user exists, and removes exactly that row |
| Store.RecordStore.EditOrderRecord | app/crud.py:23-34 | returns true exactly when an order with that id and user exists, even for an unknown field, and leaves the table as `OrderEdited` describes |
| Store.RecordStore.EditExpenseRecord | app/crud.py:37-43 | returns true exactly when an expense with that id and user exists, and sets that row's amount |
| Reports.SortDates | app/bot.py:286 | `sorted(keys)` by date: the same distinct days, in strictly chronological order |
| Reports.DailySummary | app/bot.py:336-356 | the daily report over the two point queries: count, nominal and tips summed over the orders, income = nominal + tips, net = income − expenses; `Flow.ReportsOfLongDate` and `Reports.MonthlyLineIsDaily` relate it to the other reports |
| Reports.MonthlySummary | app/bot.py:259-308 | the monthly report over the two range queries; its lines and totals are stated by `Reports.SortedLinesAddUp`, `Reports.SortedLinesChronological`, `Reports.SortedLinesCover` and `Reports.MonthlyTotalsAddUp` |
| Reports.DaysDistinct | app/bot.py:272-273 | the grouping dict gets each day once |
| Reports.DaysCover | app/bot.py:270-273 | the dict's days are exactly the days of the rows |
| Reports.GroupKeys | app/bot.py:269-276 | the dict has an entry exactly for each day with rows |
| Reports.GroupIsTotal | app/bot.py:270-276 | each day's accumulated value is the sum of that day's rows |
| Reports.SumOverGroup | app/bot.py:299-303 | summing the dict's values gives the sum over all rows |
| Reports.SumOverSorted | app/bot.py:286 | listing the days sorted does not change their sum |
| Reports.SortedLinesAddUp | app/bot.py:286-303 | the per-day lines of the report add up to the grand totals |
| Reports.SortedLinesChronological | app/bot.py:286-298 | the report lists its days in strictly increasing date order |
| Reports.SortedLinesCover | app/bot.py:270-298 | the report has a line for a day exactly when some row has that day |
| Reports.MonthlyTotalsAddUp | app/bot.py:299-308 | the day lines add up to the recap; income is nominal plus tips; net is income minus expenses |
| Reports.RangeDayIsDate | app/crud.py:46-58 | the rows of day d in a range query that covers d are exactly what the point query for d returns |
| Reports.DayLinePresent | app/bot.py:265-298 | the monthly report has a line for day d exactly when the user has rows on d |
| Reports.DayLineSums | app/bot.py:270-293 | the line of day d in the monthly report sums exactly the user's rows on d |
| Reports.MonthlyLineIsDaily | app/bot.py:259-356 | a day's line in the monthly report shows the same count, nominal, tips and expense as that day's daily report, and is there exactly when that day has records |
| Reports.BuildMonthlyReport | app/bot.py:269-308 | the grouping loops, the sorted listing and the recap give `MonthlySummary` |
| Reports.GroupEntries | app/bot.py:269-283 | the accumulating loop builds the dict `Group` with keys in first-seen order |
| Reports.DayLines | app/bot.py:286-298 | the loop over the sorted keys produces one line per day, chronologically |
| Reports.SumValues | app/bot.py:299-303 | `sum(d.values())` over the dict is the sum over all rows |
| Flow.MenuOfLabel | app/bot.py:96 | each button text is recognised as its own button |
| Flow.Route | app/bot.py:83-618 | the handler aiogram runs for a message: cancel, `/start`, the buttons and the state handlers in registration order, then the default handler; stated by `Flow.RouteIsFirstMatch` |
| Flow.Step | app/bot.py:83-618 | what one text message does: the next state, both tables and the answer, from the handler `Flow.Route` picks; stated by `Flow.CancelFromAnyState`, `Flow.StartFromAnyState`, `Flow.AddOrderMenuAlwaysWins`, `Flow.StepKeepsWellFormed` and `Flow.StepIsolatesUsers` |
| Flow.Advance | app/bot.py:103-613 | the handler of the state the user is in; stated by `Flow.AdvanceDisciplined`, `Flow.AdvanceReadOnly` and `Flow.AdvanceKeepsRecords` |
| Flow.RouteIsFirstMatch | app/bot.py:83-618 | the chosen handler accepts the message, and every other handler that accepts it was registered later |
| Flow.CancelFromAnyState | app/bot.py:83-87 | "/cancel", "❌ batal", "cancel", "back" or "kembali" in any letter case clears every state and changes no table |
| Flow.StartFromAnyState | app/bot.py:90-94 | "/start" clears every state, changes no table and shows the menu |
| Flow.AddOrderMenuAlwaysWins | app/bot.py:96-101 | "➕ Tambah Order" starts the add-order flow from every state |
| Flow.OrderFlowShadowsMenus | app/bot.py:103-183 | inside the add-order flow every other button goes to the order step's handler |
| Flow.ExpenseButtonAsOrderCount | app/bot.py:135-138 | "➕ Tambah Pengeluaran" typed as the order count is refused as an invalid number |
| Flow.ButtonInterrupts | app/bot.py:96-613 | a button pressed inside a flow starts its own flow exactly when it is registered before the current step's handler |
| Flow.UnrecognizedOnlyWhenIdle | app/bot.py:616-618 | the default answer is given only to an idle user, who stays idle, and no table changes |
| Flow.AdvanceReadOnly | app/bot.py:103-613 | the handlers of the date, count, nominal, report, listing, id and field steps never change a table |
| Flow.OrderDateStep | app/bot.py:103-129 | `process_date_input`: "hari ini" or a DD-MM-YY/DD-MM-YYYY date moves on to the count with the DD-MM-YY text, anything else asks again; stated by `Flow.OrderDateStepDisciplined`, `Flow.OrderDateStepForms` |
| Flow.OrderCountStep | app/bot.py:135-142 | `process_order_count`: a digit text moves on to the nominal with its value, anything else asks again; stated by `Flow.OrderCountStepDisciplined`, `Flow.OrderCountDigits` |
| Flow.OrderNominalStep | app/bot.py:144-152 | `process_total_nominal`: a number moves on to the tips, anything else asks again; stated by `Flow.OrderNominalStepDisciplined` |
| Flow.OrderTipsStep | app/bot.py:154-177 | `process_tips`: a number saves the order and goes idle, anything else asks again; stated by `Flow.OrderTipsStepDisciplined`, `Flow.OrderSavedWithTodaysDate` |
| Flow.ExpenseDateStep | app/bot.py:192-216 | `process_expense_date`: a date moves on to the amount with its DD-MM-YY text, anything else asks again; stated by `Flow.ExpenseDateStepDisciplined`, `Flow.ExpenseDateStepLong` |
| Flow.ExpenseAmountStep | app/bot.py:221-239 | `process_expense_amount`: a number saves the expense and goes idle, anything else asks again; stated by `Flow.ExpenseAmountStepDisciplined`, `Flow.ExpenseAmountSaves` |
| Flow.MonthlyReportStep | app/bot.py:256-312 | `process_monthly_report_date`: a DD-MM-YYYY date answers the month's report and goes idle, anything else asks again; stated by `Flow.MonthlyReportStepDisciplined`, `Flow.ReportsOfLongDate` |
| Flow.DailyReportStep | app/bot.py:326-360 | `process_daily_report_date`: "hari ini" or a DD-MM-YYYY date answers the day's report and goes idle, anything else asks again; stated by `Flow.DailyReportStepDisciplined`, `Flow.ReportsOfLongDate` |
| Flow.ListOrdersStep | app/bot.py:371-395 | `process_delete_order_date` and `process_edit_order_date`: a date lists the day's orders and moves to the id step, or ends when there are none; anything else asks again; stated by `Flow.ListOrdersOutcome`, `Flow.ListOrdersStepDisciplined` |
| Flow.ListExpensesStep | app/bot.py:425-449 | `process_delete_expense_date` and `process_edit_expense_date`: the same for expenses; stated by `Flow.ListExpensesOutcome`, `Flow.ListExpensesStepDisciplined` |
| Flow.DeleteOrderStep | app/bot.py:397-417 | `process_delete_order`: an id deletes the user's order with it, if any, and the flow ends on every input; stated by `Flow.DeleteOrderStepDisciplined`, `Flow.DeleteOrderStepKeepsRecords` |
| Flow.DeleteExpenseStep | app/bot.py:451-471 | `process_delete_expense`: the same for expenses; stated by `Flow.DeleteExpenseStepDisciplined`, `Flow.DeleteExpenseStepKeepsRecords` |
| Flow.EditOrderIdStep | app/bot.py:505-516 | `process_edit_order_id`: an id moves on to the field, anything else asks again; stated by `Flow.EditOrderIdStepDisciplined` |
| Flow.EditOrderFieldStep | app/bot.py:518-525 | `process_edit_order_field`: "order", "nominal" or "tips" in any case moves on to the value, anything else asks again; stated by `Flow.EditOrderFieldStepDisciplined` |
| Flow.EditOrderValueStep | app/bot.py:527-547 | `process_edit_order_new_value`: a number edits the field of the user's order, and the flow ends on every input; stated by `Flow.EditOrderValueStepDisciplined`, `Flow.EditOrderValueStepKeepsRecords` |
| Flow.EditExpenseIdStep | app/bot.py:581-592 | `process_edit_expense_id`: an id moves on to the value, anything else asks again; stated by `Flow.EditExpenseIdStepDisciplined` |
| Flow.EditExpenseValueStep | app/bot.py:594-613 | `process_edit_expense_new_value`: a number sets the amount of the user's expense, and the flow ends on every input; stated by `Flow.EditExpenseValueStepDisciplined`, `Flow.EditExpenseValueStepKeepsRecords` |
| Flow.OrderDateStepDisciplined | app/bot.py:103-129 | a bad order date asks again and changes nothing |
| Flow.OrderCountStepDisciplined | app/bot.py:135-142 | a non-digit count asks again and changes nothing |
| Flow.OrderNominalStepDisciplined | app/bot.py:144-152 | a non-numeric nominal asks again and changes nothing |
| Flow.OrderTipsStepDisciplined | app/bot.py:154-177 | non-numeric tips ask again; only a saved order changes a table |
| Flow.ExpenseDateStepDisciplined | app/bot.py:192-216 | a bad expense date asks again; this is the one step that moves to the amount step |
| Flow.ExpenseAmountStepDisciplined | app/bot.py:221-239 | a non-numeric amount asks again; only a saved expense changes a table |
| Flow.MonthlyReportStepDisciplined | app/bot.py:256-312 | a bad report date asks again and changes nothing |
| Flow.DailyReportStepDisciplined | app/bot.py:326-360 | a bad report date asks again and changes nothing |
| Flow.ListOrdersStepDisciplined | app/bot.py:371-395 | a bad date at the delete or edit order date step asks again and changes nothing |
| Flow.ListExpensesStepDisciplined | app/bot.py:425-449 | a bad date at the delete or edit expense date step asks again and changes nothing |
| Flow.DeleteOrderStepDisciplined | app/bot.py:397-417 | a bad order id ends the flow; the reply says deleted exactly when the table changed |
| Flow.DeleteExpenseStepDisciplined | app/bot.py:451-471 | a bad expense id ends the flow; the reply says deleted exactly when the table changed |
| Flow.EditOrderIdStepDisciplined | app/bot.py:505-516 | a bad order id asks again and changes nothing |
| Flow.EditOrderFieldStepDisciplined | app/bot.py:518-525 | a field other than order, nominal or tips asks again and changes nothing |
| Flow.EditOrderValueStepDisciplined | app/bot.py:527-547 | a non-numeric value ends the flow; only an update changes a table |
| Flow.EditExpenseIdStepDisciplined | app/bot.py:581-592 | a bad expense id asks again and changes nothing |
| Flow.EditExpenseValueStepDisciplined | app/bot.py:594-613 | a non-numeric value ends the flow; only an update changes a table |
| Flow.AdvanceDisciplined | app/bot.py:103-613 | every state's handler keeps both disciplines: retry or end on bad input as written, write only on a commit, and never give the fallback answer |
| Flow.InvalidInputRetries | app/bot.py:103-613 | after any invalid answer no table has changed, and the user is where they were, or idle in the four steps that end in `finally` |
| Flow.FinallyClears | app/bot.py:397-613 | the delete-id and edit-new-value steps always end in idle, valid input or not |
| Flow.TablesChangeOnlyOnCommit | app/bot.py:154-613 | a table changes only with a saved, deleted or updated record, and a delete is reported as done exactly when it changed the table |
| Flow.StepKeepsWellFormed | app/crud.py:7-90 | no message ever makes two rows share a key |
| Flow.StepIsolatesUsers | app/crud.py:7-96 | a message from one user leaves every other user's records unchanged |
| Flow.OrderTipsStepKeepsRecords | app/bot.py:154-177 | saving an order keeps keys unique and touches no other user's rows |
| Flow.ExpenseAmountStepKeepsRecords | app/bot.py:221-239 | saving an expense keeps keys unique and touches no other user's rows |
| Flow.DeleteOrderStepKeepsRecords | app/bot.py:397-417 | deleting an order keeps keys unique and touches no other user's rows |
| Flow.DeleteExpenseStepKeepsRecords | app/bot.py:451-471 | deleting an expense keeps keys unique and touches no other user's rows |
| Flow.EditOrderValueStepKeepsRecords | app/bot.py:527-547 | editing an order keeps keys unique and touches no other user's rows |
| Flow.EditExpenseValueStepKeepsRecords | app/bot.py:594-613 | editing an expense keeps keys unique and touches no other user's rows |
| Flow.AdvanceKeepsRecords | app/bot.py:103-613 | every state's handler keeps keys unique and touches no other user's rows |
| Flow.OrderSavedWithTodaysDate | app/bot.py:154-175 | a saved order comes only from the tips step: exactly one row is appended with today's date and the collected count and nominal, total = nominal + tips, and the user goes idle |
| Flow.OrderDateIgnored | app/bot.py:161-163 | the date collected by the add-order flow has no effect on what is stored |
| Flow.ConsistentPreserved | app/bot.py:192-216 | the expense date waiting in the amount step is always a text the store's `%y` parse accepts |
| Flow.ExpenseDateConsistent | app/bot.py:199-214 | the expense date step stores only DD-MM-YY texts that `%d-%m-%y` accepts |
| Flow.ExpenseAmountSaves | app/bot.py:221-239 | a numeric amount appends exactly one expense with the parsed date and goes idle; a non-numeric one asks again |
| Flow.OrderDateForms | app/bot.py:115-129 | a DD-MM-YYYY date, and in 1969–2068 also its DD-MM-YY form, both move on with the same DD-MM-YY text |
| Flow.OrderDateStepForms | app/bot.py:115-124 | the order date handler normalises both forms of a date to its DD-MM-YY text |
| Flow.ExpenseDateLong | app/bot.py:207-216 | a DD-MM-YYYY expense date moves on with its DD-MM-YY text |
| Flow.ExpenseDateStepLong | app/bot.py:207-209 | the expense date handler rewrites a DD-MM-YYYY date as DD-MM-YY |
| Flow.ExpenseYearThroughPivot | app/bot.py:207-229 | the stored expense date equals the entered DD-MM-YYYY date exactly when its year is in 1969–2068 |
| Flow.TodayWithBlanks | app/bot.py:112-202 | " hari ini" is refused as an order date but accepted as today's expense date |
| Flow.OrderDateBlankToday | app/bot.py:112-123 | " hari ini" is no order date |
| Flow.ExpenseDateBlankToday | app/bot.py:201-203 | " hari ini" is today's expense date |
| Flow.MonthlyRejectsToday | app/bot.py:256-312 | "hari ini" in the monthly step is an invalid date and keeps the user there |
| Flow.DailyAcceptsToday | app/bot.py:326-358 | "hari ini" in the daily step reports today's sums and goes idle |
| Flow.OrderCountDigits | app/bot.py:135-142 | a digit text as the order count moves on with its value |
| Flow.OrderCountRefusesBlank | app/bot.py:137-139 | a count with a leading blank is refused although `int()` would read it |
| Flow.ListingIsTheDay | app/bot.py:371-579 | any listing answer shows exactly the user's records of that date, is never empty, and leads to the id step; `Flow.ListOrdersOutcome` and `Flow.ListExpensesOutcome` give the converse |
| Flow.AdvanceListing | app/bot.py:386-579 | whenever a date step of the delete and edit flows answers with a listing, it lists exactly the user's records of the date, is not empty, and leads to the id step |
| Flow.ListOrdersOutcome | app/bot.py:371-395 | at the delete and edit order date steps (also app/bot.py:479-503), a valid date lists exactly the user's orders of that day and moves to the id step when there are some, and otherwise ends the flow with the nothing-on-that-date answer; no table changes |
| Flow.ListExpensesOutcome | app/bot.py:425-449 | the same at the delete and edit expense date steps (also app/bot.py:555-579) |
| Flow.ReportsOfLongDate | app/bot.py:256-363 | a DD-MM-YYYY date gives the monthly report over its month's range query and the daily report over its point query, then idle |
| Flow.MonthlyAgreesWithDaily | app/bot.py:256-363 | the monthly report's line for a day agrees with that day's daily report and is present exactly when the day has records |
| Bot.Bot.constructor | app/bot.py:20-21 | a new dispatcher has no sessions and empty tables |
| Bot.Bot.Receive | app/bot.py:83-618 | one message moves only its sender's state, changes the tables and answers as `Flow.Step` says, and keeps keys unique and stored expense dates readable |
| Bot.Bot.Handle | app/bot.py:103-613 | the state handler does in place what `Flow.Advance` says |
| Bot.Bot.SaveOrder | app/bot.py:154-180 | the tips step does in place what `Flow.OrderTipsStep` says |
| Bot.Bot.SaveExpense | app/bot.py:221-242 | the amount step does in place what `Flow.ExpenseAmountStep` says |
| Bot.Bot.DeleteOrder | app/bot.py:397-417 | the delete-order step does in place what `Flow.DeleteOrderStep` says |
| Bot.Bot.DeleteExpense | app/bot.py:451-471 | the delete-expense step does in place what `Flow.DeleteExpenseStep` says |
| Bot.Bot.EditOrder | app/bot.py:527-547 | the edit-order value step does in place what `Flow.EditOrderValueStep` says |
| Bot.Bot.EditExpense | app/bot.py:594-613 | the edit-expense value step does in place what `Flow.EditExpenseValueStep` says |
| Bot.Bot.MonthlyReportAnswer | app/bot.py:256-315 | the monthly step runs the range queries and the grouping loops and answers as `Flow.MonthlyReportStep` says |

## Left out

- The Telegram transport, the reply keyboard and the Indonesian wording. A reply is the kind of answer plus the values it shows.
- `:,.0f` formatting and float rounding. Money is an exact `real`, so sums are exact.
- `float()` of `inf`, `nan`, digits with underscores, and non-ASCII digits.
- Numbers.ParseInt: `int()` also accepts underscores between digits ("1_0" is 10) and non-ASCII decimal digits. The model reads only ASCII digits, so it refuses both with the invalid-number answer. For example, "1_0" at the delete step deletes nothing, where the bot deletes record 10.
- `isdigit()` (`Numbers.IsDigitText`) also accepts non-ASCII digits, and superscripts such as "²" then make `int()` fail. The model accepts only ASCII digits as an order count.
- Dates.ParseDate: `strptime` builds `%Y` as `\d\d\d\d`, `%y` as `\d\d`, and the `[12]\d` branch of `%d` with `\d`, and it does not compile them as ASCII-only. So any Unicode decimal digit matches there and is read by `int()`: "15-01-٢٠٢٤", with the year in Arabic-Indic digits, is accepted by the order, expense and report date steps. The model reads only ASCII digits and answers `InvalidDate`.
- `lower()` and `strip()` of characters outside ASCII except the whitespace set; `lower()` folds only A–Z.
- A command is recognised when the message's first word is exactly `/cancel` or `/start`. The `/cancel@botname` form and aiogram's other command options are not modelled. Messages without text (`message.text is None`) are not modelled either.
- Database failures and the generic `except Exception` branches (app/bot.py:178-179, 240-242, 313-315, 361-363, 414-415, 468-469, 544-545, 610-611), which answer with the error text and clear the state. A failing database reaches them, and so does a healthy one through integer width (next line). Sessions, commit, refresh and close are not modelled either.
- Flow.OrderTipsStep, Flow.DeleteOrderStep, Flow.DeleteExpenseStep, Flow.EditOrderValueStep, Flow.EditExpenseValueStep: SQLite integers are 64-bit, and binding an `int` outside [-2^63, 2^63) raises `OverflowError`, but the model's integers are unbounded. So the model saves an order whose count has 20 or more digits (it passes `isdigit()`) with `OrderSaved`; answers `Deleted(false)` or `Updated(false)` to an out-of-range id at the delete and edit-value steps; and changes the row and answers `Updated(true)` for an "order" edit value of 2^63 or more (`int(new_value)`, app/crud.py:27). In each case the bot answers with the error, clears the state and changes no table.
- Concurrency between users' handlers. Each user has an independent map entry, and one `Receive` is one message.
- `app/routes.py`, `main.py`, `app/database.py` and `app/schemas.py`: endpoints, startup and session plumbing.
- The order of the rows that `.all()` returns. Queries return rows in table order, and no contract depends on that order.
- The report sort key re-parses each "%d-%m-%Y" key. The model sorts the dates themselves, which gives the same order.
- `total_order_count` of the monthly report is computed but never shown, so it is not part of `MonthlyReport`.
- The dates that the delete and edit flows store with `update_data` are never read again, so they are not kept.
- Keys that a menu jump leaves in the FSM data are never read by a later step, so they are not kept.
- `datetime.now()` is the parameter `today`. Dates are valid Gregorian dates with years 1–9999.
