/**
 * The conversation of app/bot.py, one incoming text message at a time.
 *
 * Each user has a finite-state-machine state (aiogram's FSM context) that
 * holds the step the user is at and the values the flow has collected. A
 * message goes to the first registered handler whose filter accepts it;
 * that handler answers, may change the tables and moves the user to the
 * next state. `Step` is that whole reaction, as a value.
 */
module Flow {
  import opened Wrappers
  import opened Text
  import opened Numbers
  import opened Dates
  import opened Store
  import opened Reports

  /** Where a user is in a flow, with the values the flow has stored so far. */
  datatype FlowState =
    | Idle
      // OrderInput
    | OrderDate
    | OrderCount(orderDate: string)
    | OrderNominal(orderDate: string, orderCount: int)
    | OrderTips(orderDate: string, orderCount: int, totalNominal: real)
      // ExpenseInput
    | ExpenseDate
    | ExpenseAmount(expenseDate: string)
      // ReportInput, DailyReportInput
    | MonthlyReportDate
    | DailyReportDate
      // DeleteOrder, DeleteExpense
    | DeleteOrderDate
    | DeleteOrderId
    | DeleteExpenseDate
    | DeleteExpenseId
      // EditOrder
    | EditOrderDate
    | EditOrderId
    | EditOrderField(orderId: int)
    | EditOrderValue(orderId: int, field: string)
      // EditExpense
    | EditExpenseDate
    | EditExpenseId
    | EditExpenseValue(expenseId: int)

  /** What the bot answers. The wording and the keyboard are not modelled, only what an answer carries. */
  datatype Reply =
    | Cancelled                       // the universal cancel handler
    | ProcessCancelled                // the cancel checks inside a step
    | Welcome                         // /start
    | Ask(next: FlowState)            // the prompt for what `next` waits for
    | InvalidDate
    | InvalidNumber
    | InvalidField
    | OrderSaved(savedDate: string, savedCount: int, savedNominal: real, savedTips: real, overall: real)
    | ExpenseSaved(savedExpenseDate: string, savedAmount: real)
    | Monthly(monthly: MonthlyReport)
    | Daily(daily: DailyReport)
    | OrderList(orderListDate: Date, orders: seq<OrderRecord>)
    | ExpenseList(expenseListDate: Date, expenses: seq<ExpenseRecord>)
    | NothingOnDate(emptyDate: Date)
    | Deleted(deleted: bool)
    | Updated(updated: bool)
    | Unrecognized

  /** The state a message leaves the user in, the tables after it, and the answer. */
  datatype Outcome = Outcome(state: FlowState, tables: Tables, reply: Reply)

  // ---------------------------------------------------------------------------
  // Handlers and their order

  /** The eight buttons of the main menu, save "❌ Batal". */
  datatype Menu =
    | AddOrderMenu | AddExpenseMenu | MonthlyReportMenu | DailyReportMenu
    | DeleteOrderMenu | DeleteExpenseMenu | EditOrderMenu | EditExpenseMenu

  function Label(m: Menu): string {
    match m
    case AddOrderMenu => "\U{2795} Tambah Order"
    case AddExpenseMenu => "\U{2795} Tambah Pengeluaran"
    case MonthlyReportMenu => "\U{1F4CA} Laporan Bulanan"
    case DailyReportMenu => "\U{1F4CA} Laporan Harian"
    case DeleteOrderMenu => "\U{1F5D1} Hapus Order"
    case DeleteExpenseMenu => "\U{1F5D1} Hapus Pengeluaran"
    case EditOrderMenu => "\U{270F}\U{FE0F} Edit Order"
    case EditExpenseMenu => "\U{270F}\U{FE0F} Edit Pengeluaran"
  }

  /** The state a menu button starts. */
  function MenuStart(m: Menu): FlowState {
    match m
    case AddOrderMenu => OrderDate
    case AddExpenseMenu => ExpenseDate
    case MonthlyReportMenu => MonthlyReportDate
    case DailyReportMenu => DailyReportDate
    case DeleteOrderMenu => DeleteOrderDate
    case DeleteExpenseMenu => DeleteExpenseDate
    case EditOrderMenu => EditOrderDate
    case EditExpenseMenu => EditExpenseDate
  }

  /** The button a text is, if any. */
  function MenuOf(text: string): (r: Option<Menu>)
    ensures r.Some? ==> Label(r.value) == text
  {
    if text == Label(AddOrderMenu) then Some(AddOrderMenu)
    else if text == Label(AddExpenseMenu) then Some(AddExpenseMenu)
    else if text == Label(MonthlyReportMenu) then Some(MonthlyReportMenu)
    else if text == Label(DailyReportMenu) then Some(DailyReportMenu)
    else if text == Label(DeleteOrderMenu) then Some(DeleteOrderMenu)
    else if text == Label(DeleteExpenseMenu) then Some(DeleteExpenseMenu)
    else if text == Label(EditOrderMenu) then Some(EditOrderMenu)
    else if text == Label(EditExpenseMenu) then Some(EditExpenseMenu)
    else None
  }

  /** The lower-cased texts the cancel handler and the in-step cancel checks accept. */
  const CancelWords: seq<string> := ["\U{274C} batal", "cancel", "back", "kembali"]

  /** `Command(name)`: the first word of the text is the command, with no bot mention. */
  predicate IsCommand(text: string, name: string) {
    FirstWord(text) == "/" + name
  }

  /** The filter of the universal cancel handler. */
  predicate IsCancelText(text: string) {
    IsCommand(text, "cancel") || Lower(text) in CancelWords
  }

  /** The message handlers, grouped: each state's step handler is one `StepHandler`. */
  datatype Handler = CancelHandler | StartHandler | MenuHandler(menu: Menu) | StepHandler | DefaultHandler

  /** Where a menu handler is registered. */
  function MenuRank(m: Menu): (r: nat)
    ensures 1 < r < 29
  {
    match m
    case AddOrderMenu => 2
    case AddExpenseMenu => 7
    case MonthlyReportMenu => 10
    case DailyReportMenu => 12
    case DeleteOrderMenu => 14
    case DeleteExpenseMenu => 17
    case EditOrderMenu => 20
    case EditExpenseMenu => 25
  }

  /** Where the handler of a waiting state is registered (the idle state has none; it reads as last). */
  function StepRank(s: FlowState): (r: nat)
    ensures s != Idle ==> 1 < r < 29
  {
    match s
    case Idle => 30
    case OrderDate => 3
    case OrderCount(_) => 4
    case OrderNominal(_, _) => 5
    case OrderTips(_, _, _) => 6
    case ExpenseDate => 8
    case ExpenseAmount(_) => 9
    case MonthlyReportDate => 11
    case DailyReportDate => 13
    case DeleteOrderDate => 15
    case DeleteOrderId => 16
    case DeleteExpenseDate => 18
    case DeleteExpenseId => 19
    case EditOrderDate => 21
    case EditOrderId => 22
    case EditOrderField(_) => 23
    case EditOrderValue(_, _) => 24
    case EditExpenseDate => 26
    case EditExpenseId => 27
    case EditExpenseValue(_) => 28
  }

  /** The registration order of the handlers, in a user's state `s`. */
  function Rank(h: Handler, s: FlowState): nat {
    match h
    case CancelHandler => 0
    case StartHandler => 1
    case MenuHandler(m) => MenuRank(m)
    case StepHandler => StepRank(s)
    case DefaultHandler => 29
  }

  /** Whether a handler's filter accepts the text in state `s`. */
  predicate Matches(h: Handler, s: FlowState, text: string) {
    match h
    case CancelHandler => IsCancelText(text)
    case StartHandler => IsCommand(text, "start")
    case MenuHandler(m) => text == Label(m)
    case StepHandler => s != Idle
    case DefaultHandler => true
  }

  /** The handler the dispatcher runs. */
  function Route(s: FlowState, text: string): Handler {
    if IsCancelText(text) then CancelHandler
    else if IsCommand(text, "start") then StartHandler
    else match MenuOf(text)
      case Some(m) => if s == Idle || MenuRank(m) < StepRank(s) then MenuHandler(m) else StepHandler
      case None => if s == Idle then DefaultHandler else StepHandler
  }

  // ---------------------------------------------------------------------------
  // Dates typed by the user

  /** `text.lower() == "hari ini"` ("today"). */
  predicate IsToday(text: string) {
    Lower(text) == "hari ini"
  }

  /** A date as its `strftime("%d-%m-%y")` text. */
  function Reformat(d: Option<Date>): (r: Option<string>)
    requires d.Some? ==> ValidDate(d.value)
    ensures r.Some? ==> d.Some? && r.value == FormatShort(d.value)
    ensures r.Some? <==> d.Some?
  {
    match d
    case None => None
    case Some(x) => Some(FormatShort(x))
  }

  /** An 8-character text read with "%d-%m-%y", a 10-character one with "%d-%m-%Y", both written back as DD-MM-YY. */
  function ShortOrLong(t: string): Option<string> {
    if |t| == 8 then Reformat(ParseDate(t, ShortYear))
    else if |t| == 10 then Reformat(ParseDate(t, LongYear))
    else None
  }

  /** The date text of the order flow: "hari ini" is tested before stripping. */
  function OrderDateText(text: string, today: Date): (r: Option<string>)
    requires ValidDate(today)
  {
    if IsToday(text) then Some(FormatShort(today)) else ShortOrLong(Strip(text))
  }

  /** The date text of the expense flow: "hari ini" is tested after stripping. */
  function ExpenseDateText(text: string, today: Date): (r: Option<string>)
    requires ValidDate(today)
  {
    var t := Strip(text);
    if IsToday(t) then Some(FormatShort(today)) else ShortOrLong(t)
  }

  /** The date of the daily report, delete and edit flows: "hari ini", or the raw text read with "%d-%m-%Y". */
  function DayOf(text: string, today: Date): (r: Option<Date>)
    requires ValidDate(today)
    ensures r.Some? ==> ValidDate(r.value)
  {
    if IsToday(text) then Some(today) else ParseDate(text, LongYear)
  }

  // ---------------------------------------------------------------------------
  // The steps

  /** What one text message does. `today` is the server's date when it arrives. */
  function Step(user: UserId, s: FlowState, text: string, today: Date, t: Tables): Outcome
    requires ValidDate(today)
  {
    match Route(s, text)
    case CancelHandler => Outcome(Idle, t, Cancelled)
    case StartHandler => Outcome(Idle, t, Welcome)
    case MenuHandler(m) => Outcome(MenuStart(m), t, Ask(MenuStart(m)))
    case StepHandler => Advance(user, s, text, today, t)
    case DefaultHandler => Outcome(s, t, Unrecognized)
  }

  /** The handler of the state the user is in. */
  function Advance(user: UserId, s: FlowState, text: string, today: Date, t: Tables): Outcome
    requires ValidDate(today)
  {
    match s
    case Idle => Outcome(s, t, Unrecognized)
    case OrderDate => OrderDateStep(text, today, t)
    case OrderCount(orderDate) => OrderCountStep(orderDate, text, t)
    case OrderNominal(orderDate, orderCount) => OrderNominalStep(orderDate, orderCount, text, t)
    case OrderTips(orderDate, orderCount, totalNominal) => OrderTipsStep(user, orderDate, orderCount, totalNominal, text, today, t)
    case ExpenseDate => ExpenseDateStep(text, today, t)
    case ExpenseAmount(expenseDate) => ExpenseAmountStep(user, expenseDate, text, t)
    case MonthlyReportDate => MonthlyReportStep(user, text, t)
    case DailyReportDate => DailyReportStep(user, text, today, t)
    case DeleteOrderDate => ListOrdersStep(user, text, today, t, DeleteOrderDate, DeleteOrderId)
    case DeleteOrderId => DeleteOrderStep(user, text, t)
    case DeleteExpenseDate => ListExpensesStep(user, text, today, t, DeleteExpenseDate, DeleteExpenseId)
    case DeleteExpenseId => DeleteExpenseStep(user, text, t)
    case EditOrderDate => ListOrdersStep(user, text, today, t, EditOrderDate, EditOrderId)
    case EditOrderId => EditOrderIdStep(text, t)
    case EditOrderField(orderId) => EditOrderFieldStep(orderId, text, t)
    case EditOrderValue(orderId, field) => EditOrderValueStep(user, orderId, field, text, t)
    case EditExpenseDate => ListExpensesStep(user, text, today, t, EditExpenseDate, EditExpenseId)
    case EditExpenseId => EditExpenseIdStep(text, t)
    case EditExpenseValue(expenseId) => EditExpenseValueStep(user, expenseId, text, t)
  }

  /** `process_date_input`. */
  function OrderDateStep(text: string, today: Date, t: Tables): Outcome
    requires ValidDate(today)
  {
    if Lower(text) in CancelWords then Outcome(Idle, t, ProcessCancelled)
    else match OrderDateText(text, today)
      case None => Outcome(OrderDate, t, InvalidDate)
      case Some(orderDate) => Outcome(OrderCount(orderDate), t, Ask(OrderCount(orderDate)))
  }

  /** `process_order_count`: `isdigit()` on the raw text, then `int()`. */
  function OrderCountStep(orderDate: string, text: string, t: Tables): Outcome {
    if IsDigitText(text) then
      var next := OrderNominal(orderDate, DigitsValue(text));
      Outcome(next, t, Ask(next))
    else Outcome(OrderCount(orderDate), t, InvalidNumber)
  }

  /** `process_total_nominal`. */
  function OrderNominalStep(orderDate: string, orderCount: int, text: string, t: Tables): Outcome {
    match ParseFloat(text)
    case None => Outcome(OrderNominal(orderDate, orderCount), t, InvalidNumber)
    case Some(v) => Outcome(OrderTips(orderDate, orderCount, v), t, Ask(OrderTips(orderDate, orderCount, v)))
  }

  /** `process_tips`: stores the order (without its date, so the row gets today's) and reports nominal plus tips. */
  function OrderTipsStep(user: UserId, orderDate: string, orderCount: int, totalNominal: real, text: string,
                         today: Date, t: Tables): Outcome
  {
    match ParseFloat(text)
    case None => Outcome(OrderTips(orderDate, orderCount, totalNominal), t, InvalidNumber)
    case Some(tips) =>
      var orders := Inserted(t.orders, user, today, OrderFields(orderCount, totalNominal, tips));
      Outcome(Idle, t.(orders := orders), OrderSaved(orderDate, orderCount, totalNominal, tips, totalNominal + tips))
  }

  /** `process_expense_date`. */
  function ExpenseDateStep(text: string, today: Date, t: Tables): Outcome
    requires ValidDate(today)
  {
    if Lower(text) in CancelWords then Outcome(Idle, t, ProcessCancelled)
    else match ExpenseDateText(text, today)
      case None => Outcome(ExpenseDate, t, InvalidDate)
      case Some(expenseDate) => Outcome(ExpenseAmount(expenseDate), t, Ask(ExpenseAmount(expenseDate)))
  }

  /** `process_expense_amount`: a ValueError from `float()` or from the store's date parse asks again. */
  function ExpenseAmountStep(user: UserId, expenseDate: string, text: string, t: Tables): Outcome {
    match ParseFloat(text)
    case None => Outcome(ExpenseAmount(expenseDate), t, InvalidNumber)
    case Some(amount) =>
      match ParseDate(expenseDate, ShortYear)
      case None => Outcome(ExpenseAmount(expenseDate), t, InvalidNumber)
      case Some(d) =>
        var expenses := Inserted(t.expenses, user, d, ExpenseFields(amount));
        Outcome(Idle, t.(expenses := expenses), ExpenseSaved(expenseDate, amount))
  }

  /** `process_monthly_report_date`: the raw text read with "%d-%m-%Y"; the report covers that date's month. */
  function MonthlyReportStep(user: UserId, text: string, t: Tables): Outcome {
    match ParseDate(text, LongYear)
    case None => Outcome(MonthlyReportDate, t, InvalidDate)
    case Some(d) =>
      var first, last := FirstOfMonth(d.year, d.month), LastOfMonth(d.year, d.month);
      var report := MonthlySummary(InRange(t.orders, user, first, last), InRange(t.expenses, user, first, last),
                                   d.year, d.month);
      Outcome(Idle, t, Monthly(report))
  }

  /** `process_daily_report_date`. */
  function DailyReportStep(user: UserId, text: string, today: Date, t: Tables): Outcome
    requires ValidDate(today)
  {
    match DayOf(text, today)
    case None => Outcome(DailyReportDate, t, InvalidDate)
    case Some(d) => Outcome(Idle, t, Daily(DailySummary(OnDate(t.orders, user, d), OnDate(t.expenses, user, d), d)))
  }

  /** `process_delete_order_date` and `process_edit_order_date`: list the day's orders, or end when there are none. */
  function ListOrdersStep(user: UserId, text: string, today: Date, t: Tables, waiting: FlowState, next: FlowState): Outcome
    requires ValidDate(today)
  {
    match DayOf(text, today)
    case None => Outcome(waiting, t, InvalidDate)
    case Some(d) =>
      var rows := OnDate(t.orders, user, d);
      if rows != [] then Outcome(next, t, OrderList(d, rows)) else Outcome(Idle, t, NothingOnDate(d))
  }

  /** `process_delete_expense_date` and `process_edit_expense_date`. */
  function ListExpensesStep(user: UserId, text: string, today: Date, t: Tables, waiting: FlowState, next: FlowState): Outcome
    requires ValidDate(today)
  {
    match DayOf(text, today)
    case None => Outcome(waiting, t, InvalidDate)
    case Some(d) =>
      var rows := OnDate(t.expenses, user, d);
      if rows != [] then Outcome(next, t, ExpenseList(d, rows)) else Outcome(Idle, t, NothingOnDate(d))
  }

  /** `process_delete_order`: whatever happens, the flow ends (`finally: state.clear()`). */
  function DeleteOrderStep(user: UserId, text: string, t: Tables): Outcome {
    if Lower(text) in CancelWords then Outcome(Idle, t, ProcessCancelled)
    else match ParseInt(text)
      case None => Outcome(Idle, t, InvalidNumber)
      case Some(id) => Outcome(Idle, t.(orders := Removed(t.orders, id, user)), Deleted(Find(t.orders, id, user).Some?))
  }

  /** `process_delete_expense`. */
  function DeleteExpenseStep(user: UserId, text: string, t: Tables): Outcome {
    if Lower(text) in CancelWords then Outcome(Idle, t, ProcessCancelled)
    else match ParseInt(text)
      case None => Outcome(Idle, t, InvalidNumber)
      case Some(id) =>
        Outcome(Idle, t.(expenses := Removed(t.expenses, id, user)), Deleted(Find(t.expenses, id, user).Some?))
  }

  /** `process_edit_order_id`: the id is only stored; an invalid one asks again. */
  function EditOrderIdStep(text: string, t: Tables): Outcome {
    if Lower(text) in CancelWords then Outcome(Idle, t, ProcessCancelled)
    else match ParseInt(text)
      case None => Outcome(EditOrderId, t, InvalidNumber)
      case Some(id) => Outcome(EditOrderField(id), t, Ask(EditOrderField(id)))
  }

  /** The column names the edit-order flow accepts. */
  const OrderFieldNames: seq<string> := ["order", "nominal", "tips"]

  /** `process_edit_order_field`. */
  function EditOrderFieldStep(orderId: int, text: string, t: Tables): Outcome {
    var field := Lower(text);
    if field in OrderFieldNames then Outcome(EditOrderValue(orderId, field), t, Ask(EditOrderValue(orderId, field)))
    else Outcome(EditOrderField(orderId), t, InvalidField)
  }

  /** `process_edit_order_new_value`: the flow ends whatever happens. */
  function EditOrderValueStep(user: UserId, orderId: int, field: string, text: string, t: Tables): Outcome {
    match ParseFloat(text)
    case None => Outcome(Idle, t, InvalidNumber)
    case Some(v) =>
      Outcome(Idle, t.(orders := OrderEdited(t.orders, orderId, user, field, v)), Updated(Find(t.orders, orderId, user).Some?))
  }

  /** `process_edit_expense_id`. */
  function EditExpenseIdStep(text: string, t: Tables): Outcome {
    if Lower(text) in CancelWords then Outcome(Idle, t, ProcessCancelled)
    else match ParseInt(text)
      case None => Outcome(EditExpenseId, t, InvalidNumber)
      case Some(id) => Outcome(EditExpenseValue(id), t, Ask(EditExpenseValue(id)))
  }

  /** `process_edit_expense_new_value`: the flow ends whatever happens. */
  function EditExpenseValueStep(user: UserId, expenseId: int, text: string, t: Tables): Outcome {
    match ParseFloat(text)
    case None => Outcome(Idle, t, InvalidNumber)
    case Some(v) =>
      Outcome(Idle, t.(expenses := ExpenseEdited(t.expenses, expenseId, user, v)),
              Updated(Find(t.expenses, expenseId, user).Some?))
  }

  // ---------------------------------------------------------------------------
  // Reaching a step

  /** A message the step handler takes is handled by the handler of the user's state. */
  lemma StepIsAdvance(user: UserId, s: FlowState, text: string, today: Date, t: Tables)
    requires ValidDate(today) && Route(s, text) == StepHandler
    ensures Step(user, s, text, today, t) == Advance(user, s, text, today, t)
  {
  }

  lemma AdvanceOrderDate(user: UserId, text: string, today: Date, t: Tables)
    requires ValidDate(today)
    ensures Advance(user, OrderDate, text, today, t) == OrderDateStep(text, today, t)
  {
  }

  lemma AdvanceOrderCount(user: UserId, orderDate: string, text: string, today: Date, t: Tables)
    requires ValidDate(today)
    ensures Advance(user, OrderCount(orderDate), text, today, t) == OrderCountStep(orderDate, text, t)
  {
  }

  lemma AdvanceOrderTips(user: UserId, orderDate: string, orderCount: int, totalNominal: real, text: string,
                         today: Date, t: Tables)
    requires ValidDate(today)
    ensures Advance(user, OrderTips(orderDate, orderCount, totalNominal), text, today, t)
      == OrderTipsStep(user, orderDate, orderCount, totalNominal, text, today, t)
  {
    var s := OrderTips(orderDate, orderCount, totalNominal);
    assert !s.Idle? && !s.OrderDate? && !s.OrderCount? && !s.OrderNominal?;
  }

  lemma AdvanceExpenseDate(user: UserId, text: string, today: Date, t: Tables)
    requires ValidDate(today)
    ensures Advance(user, ExpenseDate, text, today, t) == ExpenseDateStep(text, today, t)
  {
  }

  lemma AdvanceExpenseAmount(user: UserId, expenseDate: string, text: string, today: Date, t: Tables)
    requires ValidDate(today)
    ensures Advance(user, ExpenseAmount(expenseDate), text, today, t) == ExpenseAmountStep(user, expenseDate, text, t)
  {
    var s := ExpenseAmount(expenseDate);
    assert !s.Idle? && !s.OrderDate? && !s.OrderCount? && !s.OrderNominal? && !s.OrderTips? && !s.ExpenseDate?;
  }

  lemma AdvanceMonthlyReport(user: UserId, text: string, today: Date, t: Tables)
    requires ValidDate(today)
    ensures Advance(user, MonthlyReportDate, text, today, t) == MonthlyReportStep(user, text, t)
  {
  }

  lemma AdvanceDailyReport(user: UserId, text: string, today: Date, t: Tables)
    requires ValidDate(today)
    ensures Advance(user, DailyReportDate, text, today, t) == DailyReportStep(user, text, today, t)
  {
  }

  // ---------------------------------------------------------------------------
  // What the conversation promises

  /** A text that starts with a visible character other than '/' is no command. */
  lemma NoCommand(text: string, name: string)
    requires text != [] && text[0] != '/' && !IsSpace(text[0])
    ensures !IsCommand(text, name)
  {
    assert LStrip(text) == text;
  }

  /** Each button is recognised as itself. */
  lemma MenuOfLabel(m: Menu)
    ensures MenuOf(Label(m)) == Some(m)
  {
  }

  /** No menu button is a command or a cancel word. */
  lemma LabelIsNoCommand(m: Menu)
    ensures !IsCancelText(Label(m)) && !IsCommand(Label(m), "start")
  {
    NoCommand(Label(m), "cancel");
    NoCommand(Label(m), "start");
  }

  /** The dispatcher runs the first registered handler whose filter accepts the message. */
  lemma RouteIsFirstMatch(s: FlowState, text: string)
    ensures var h := Route(s, text);
      && Matches(h, s, text)
      && forall g :: Matches(g, s, text) && g != h ==> Rank(h, s) < Rank(g, s)
  {
    forall g | Matches(g, s, text) && g != Route(s, text) ensures Rank(Route(s, text), s) < Rank(g, s) {
      RouteBeats(s, text, g);
    }
  }

  lemma RouteBeats(s: FlowState, text: string, g: Handler)
    requires Matches(g, s, text) && g != Route(s, text)
    ensures Rank(Route(s, text), s) < Rank(g, s)
  {
    match g
    case MenuHandler(m) =>
      MenuOfLabel(m);
      StepAndMenuRanksDiffer(s, m);
    case _ =>
  }

  /** No button shares its place in the registration order with a step handler. */
  lemma StepAndMenuRanksDiffer(s: FlowState, m: Menu)
    ensures StepRank(s) != MenuRank(m)
  {
  }

  /** Cancelling works in every state, and throws away what the flow collected. */
  lemma CancelFromAnyState(user: UserId, s: FlowState, text: string, today: Date, t: Tables)
    requires ValidDate(today) && IsCancelText(text)
    ensures Step(user, s, text, today, t) == Outcome(Idle, t, Cancelled)
  {
  }

  /** `/start`, registered right after cancel, clears any state and shows the menu. */
  lemma StartFromAnyState(user: UserId, s: FlowState, today: Date, t: Tables)
    requires ValidDate(today)
    ensures Step(user, s, "/start", today, t) == Outcome(Idle, t, Welcome)
  {
    StartText();
  }

  /** "/start" is the start command and no cancel text. */
  lemma StartText()
    ensures IsCommand("/start", "start") && !IsCancelText("/start")
  {
    StartWord();
    assert "/start"[1] != "/cancel"[1];
    assert Lower("/start")[0] == '/';
  }

  lemma StartWord()
    ensures FirstWord("/start") == "/start"
  {
    var text := "/start";
    assert forall i :: 0 <= i < |text| ==> '!' <= text[i] <= '~';
    VisibleFirstWord(text);
  }

  /** A text of visible ASCII characters is its own first word. */
  lemma VisibleFirstWord(text: string)
    requires forall i :: 0 <= i < |text| ==> '!' <= text[i] <= '~'
    ensures FirstWord(text) == text
  {
    forall i | 0 <= i < |text| ensures !IsSpace(text[i]) {}
    assert LStrip(text) == text;
  }

  /** "➕ Tambah Order" is registered first among the buttons: it starts a new order whatever the user was doing. */
  lemma AddOrderMenuAlwaysWins(user: UserId, s: FlowState, today: Date, t: Tables)
    requires ValidDate(today)
    ensures Step(user, s, Label(AddOrderMenu), today, t) == Outcome(OrderDate, t, Ask(OrderDate))
  {
    RouteAddOrder(s);
  }

  lemma RouteAddOrder(s: FlowState)
    ensures Route(s, Label(AddOrderMenu)) == MenuHandler(AddOrderMenu)
  {
    LabelIsNoCommand(AddOrderMenu);
    MenuOfLabel(AddOrderMenu);
    StepAndMenuRanksDiffer(s, AddOrderMenu);
  }

  /** While an order is being entered, every other button is read as the answer to the current question. */
  lemma OrderFlowShadowsMenus(s: FlowState, m: Menu)
    requires s.OrderDate? || s.OrderCount? || s.OrderNominal? || s.OrderTips?
    requires m != AddOrderMenu
    ensures Route(s, Label(m)) == StepHandler
  {
    assert StepRank(s) < MenuRank(m);
    LabelIsNoCommand(m);
    MenuOfLabel(m);
  }

  /** So "➕ Tambah Pengeluaran" typed as the number of orders is an invalid number, not a new expense. */
  lemma ExpenseButtonAsOrderCount(user: UserId, orderDate: string, today: Date, t: Tables)
    requires ValidDate(today)
    ensures Step(user, OrderCount(orderDate), Label(AddExpenseMenu), today, t)
      == Outcome(OrderCount(orderDate), t, InvalidNumber)
  {
    OrderFlowShadowsMenus(OrderCount(orderDate), AddExpenseMenu);
    StepIsAdvance(user, OrderCount(orderDate), Label(AddExpenseMenu), today, t);
    AdvanceOrderCount(user, orderDate, Label(AddExpenseMenu), today, t);
  }

  /** A button pressed in the middle of a flow starts its own flow exactly when it is registered before the flow's step. */
  lemma ButtonInterrupts(s: FlowState, m: Menu)
    requires s != Idle
    ensures Route(s, Label(m)) == if MenuRank(m) < StepRank(s) then MenuHandler(m) else StepHandler
  {
    LabelIsNoCommand(m);
    MenuOfLabel(m);
  }

  /** The fallback answers only an idle user, and leaves the user idle. */
  lemma UnrecognizedOnlyWhenIdle(user: UserId, s: FlowState, text: string, today: Date, t: Tables)
    requires ValidDate(today)
    ensures var o := Step(user, s, text, today, t);
      o.reply == Unrecognized ==> s == Idle && o.state == Idle && o.tables == t
  {
    if Route(s, text) == StepHandler {
      StepIsAdvance(user, s, text, today, t);
      AdvanceDisciplined(user, s, text, today, t);
    }
  }

  /** The states whose handler writes to a table. */
  predicate Commits(s: FlowState) {
    s.OrderTips? || s.ExpenseAmount? || s.DeleteOrderId? || s.DeleteExpenseId? || s.EditOrderValue? || s.EditExpenseValue?
  }

  /** Whether a state's handler ends the flow even on bad input (`finally: state.clear()`). */
  predicate EndsOnError(s: FlowState) {
    s.DeleteOrderId? || s.DeleteExpenseId? || s.EditOrderValue? || s.EditExpenseValue?
  }

  /** Every other state's handler only reads the tables. */
  lemma AdvanceReadOnly(user: UserId, s: FlowState, text: string, today: Date, t: Tables)
    requires ValidDate(today) && !Commits(s)
    ensures Advance(user, s, text, today, t).tables == t
  {
    var o := Advance(user, s, text, today, t);
    match s
    case Idle =>
      assert o == Outcome(s, t, Unrecognized);
    case OrderDate =>
      assert o == OrderDateStep(text, today, t);
    case OrderCount(d) =>
      assert o == OrderCountStep(d, text, t);
    case OrderNominal(d, c) =>
      assert o == OrderNominalStep(d, c, text, t);
    case ExpenseDate =>
      assert o == ExpenseDateStep(text, today, t);
    case MonthlyReportDate =>
      assert o == MonthlyReportStep(user, text, t);
    case DailyReportDate =>
      assert o == DailyReportStep(user, text, today, t);
    case DeleteOrderDate =>
      assert o == ListOrdersStep(user, text, today, t, DeleteOrderDate, DeleteOrderId);
    case DeleteExpenseDate =>
      assert o == ListExpensesStep(user, text, today, t, DeleteExpenseDate, DeleteExpenseId);
    case EditOrderDate =>
      assert o == ListOrdersStep(user, text, today, t, EditOrderDate, EditOrderId);
    case EditOrderId =>
      assert o == EditOrderIdStep(text, t);
    case EditOrderField(id) =>
      assert o == EditOrderFieldStep(id, text, t);
    case EditExpenseDate =>
      assert o == ListExpensesStep(user, text, today, t, EditExpenseDate, EditExpenseId);
    case EditExpenseId =>
      assert o == EditExpenseIdStep(text, t);
  }

  /** An invalid answer changes no table and asks again, except in the steps that always end the flow. */
  predicate RetriesOnError(s: FlowState, t: Tables, o: Outcome) {
    (o.reply.InvalidDate? || o.reply.InvalidNumber? || o.reply.InvalidField?) ==>
      o.tables == t && o.state == (if EndsOnError(s) then Idle else s)
  }

  /**
   * Only a saved, deleted or updated record changes a table, a deletion is
   * reported exactly when it changed the table, only the tips step saves an
   * order, only the expense date step moves to the amount step, and no
   * step handler gives the fallback answer.
   */
  predicate OnlyCommitsWrite(s: FlowState, t: Tables, o: Outcome) {
    && (o.tables != t ==>
          o.reply.OrderSaved? || o.reply.ExpenseSaved? || o.reply == Deleted(true) || o.reply == Updated(true))
    && (o.reply.Deleted? ==> (o.reply.deleted <==> o.tables != t))
    && (o.reply.OrderSaved? ==> s.OrderTips?)
    && (o.state.ExpenseAmount? ==> s == ExpenseDate || o.state == s)
    && (o.reply.Unrecognized? ==> s == Idle)
  }

  /** Both disciplines, for the handler of state `s`. */
  predicate Disciplined(s: FlowState, t: Tables, o: Outcome) {
    RetriesOnError(s, t, o) && OnlyCommitsWrite(s, t, o)
  }

  /** `process_date_input` keeps both disciplines. */
  lemma OrderDateStepDisciplined(user: UserId, s: FlowState, text: string, today: Date, t: Tables)
    requires ValidDate(today) && s.OrderDate?
    ensures Disciplined(s, t, Advance(user, s, text, today, t))
  {
  }

  /** `process_order_count` keeps both disciplines. */
  lemma OrderCountStepDisciplined(user: UserId, s: FlowState, text: string, today: Date, t: Tables)
    requires ValidDate(today) && s.OrderCount?
    ensures Disciplined(s, t, Advance(user, s, text, today, t))
  {
  }

  /** `process_total_nominal` keeps both disciplines. */
  lemma OrderNominalStepDisciplined(user: UserId, s: FlowState, text: string, today: Date, t: Tables)
    requires ValidDate(today) && s.OrderNominal?
    ensures Disciplined(s, t, Advance(user, s, text, today, t))
  {
  }

  /** `process_tips` keeps both disciplines. */
  lemma OrderTipsStepDisciplined(user: UserId, s: FlowState, text: string, today: Date, t: Tables)
    requires ValidDate(today) && s.OrderTips?
    ensures Disciplined(s, t, Advance(user, s, text, today, t))
  {
  }

  /** `process_expense_date` keeps both disciplines. */
  lemma ExpenseDateStepDisciplined(user: UserId, s: FlowState, text: string, today: Date, t: Tables)
    requires ValidDate(today) && s.ExpenseDate?
    ensures Disciplined(s, t, Advance(user, s, text, today, t))
  {
  }

  /** `process_expense_amount` keeps both disciplines. */
  lemma ExpenseAmountStepDisciplined(user: UserId, s: FlowState, text: string, today: Date, t: Tables)
    requires ValidDate(today) && s.ExpenseAmount?
    ensures Disciplined(s, t, Advance(user, s, text, today, t))
  {
  }

  /** `process_monthly_report_date` keeps both disciplines. */
  lemma MonthlyReportStepDisciplined(user: UserId, s: FlowState, text: string, today: Date, t: Tables)
    requires ValidDate(today) && s.MonthlyReportDate?
    ensures Disciplined(s, t, Advance(user, s, text, today, t))
  {
  }

  /** `process_daily_report_date` keeps both disciplines. */
  lemma DailyReportStepDisciplined(user: UserId, s: FlowState, text: string, today: Date, t: Tables)
    requires ValidDate(today) && s.DailyReportDate?
    ensures Disciplined(s, t, Advance(user, s, text, today, t))
  {
  }

  /** `process_delete_order_date` and `process_edit_order_date` keeps both disciplines. */
  lemma ListOrdersStepDisciplined(user: UserId, s: FlowState, text: string, today: Date, t: Tables)
    requires ValidDate(today) && (s.DeleteOrderDate? || s.EditOrderDate?)
    ensures Disciplined(s, t, Advance(user, s, text, today, t))
  {
  }

  /** `process_delete_expense_date` and `process_edit_expense_date` keeps both disciplines. */
  lemma ListExpensesStepDisciplined(user: UserId, s: FlowState, text: string, today: Date, t: Tables)
    requires ValidDate(today) && (s.DeleteExpenseDate? || s.EditExpenseDate?)
    ensures Disciplined(s, t, Advance(user, s, text, today, t))
  {
  }

  /** `process_delete_order` keeps both disciplines. */
  lemma DeleteOrderStepDisciplined(user: UserId, s: FlowState, text: string, today: Date, t: Tables)
    requires ValidDate(today) && s.DeleteOrderId?
    ensures Disciplined(s, t, Advance(user, s, text, today, t))
  {
  }

  /** `process_delete_expense` keeps both disciplines. */
  lemma DeleteExpenseStepDisciplined(user: UserId, s: FlowState, text: string, today: Date, t: Tables)
    requires ValidDate(today) && s.DeleteExpenseId?
    ensures Disciplined(s, t, Advance(user, s, text, today, t))
  {
  }

  /** `process_edit_order_id` keeps both disciplines. */
  lemma EditOrderIdStepDisciplined(user: UserId, s: FlowState, text: string, today: Date, t: Tables)
    requires ValidDate(today) && s.EditOrderId?
    ensures Disciplined(s, t, Advance(user, s, text, today, t))
  {
  }

  /** `process_edit_order_field` keeps both disciplines. */
  lemma EditOrderFieldStepDisciplined(user: UserId, s: FlowState, text: string, today: Date, t: Tables)
    requires ValidDate(today) && s.EditOrderField?
    ensures Disciplined(s, t, Advance(user, s, text, today, t))
  {
  }

  /** `process_edit_order_new_value` keeps both disciplines. */
  lemma EditOrderValueStepDisciplined(user: UserId, s: FlowState, text: string, today: Date, t: Tables)
    requires ValidDate(today) && s.EditOrderValue?
    ensures Disciplined(s, t, Advance(user, s, text, today, t))
  {
    EditOrderValueKeeps(user, s.orderId, s.field, text, t);
  }

  /** The same, stated on the step function itself. */
  lemma EditOrderValueKeeps(user: UserId, orderId: int, field: string, text: string, t: Tables)
    ensures Disciplined(EditOrderValue(orderId, field), t, EditOrderValueStep(user, orderId, field, text, t))
  {
  }

  /** `process_edit_expense_id` keeps both disciplines. */
  lemma EditExpenseIdStepDisciplined(user: UserId, s: FlowState, text: string, today: Date, t: Tables)
    requires ValidDate(today) && s.EditExpenseId?
    ensures Disciplined(s, t, Advance(user, s, text, today, t))
  {
  }

  /** `process_edit_expense_new_value` keeps both disciplines. */
  lemma EditExpenseValueStepDisciplined(user: UserId, s: FlowState, text: string, today: Date, t: Tables)
    requires ValidDate(today) && s.EditExpenseValue?
    ensures Disciplined(s, t, Advance(user, s, text, today, t))
  {
    EditExpenseValueKeeps(user, s.expenseId, text, t);
  }

  /** The same, stated on the step function itself. */
  lemma EditExpenseValueKeeps(user: UserId, expenseId: int, text: string, t: Tables)
    ensures Disciplined(EditExpenseValue(expenseId), t, EditExpenseValueStep(user, expenseId, text, t))
  {
  }

  /** Every state's handler keeps both disciplines. */
  lemma AdvanceDisciplined(user: UserId, s: FlowState, text: string, today: Date, t: Tables)
    requires ValidDate(today)
    ensures Disciplined(s, t, Advance(user, s, text, today, t))
  {
    match s
    case Idle =>
    case OrderDate => OrderDateStepDisciplined(user, s, text, today, t);
    case OrderCount(_) => OrderCountStepDisciplined(user, s, text, today, t);
    case OrderNominal(_, _) => OrderNominalStepDisciplined(user, s, text, today, t);
    case OrderTips(_, _, _) => OrderTipsStepDisciplined(user, s, text, today, t);
    case ExpenseDate => ExpenseDateStepDisciplined(user, s, text, today, t);
    case ExpenseAmount(_) => ExpenseAmountStepDisciplined(user, s, text, today, t);
    case MonthlyReportDate => MonthlyReportStepDisciplined(user, s, text, today, t);
    case DailyReportDate => DailyReportStepDisciplined(user, s, text, today, t);
    case DeleteOrderDate => ListOrdersStepDisciplined(user, s, text, today, t);
    case EditOrderDate => ListOrdersStepDisciplined(user, s, text, today, t);
    case DeleteExpenseDate => ListExpensesStepDisciplined(user, s, text, today, t);
    case EditExpenseDate => ListExpensesStepDisciplined(user, s, text, today, t);
    case DeleteOrderId => DeleteOrderStepDisciplined(user, s, text, today, t);
    case DeleteExpenseId => DeleteExpenseStepDisciplined(user, s, text, today, t);
    case EditOrderId => EditOrderIdStepDisciplined(user, s, text, today, t);
    case EditOrderField(_) => EditOrderFieldStepDisciplined(user, s, text, today, t);
    case EditOrderValue(_, _) => EditOrderValueStepDisciplined(user, s, text, today, t);
    case EditExpenseId => EditExpenseIdStepDisciplined(user, s, text, today, t);
    case EditExpenseValue(_) => EditExpenseValueStepDisciplined(user, s, text, today, t);
  }

  /** Bad input changes no table; it asks again, except in the steps that always end the flow. */
  lemma InvalidInputRetries(user: UserId, s: FlowState, text: string, today: Date, t: Tables)
    requires ValidDate(today)
    ensures var o := Step(user, s, text, today, t);
      (o.reply.InvalidDate? || o.reply.InvalidNumber? || o.reply.InvalidField?) ==>
        o.tables == t && o.state == (if EndsOnError(s) then Idle else s)
  {
    if Route(s, text) == StepHandler {
      AdvanceDisciplined(user, s, text, today, t);
    }
  }

  /** The steps that end the flow on error end it on success too. */
  lemma FinallyClears(user: UserId, s: FlowState, text: string, today: Date, t: Tables)
    requires ValidDate(today) && EndsOnError(s) && Route(s, text) == StepHandler
    ensures Step(user, s, text, today, t).state == Idle
  {
    assert Step(user, s, text, today, t) == Advance(user, s, text, today, t);
    var o := Advance(user, s, text, today, t);
    match s
    case DeleteOrderId =>
      assert o == DeleteOrderStep(user, text, t);
    case DeleteExpenseId =>
      assert o == DeleteExpenseStep(user, text, t);
    case EditOrderValue(id, f) =>
      assert o == EditOrderValueStep(user, id, f, text, t);
    case EditExpenseValue(id) =>
      assert o == EditExpenseValueStep(user, id, text, t);
    case _ =>
  }

  /** A table changes only when a record is saved, deleted or updated; a deletion is reported exactly when it changed the table. */
  lemma TablesChangeOnlyOnCommit(user: UserId, s: FlowState, text: string, today: Date, t: Tables)
    requires ValidDate(today)
    ensures var o := Step(user, s, text, today, t);
      && (o.tables != t ==>
            o.reply.OrderSaved? || o.reply.ExpenseSaved? || o.reply == Deleted(true) || o.reply == Updated(true))
      && (o.reply.Deleted? ==> (o.reply.deleted <==> o.tables != t))
  {
    if Route(s, text) == StepHandler {
      AdvanceDisciplined(user, s, text, today, t);
    }
  }

  /** Every step keeps both tables' keys positive and unique. */
  lemma StepKeepsWellFormed(user: UserId, s: FlowState, text: string, today: Date, t: Tables)
    requires ValidDate(today) && WellFormed(t.orders) && WellFormed(t.expenses)
    ensures var o := Step(user, s, text, today, t);
      WellFormed(o.tables.orders) && WellFormed(o.tables.expenses)
  {
    if Route(s, text) == StepHandler {
      AdvanceKeepsRecords(user, user, s, text, today, t);
    }
  }

  /** A message from one user leaves every other user's records as they were. */
  lemma StepIsolatesUsers(user: UserId, u: UserId, s: FlowState, text: string, today: Date, t: Tables)
    requires ValidDate(today) && u != user
    ensures var o := Step(user, s, text, today, t);
      OfUser(o.tables.orders, u) == OfUser(t.orders, u) && OfUser(o.tables.expenses, u) == OfUser(t.expenses, u)
  {
    if Route(s, text) == StepHandler {
      AdvanceKeepsRecords(user, u, s, text, today, t);
    }
  }

  /** A handler's tables keep their keys unique, and no user but `user` sees a record change. */
  predicate KeepsRecords(user: UserId, u: UserId, t: Tables, o: Outcome) {
    && (WellFormed(t.orders) && WellFormed(t.expenses) ==> WellFormed(o.tables.orders) && WellFormed(o.tables.expenses))
    && (u != user ==>
          OfUser(o.tables.orders, u) == OfUser(t.orders, u) && OfUser(o.tables.expenses, u) == OfUser(t.expenses, u))
  }

  lemma OrderTipsStepKeepsRecords(user: UserId, u: UserId, orderDate: string, orderCount: int, totalNominal: real,
                                  text: string, today: Date, t: Tables)
    ensures KeepsRecords(user, u, t, OrderTipsStep(user, orderDate, orderCount, totalNominal, text, today, t))
  {
    if ParseFloat(text).Some? {
      var fields := OrderFields(orderCount, totalNominal, ParseFloat(text).value);
      if WellFormed(t.orders) { InsertedFresh(t.orders, user, today, fields); }
      if u != user { InsertedOtherUser(t.orders, user, today, fields, u); }
    }
  }

  lemma ExpenseAmountStepKeepsRecords(user: UserId, u: UserId, expenseDate: string, text: string, t: Tables)
    ensures KeepsRecords(user, u, t, ExpenseAmountStep(user, expenseDate, text, t))
  {
    if ParseFloat(text).Some? && ParseDate(expenseDate, ShortYear).Some? {
      var d, fields := ParseDate(expenseDate, ShortYear).value, ExpenseFields(ParseFloat(text).value);
      if WellFormed(t.expenses) { InsertedFresh(t.expenses, user, d, fields); }
      if u != user { InsertedOtherUser(t.expenses, user, d, fields, u); }
    }
  }

  lemma DeleteOrderStepKeepsRecords(user: UserId, u: UserId, text: string, t: Tables)
    ensures KeepsRecords(user, u, t, DeleteOrderStep(user, text, t))
  {
    if ParseInt(text).Some? {
      if WellFormed(t.orders) { RemovedExactly(t.orders, ParseInt(text).value, user); }
      if u != user { RemovedOtherUser(t.orders, ParseInt(text).value, user, u); }
    }
  }

  lemma DeleteExpenseStepKeepsRecords(user: UserId, u: UserId, text: string, t: Tables)
    ensures KeepsRecords(user, u, t, DeleteExpenseStep(user, text, t))
  {
    if ParseInt(text).Some? {
      if WellFormed(t.expenses) { RemovedExactly(t.expenses, ParseInt(text).value, user); }
      if u != user { RemovedOtherUser(t.expenses, ParseInt(text).value, user, u); }
    }
  }

  lemma EditOrderValueStepKeepsRecords(user: UserId, u: UserId, orderId: int, field: string, text: string, t: Tables)
    ensures KeepsRecords(user, u, t, EditOrderValueStep(user, orderId, field, text, t))
  {
    if ParseFloat(text).Some? {
      if WellFormed(t.orders) { OrderEditedExactly(t.orders, orderId, user, field, ParseFloat(text).value); }
      if u != user { OrderEditedOtherUser(t.orders, orderId, user, field, ParseFloat(text).value, u); }
    }
  }

  lemma EditExpenseValueStepKeepsRecords(user: UserId, u: UserId, expenseId: int, text: string, t: Tables)
    ensures KeepsRecords(user, u, t, EditExpenseValueStep(user, expenseId, text, t))
  {
    if ParseFloat(text).Some? {
      if WellFormed(t.expenses) { ExpenseEditedExactly(t.expenses, expenseId, user, ParseFloat(text).value); }
      if u != user { ExpenseEditedOtherUser(t.expenses, expenseId, user, ParseFloat(text).value, u); }
    }
  }

  /** Every state's handler keeps the records in order. */
  lemma AdvanceKeepsRecords(user: UserId, u: UserId, s: FlowState, text: string, today: Date, t: Tables)
    requires ValidDate(today)
    ensures KeepsRecords(user, u, t, Advance(user, s, text, today, t))
  {
    match s
    case OrderTips(d, c, n) => OrderTipsStepKeepsRecords(user, u, d, c, n, text, today, t);
    case ExpenseAmount(d) => ExpenseAmountStepKeepsRecords(user, u, d, text, t);
    case DeleteOrderId => DeleteOrderStepKeepsRecords(user, u, text, t);
    case DeleteExpenseId => DeleteExpenseStepKeepsRecords(user, u, text, t);
    case EditOrderValue(id, f) => EditOrderValueStepKeepsRecords(user, u, id, f, text, t);
    case EditExpenseValue(id) => EditExpenseValueStepKeepsRecords(user, u, id, text, t);
    case _ => AdvanceReadOnly(user, s, text, today, t);
  }

  /**
   * A saved order gets the day it is saved, not the date the user typed:
   * the typed date is only echoed back, next to nominal plus tips.
   */
  lemma OrderSavedWithTodaysDate(user: UserId, s: FlowState, text: string, today: Date, t: Tables)
    requires ValidDate(today)
    ensures var o := Step(user, s, text, today, t);
      o.reply.OrderSaved? ==>
        && s.OrderTips? && o.state == Idle && o.tables.expenses == t.expenses
        && o.reply.savedDate == s.orderDate && o.reply.savedCount == s.orderCount
        && o.reply.savedNominal == s.totalNominal
        && o.reply.overall == o.reply.savedNominal + o.reply.savedTips
        && o.tables.orders == t.orders + [Row(NextId(t.orders), user, today,
                                              OrderFields(s.orderCount, s.totalNominal, o.reply.savedTips))]
  {
    if Route(s, text) == StepHandler {
      AdvanceDisciplined(user, s, text, today, t);
      if s.OrderTips? {
        AdvanceOrderTips(user, s.orderDate, s.orderCount, s.totalNominal, text, today, t);
      }
    }
  }

  /** Whatever date was typed, the same tips store the same row. */
  lemma OrderDateIgnored(user: UserId, d1: string, d2: string, c: int, n: real, text: string, today: Date, t: Tables)
    requires ValidDate(today)
    ensures Step(user, OrderTips(d1, c, n), text, today, t).tables == Step(user, OrderTips(d2, c, n), text, today, t).tables
  {
    SameRankSameRoute(OrderTips(d1, c, n), OrderTips(d2, c, n), text);
    if Route(OrderTips(d1, c, n), text) == StepHandler {
      StepIsAdvance(user, OrderTips(d1, c, n), text, today, t);
      StepIsAdvance(user, OrderTips(d2, c, n), text, today, t);
      AdvanceOrderTips(user, d1, c, n, text, today, t);
      AdvanceOrderTips(user, d2, c, n, text, today, t);
    }
  }

  /** Routing sees of a waiting state only where its handler is registered. */
  lemma SameRankSameRoute(s1: FlowState, s2: FlowState, text: string)
    requires s1 != Idle && s2 != Idle && StepRank(s1) == StepRank(s2)
    ensures Route(s1, text) == Route(s2, text)
  {
  }

  /** The expense date a state carries is one the store can read back. */
  predicate Consistent(s: FlowState) {
    s.ExpenseAmount? ==> ParseDate(s.expenseDate, ShortYear).Some?
  }

  /** The expense date step only ever stores a DD-MM-YY text, so consistency is kept. */
  lemma ConsistentPreserved(user: UserId, s: FlowState, text: string, today: Date, t: Tables)
    requires ValidDate(today) && Consistent(s)
    ensures Consistent(Step(user, s, text, today, t).state)
  {
    if Route(s, text) == StepHandler {
      StepIsAdvance(user, s, text, today, t);
      if s == ExpenseDate {
        AdvanceExpenseDate(user, text, today, t);
        ExpenseDateConsistent(text, today, t);
      } else {
        AdvanceDisciplined(user, s, text, today, t);
      }
    } else {
      StepOffRoute(user, s, text, today, t);
    }
  }

  /** Outside a step handler the state is kept, cleared, or set to a menu's first step. */
  lemma StepOffRoute(user: UserId, s: FlowState, text: string, today: Date, t: Tables)
    requires ValidDate(today) && Route(s, text) != StepHandler
    ensures var o := Step(user, s, text, today, t); o.state == s || !o.state.ExpenseAmount?
  {
  }

  lemma ExpenseDateConsistent(text: string, today: Date, t: Tables)
    requires ValidDate(today)
    ensures Consistent(ExpenseDateStep(text, today, t).state)
  {
    var stripped := Strip(text);
    if Lower(text) !in CancelWords {
      if IsToday(stripped) {
        ParseFormatShort(today);
      } else if |stripped| == 8 && ParseDate(stripped, ShortYear).Some? {
        ParseFormatShort(ParseDate(stripped, ShortYear).value);
      } else if |stripped| == 10 && ParseDate(stripped, LongYear).Some? {
        ParseFormatShort(ParseDate(stripped, LongYear).value);
      }
    }
  }

  /** So in a consistent state the store's own date check never fails: an amount that parses is saved. */
  lemma ExpenseAmountSaves(user: UserId, s: FlowState, text: string, today: Date, t: Tables)
    requires ValidDate(today) && Consistent(s) && s.ExpenseAmount? && Route(s, text) == StepHandler
    ensures var o := Step(user, s, text, today, t);
      match ParseFloat(text)
      case None => o == Outcome(s, t, InvalidNumber)
      case Some(v) =>
        && o.state == Idle && o.reply == ExpenseSaved(s.expenseDate, v) && o.tables.orders == t.orders
        && o.tables.expenses == Inserted(t.expenses, user, ParseDate(s.expenseDate, ShortYear).value, ExpenseFields(v))
  {
    StepIsAdvance(user, s, text, today, t);
    AdvanceExpenseAmount(user, s.expenseDate, text, today, t);
  }

  /** Both date texts of a valid date begin and end with a digit. */
  lemma DateTextEnds(d: Date)
    requires ValidDate(d)
    ensures IsDigit(FormatShort(d)[0]) && IsDigit(FormatShort(d)[7])
    ensures IsDigit(LongText(d)[0]) && IsDigit(LongText(d)[9])
  {
    var dd, yy := Two(d.day), Two(d.year % 100);
    assert FormatShort(d)[0] == dd[0] && FormatShort(d)[7] == yy[1];
    assert LongText(d)[0] == dd[0] && LongText(d)[9] == yy[1];
  }

  /** No button and no cancel word starts with a digit. */
  lemma DigitTextIsNoKeyword(text: string)
    requires text != [] && IsDigit(text[0])
    ensures !IsToday(text) && Lower(text) !in CancelWords && MenuOf(text).None?
  {
    assert Lower(text)[0] == text[0];
  }

  /** A text starting with a digit is an answer to whatever step the user is at, and is not "hari ini". */
  lemma DigitTextIsAnswer(s: FlowState, text: string)
    requires s != Idle && text != [] && IsDigit(text[0])
    ensures Route(s, text) == StepHandler && !IsToday(text) && Lower(text) !in CancelWords
  {
    DigitTextIsNoKeyword(text);
    NoCommand(text, "cancel");
    NoCommand(text, "start");
  }

  /** A text without a dash is no date. */
  lemma NoDashNoDate(text: string, style: YearStyle)
    requires forall i :: 0 <= i < |text| ==> text[i] != '-'
    ensures ParseDate(text, style).None?
  {
  }

  /** A text starting with a digit goes to the handler of the state the user waits in. */
  lemma AnswerIsAdvance(user: UserId, s: FlowState, text: string, today: Date, t: Tables)
    requires ValidDate(today) && s != Idle && text != [] && IsDigit(text[0])
    ensures Step(user, s, text, today, t) == Advance(user, s, text, today, t)
  {
    DigitTextIsAnswer(s, text);
    StepIsAdvance(user, s, text, today, t);
  }

  /**
   * The order date step takes DD-MM-YYYY, and DD-MM-YY for the years "%y"
   * reads back as themselves; either way it keeps the DD-MM-YY text.
   */
  lemma OrderDateForms(user: UserId, d: Date, today: Date, t: Tables)
    requires ValidDate(d) && ValidDate(today)
    ensures Step(user, OrderDate, LongText(d), today, t)
      == Outcome(OrderCount(FormatShort(d)), t, Ask(OrderCount(FormatShort(d))))
    ensures 1969 <= d.year <= 2068 ==>
      Step(user, OrderDate, FormatShort(d), today, t) == Outcome(OrderCount(FormatShort(d)), t, Ask(OrderCount(FormatShort(d))))
  {
    DateTextEnds(d);
    AnswerIsAdvance(user, OrderDate, LongText(d), today, t);
    AnswerIsAdvance(user, OrderDate, FormatShort(d), today, t);
    AdvanceOrderDate(user, LongText(d), today, t);
    AdvanceOrderDate(user, FormatShort(d), today, t);
    OrderDateStepForms(d, today, t);
  }

  lemma OrderDateStepForms(d: Date, today: Date, t: Tables)
    requires ValidDate(d) && ValidDate(today)
    ensures OrderDateStep(LongText(d), today, t) == Outcome(OrderCount(FormatShort(d)), t, Ask(OrderCount(FormatShort(d))))
    ensures 1969 <= d.year <= 2068 ==>
      OrderDateStep(FormatShort(d), today, t) == Outcome(OrderCount(FormatShort(d)), t, Ask(OrderCount(FormatShort(d))))
  {
    DateTextEnds(d);
    DigitTextIsNoKeyword(LongText(d));
    DigitTextIsNoKeyword(FormatShort(d));
    StripTrimmed(LongText(d));
    StripTrimmed(FormatShort(d));
    ParseLongText(d);
    ParseFormatShort(d);
    if 1969 <= d.year <= 2068 {
      ShortReadingInWindow(d);
    }
  }

  /** The expense date step keeps a DD-MM-YYYY date as its DD-MM-YY text. */
  lemma ExpenseDateLong(user: UserId, d: Date, today: Date, t: Tables)
    requires ValidDate(d) && ValidDate(today)
    ensures Step(user, ExpenseDate, LongText(d), today, t)
      == Outcome(ExpenseAmount(FormatShort(d)), t, Ask(ExpenseAmount(FormatShort(d))))
  {
    DateTextEnds(d);
    AnswerIsAdvance(user, ExpenseDate, LongText(d), today, t);
    AdvanceExpenseDate(user, LongText(d), today, t);
    ExpenseDateStepLong(d, today, t);
  }

  lemma ExpenseDateStepLong(d: Date, today: Date, t: Tables)
    requires ValidDate(d) && ValidDate(today)
    ensures ExpenseDateStep(LongText(d), today, t) == Outcome(ExpenseAmount(FormatShort(d)), t, Ask(ExpenseAmount(FormatShort(d))))
  {
    DateTextEnds(d);
    DigitTextIsNoKeyword(LongText(d));
    StripTrimmed(LongText(d));
    ParseLongText(d);
  }

  /**
   * An expense typed as DD-MM-YYYY is kept as DD-MM-YY and read back by the
   * store with "%y": it is stored under the typed year only inside 1969-2068.
   */
  lemma ExpenseYearThroughPivot(user: UserId, d: Date, amount: real, amountText: string, today: Date, t: Tables)
    requires ValidDate(d) && ValidDate(today) && ParseFloat(amountText) == Some(amount)
    ensures Step(user, ExpenseDate, LongText(d), today, t).state == ExpenseAmount(FormatShort(d))
    ensures Advance(user, ExpenseAmount(FormatShort(d)), amountText, today, t).tables.expenses
      == Inserted(t.expenses, user, ShortReading(d), ExpenseFields(amount))
    ensures ShortReading(d) == d <==> 1969 <= d.year <= 2068
  {
    ExpenseDateLong(user, d, today, t);
    AdvanceExpenseAmount(user, FormatShort(d), amountText, today, t);
    ParseFormatShort(d);
    if 1969 <= d.year <= 2068 {
      ShortReadingInWindow(d);
    } else {
      ShortReadingOutsideWindow(d);
    }
  }

  /** The order flow tests "hari ini" before stripping the text, the expense flow after. */
  lemma TodayWithBlanks(today: Date)
    requires ValidDate(today)
    ensures OrderDateText(" hari ini", today).None?
    ensures ExpenseDateText(" hari ini", today) == Some(FormatShort(today))
  {
    OrderDateBlankToday(today);
    ExpenseDateBlankToday(today);
  }

  lemma OrderDateBlankToday(today: Date)
    requires ValidDate(today)
    ensures OrderDateText(" hari ini", today).None?
  {
    BlankBeforeToday();
    assert |Lower(" hari ini")| == 9;
    NoDashNoDate("hari ini", ShortYear);
  }

  lemma ExpenseDateBlankToday(today: Date)
    requires ValidDate(today)
    ensures ExpenseDateText(" hari ini", today) == Some(FormatShort(today))
  {
    BlankBeforeToday();
    TodayIsNoKeyword();
  }

  lemma BlankBeforeToday()
    ensures Strip(" hari ini") == "hari ini"
  {
    LStripBlank("hari ini");
    TodayTrimmed();
  }

  lemma TodayTrimmed()
    ensures LStrip("hari ini") == "hari ini" && RStrip("hari ini") == "hari ini"
  {
  }

  /** The monthly report reads only DD-MM-YYYY: "hari ini" is an invalid date there. */
  lemma MonthlyRejectsToday(user: UserId, today: Date, t: Tables)
    requires ValidDate(today)
    ensures Step(user, MonthlyReportDate, "hari ini", today, t) == Outcome(MonthlyReportDate, t, InvalidDate)
  {
    NoDashNoDate("hari ini", LongYear);
    TodayIsAnswer(MonthlyReportDate);
    StepIsAdvance(user, MonthlyReportDate, "hari ini", today, t);
    AdvanceMonthlyReport(user, "hari ini", today, t);
  }

  /** The daily report also takes "hari ini", for the day the message arrives. */
  lemma DailyAcceptsToday(user: UserId, today: Date, t: Tables)
    requires ValidDate(today)
    ensures Step(user, DailyReportDate, "hari ini", today, t)
      == Outcome(Idle, t, Daily(DailySummary(OnDate(t.orders, user, today), OnDate(t.expenses, user, today), today)))
  {
    TodayIsAnswer(DailyReportDate);
    StepIsAdvance(user, DailyReportDate, "hari ini", today, t);
    AdvanceDailyReport(user, "hari ini", today, t);
  }

  /** "hari ini" is neither a command nor a button, so a waiting step reads it. */
  lemma TodayIsAnswer(s: FlowState)
    requires s != Idle
    ensures Route(s, "hari ini") == StepHandler && IsToday("hari ini")
  {
    TodayIsNoKeyword();
    NoCommand("hari ini", "cancel");
    NoCommand("hari ini", "start");
  }

  lemma TodayIsNoKeyword()
    ensures IsToday("hari ini") && Lower("hari ini") !in CancelWords && MenuOf("hari ini").None?
  {
    assert Lower("hari ini") == "hari ini";
  }

  /** The number of orders is taken exactly when it is written in plain decimal digits. */
  lemma OrderCountDigits(user: UserId, orderDate: string, n: nat, today: Date, t: Tables)
    requires ValidDate(today)
    ensures Step(user, OrderCount(orderDate), DecimalText(n), today, t)
      == Outcome(OrderNominal(orderDate, n), t, Ask(OrderNominal(orderDate, n)))
  {
    AnswerIsAdvance(user, OrderCount(orderDate), DecimalText(n), today, t);
    AdvanceOrderCount(user, orderDate, DecimalText(n), today, t);
  }

  /** `isdigit()` is stricter than `int()`: a blank before the digits is refused although `int()` would read it. */
  lemma OrderCountRefusesBlank(orderDate: string, n: nat, t: Tables)
    ensures OrderCountStep(orderDate, " " + DecimalText(n), t) == Outcome(OrderCount(orderDate), t, InvalidNumber)
    ensures ParseInt(" " + DecimalText(n)) == Some(n)
  {
    var x := DecimalText(n);
    assert (" " + x)[0] == ' ';
    BlankBeforeDigits(n);
    assert Unsigned(x) == x;
  }

  /** The delete and edit flows list exactly the user's records of the chosen day, and go on only when there are some. */
  lemma ListingIsTheDay(user: UserId, s: FlowState, text: string, today: Date, t: Tables)
    requires ValidDate(today)
    ensures var o := Step(user, s, text, today, t);
      && (o.reply.OrderList? ==>
            && o.reply.orders != [] && (o.state == DeleteOrderId || o.state == EditOrderId)
            && forall x :: x in o.reply.orders <==> x in t.orders && x.userId == user && x.date == o.reply.orderListDate)
      && (o.reply.ExpenseList? ==>
            && o.reply.expenses != [] && (o.state == DeleteExpenseId || o.state == EditExpenseId)
            && forall x :: x in o.reply.expenses <==> x in t.expenses && x.userId == user && x.date == o.reply.expenseListDate)
  {
    if Route(s, text) == StepHandler {
      AdvanceListing(user, s, text, today, t);
    }
  }

  lemma AdvanceListing(user: UserId, s: FlowState, text: string, today: Date, t: Tables)
    requires ValidDate(today)
    ensures var o := Advance(user, s, text, today, t);
      && (o.reply.OrderList? ==>
            && o.reply.orders != [] && (o.state == DeleteOrderId || o.state == EditOrderId)
            && forall x :: x in o.reply.orders <==> x in t.orders && x.userId == user && x.date == o.reply.orderListDate)
      && (o.reply.ExpenseList? ==>
            && o.reply.expenses != [] && (o.state == DeleteExpenseId || o.state == EditExpenseId)
            && forall x :: x in o.reply.expenses <==> x in t.expenses && x.userId == user && x.date == o.reply.expenseListDate)
  {
    match s
    case _ =>
  }

  /**
   * At the delete and edit order date steps a valid date lists exactly the
   * user's orders of that day and moves on to the id step, or ends the flow
   * when the user has none that day.
   */
  lemma ListOrdersOutcome(user: UserId, s: FlowState, text: string, today: Date, t: Tables, d: Date)
    requires ValidDate(today) && (s.DeleteOrderDate? || s.EditOrderDate?) && DayOf(text, today) == Some(d)
    ensures var o := Advance(user, s, text, today, t);
      && o.tables == t
      && if exists x :: x in t.orders && x.userId == user && x.date == d then
           && o.state == (if s.DeleteOrderDate? then DeleteOrderId else EditOrderId)
           && o.reply.OrderList? && o.reply.orderListDate == d
           && forall x :: x in o.reply.orders <==> x in t.orders && x.userId == user && x.date == d
         else o == Outcome(Idle, t, NothingOnDate(d))
  {
    var rows := OnDate(t.orders, user, d);
    if rows != [] {
      assert rows[0] in rows;
    }
  }

  /** The same for the delete and edit expense date steps. */
  lemma ListExpensesOutcome(user: UserId, s: FlowState, text: string, today: Date, t: Tables, d: Date)
    requires ValidDate(today) && (s.DeleteExpenseDate? || s.EditExpenseDate?) && DayOf(text, today) == Some(d)
    ensures var o := Advance(user, s, text, today, t);
      && o.tables == t
      && if exists x :: x in t.expenses && x.userId == user && x.date == d then
           && o.state == (if s.DeleteExpenseDate? then DeleteExpenseId else EditExpenseId)
           && o.reply.ExpenseList? && o.reply.expenseListDate == d
           && forall x :: x in o.reply.expenses <==> x in t.expenses && x.userId == user && x.date == d
         else o == Outcome(Idle, t, NothingOnDate(d))
  {
    var rows := OnDate(t.expenses, user, d);
    if rows != [] {
      assert rows[0] in rows;
    }
  }

  /** Both report steps read a DD-MM-YYYY date; the monthly one reports its month, the daily one its day. */
  lemma ReportsOfLongDate(user: UserId, d: Date, today: Date, t: Tables)
    requires ValidDate(d) && ValidDate(today)
    ensures var first, last := FirstOfMonth(d.year, d.month), LastOfMonth(d.year, d.month);
      Step(user, MonthlyReportDate, LongText(d), today, t)
        == Outcome(Idle, t, Monthly(MonthlySummary(InRange(t.orders, user, first, last), InRange(t.expenses, user, first, last),
                                                   d.year, d.month)))
    ensures Step(user, DailyReportDate, LongText(d), today, t)
      == Outcome(Idle, t, Daily(DailySummary(OnDate(t.orders, user, d), OnDate(t.expenses, user, d), d)))
  {
    DateTextEnds(d);
    AnswerIsAdvance(user, MonthlyReportDate, LongText(d), today, t);
    AnswerIsAdvance(user, DailyReportDate, LongText(d), today, t);
    AdvanceMonthlyReport(user, LongText(d), today, t);
    AdvanceDailyReport(user, LongText(d), today, t);
    LongDateReportSteps(user, d, today, t);
  }

  lemma LongDateReportSteps(user: UserId, d: Date, today: Date, t: Tables)
    requires ValidDate(d) && ValidDate(today)
    ensures var first, last := FirstOfMonth(d.year, d.month), LastOfMonth(d.year, d.month);
      MonthlyReportStep(user, LongText(d), t)
        == Outcome(Idle, t, Monthly(MonthlySummary(InRange(t.orders, user, first, last), InRange(t.expenses, user, first, last),
                                                   d.year, d.month)))
    ensures DailyReportStep(user, LongText(d), today, t)
      == Outcome(Idle, t, Daily(DailySummary(OnDate(t.orders, user, d), OnDate(t.expenses, user, d), d)))
  {
    DateTextEnds(d);
    DigitTextIsNoKeyword(LongText(d));
    ParseLongText(d);
  }

  /**
   * For the same date, the monthly report's line of that day shows the
   * daily report's figures, and it has a line exactly when the day has records.
   */
  lemma MonthlyAgreesWithDaily(user: UserId, d: Date, today: Date, t: Tables)
    requires ValidDate(d) && ValidDate(today)
    ensures var m := Step(user, MonthlyReportDate, LongText(d), today, t).reply;
      var r := Step(user, DailyReportDate, LongText(d), today, t).reply;
      && m.Monthly? && r.Daily? && r.daily.date == d && m.monthly.month == d.month && m.monthly.year == d.year
      && ((exists i :: 0 <= i < |m.monthly.orderLines| && m.monthly.orderLines[i].day == d) <==> OnDate(t.orders, user, d) != [])
      && ((exists i :: 0 <= i < |m.monthly.expenseLines| && m.monthly.expenseLines[i].day == d) <==> OnDate(t.expenses, user, d) != [])
      && (forall i :: 0 <= i < |m.monthly.orderLines| && m.monthly.orderLines[i].day == d ==>
            && m.monthly.orderLines[i].amounts.orderCount == r.daily.orderCount
            && m.monthly.orderLines[i].amounts.nominal == r.daily.totalNominal
            && m.monthly.orderLines[i].amounts.tips == r.daily.totalTips)
      && (forall i :: 0 <= i < |m.monthly.expenseLines| && m.monthly.expenseLines[i].day == d ==>
            m.monthly.expenseLines[i].amounts.expense == r.daily.totalExpense)
  {
    ReportsOfLongDate(user, d, today, t);
    MonthlyLineIsDaily(t, user, d);
  }
}
