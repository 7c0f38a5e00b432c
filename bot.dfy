/**
 * The running bot of app/bot.py: the dispatcher with its per-user state
 * storage and the database. One call of `Receive` is one incoming text
 * message, and does what `Flow.Step` says of it.
 */
module Bot {
  import opened Wrappers
  import opened Text
  import opened Numbers
  import opened Dates
  import opened Store
  import opened Reports
  import opened Flow

  class Bot {
    /** The FSM storage: each user's state and the data it has collected; a user not in it is idle. */
    var sessions: map<UserId, FlowState>
    /** The database behind the CRUD functions. */
    const store: RecordStore

    /** The tables keep unique keys, and every stored expense date is one the store can read. */
    ghost predicate Valid()
      reads this, store
    {
      store.Valid() && forall u :: u in sessions ==> Consistent(sessions[u])
    }

    /** The state of a user. */
    function StateOf(user: UserId): FlowState
      reads this
    {
      if user in sessions then sessions[user] else Idle
    }

    constructor ()
      ensures Valid() && fresh(store)
      ensures sessions == map[] && store.Snapshot() == Tables([], [])
    {
      sessions := map[];
      store := new RecordStore();
    }

    /** One text message from `user`, arriving on `today`: the first matching handler answers it. */
    method Receive(user: UserId, text: string, today: Date) returns (reply: Reply)
      requires Valid() && ValidDate(today)
      modifies this, store
      ensures Valid()
      ensures var o := Step(user, old(StateOf(user)), text, today, old(store.Snapshot()));
        && sessions == old(sessions)[user := o.state]
        && store.Snapshot() == o.tables
        && reply == o.reply
    {
      var s := StateOf(user);
      ConsistentPreserved(user, s, text, today, store.Snapshot());
      var next: FlowState;
      match Route(s, text) {
        case CancelHandler =>
          next, reply := Idle, Cancelled;
        case StartHandler =>
          next, reply := Idle, Welcome;
        case MenuHandler(m) =>
          next, reply := MenuStart(m), Ask(MenuStart(m));
        case DefaultHandler =>
          next, reply := s, Unrecognized;
        case StepHandler =>
          next, reply := Handle(user, s, text, today);
      }
      sessions := sessions[user := next];
    }

    /** The handler of the state the user is waiting in. */
    method Handle(user: UserId, s: FlowState, text: string, today: Date) returns (next: FlowState, reply: Reply)
      requires store.Valid() && ValidDate(today)
      modifies store
      ensures store.Valid()
      ensures Advance(user, s, text, today, old(store.Snapshot())) == Outcome(next, store.Snapshot(), reply)
    {
      match s
      case OrderTips(orderDate, orderCount, totalNominal) =>
        next, reply := SaveOrder(user, orderDate, orderCount, totalNominal, text, today);
      case ExpenseAmount(expenseDate) =>
        next, reply := SaveExpense(user, expenseDate, text);
      case DeleteOrderId =>
        next, reply := DeleteOrder(user, text);
      case DeleteExpenseId =>
        next, reply := DeleteExpense(user, text);
      case EditOrderValue(orderId, field) =>
        next, reply := EditOrder(user, orderId, field, text);
      case EditExpenseValue(expenseId) =>
        next, reply := EditExpense(user, expenseId, text);
      case MonthlyReportDate =>
        next, reply := MonthlyReportAnswer(user, text);
      case _ =>
        // The remaining steps parse the text and read the tables, and change nothing.
        AdvanceReadOnly(user, s, text, today, store.Snapshot());
        var o := Advance(user, s, text, today, store.Snapshot());
        next, reply := o.state, o.reply;
    }

    /** `process_tips` with `add_order_record`. */
    method SaveOrder(user: UserId, orderDate: string, orderCount: int, totalNominal: real, text: string, today: Date)
      returns (next: FlowState, reply: Reply)
      requires store.Valid()
      modifies store
      ensures store.Valid()
      ensures OrderTipsStep(user, orderDate, orderCount, totalNominal, text, today, old(store.Snapshot()))
        == Outcome(next, store.Snapshot(), reply)
    {
      match ParseFloat(text)
      case None =>
        next, reply := OrderTips(orderDate, orderCount, totalNominal), InvalidNumber;
      case Some(tips) =>
        var row := store.AddOrderRecord(user, orderCount, totalNominal, tips, today);
        next, reply := Idle, OrderSaved(orderDate, orderCount, totalNominal, tips, totalNominal + tips);
    }

    /** `process_expense_amount` with `add_expense_record`. */
    method SaveExpense(user: UserId, expenseDate: string, text: string) returns (next: FlowState, reply: Reply)
      requires store.Valid()
      modifies store
      ensures store.Valid()
      ensures ExpenseAmountStep(user, expenseDate, text, old(store.Snapshot())) == Outcome(next, store.Snapshot(), reply)
    {
      match ParseFloat(text)
      case None =>
        next, reply := ExpenseAmount(expenseDate), InvalidNumber;
      case Some(amount) =>
        var row := store.AddExpenseRecord(user, amount, expenseDate);
        if row.None? {
          next, reply := ExpenseAmount(expenseDate), InvalidNumber;
        } else {
          next, reply := Idle, ExpenseSaved(expenseDate, amount);
        }
    }

    /** `process_delete_order` with `delete_order_record`. */
    method DeleteOrder(user: UserId, text: string) returns (next: FlowState, reply: Reply)
      requires store.Valid()
      modifies store
      ensures store.Valid()
      ensures DeleteOrderStep(user, text, old(store.Snapshot())) == Outcome(next, store.Snapshot(), reply)
    {
      next := Idle;
      if Lower(text) in CancelWords {
        reply := ProcessCancelled;
      } else {
        match ParseInt(text)
        case None =>
          reply := InvalidNumber;
        case Some(id) =>
          var ok := store.DeleteOrderRecord(id, user);
          reply := Deleted(ok);
      }
    }

    /** `process_delete_expense` with `delete_expense_record`. */
    method DeleteExpense(user: UserId, text: string) returns (next: FlowState, reply: Reply)
      requires store.Valid()
      modifies store
      ensures store.Valid()
      ensures DeleteExpenseStep(user, text, old(store.Snapshot())) == Outcome(next, store.Snapshot(), reply)
    {
      next := Idle;
      if Lower(text) in CancelWords {
        reply := ProcessCancelled;
      } else {
        match ParseInt(text)
        case None =>
          reply := InvalidNumber;
        case Some(id) =>
          var ok := store.DeleteExpenseRecord(id, user);
          reply := Deleted(ok);
      }
    }

    /** `process_edit_order_new_value` with `edit_order_record`. */
    method EditOrder(user: UserId, orderId: int, field: string, text: string) returns (next: FlowState, reply: Reply)
      requires store.Valid()
      modifies store
      ensures store.Valid()
      ensures EditOrderValueStep(user, orderId, field, text, old(store.Snapshot())) == Outcome(next, store.Snapshot(), reply)
    {
      next := Idle;
      match ParseFloat(text)
      case None =>
        reply := InvalidNumber;
      case Some(v) =>
        var ok := store.EditOrderRecord(orderId, user, field, v);
        reply := Updated(ok);
    }

    /** `process_edit_expense_new_value` with `edit_expense_record`. */
    method EditExpense(user: UserId, expenseId: int, text: string) returns (next: FlowState, reply: Reply)
      requires store.Valid()
      modifies store
      ensures store.Valid()
      ensures EditExpenseValueStep(user, expenseId, text, old(store.Snapshot())) == Outcome(next, store.Snapshot(), reply)
    {
      next := Idle;
      match ParseFloat(text)
      case None =>
        reply := InvalidNumber;
      case Some(v) =>
        var ok := store.EditExpenseRecord(expenseId, user, v);
        reply := Updated(ok);
    }

    /** `process_monthly_report_date`: the two range queries, then the grouping loops. */
    method MonthlyReportAnswer(user: UserId, text: string) returns (next: FlowState, reply: Reply)
      ensures MonthlyReportStep(user, text, store.Snapshot()) == Outcome(next, store.Snapshot(), reply)
    {
      match ParseDate(text, LongYear)
      case None =>
        next, reply := MonthlyReportDate, InvalidDate;
      case Some(d) =>
        var first, last := FirstOfMonth(d.year, d.month), LastOfMonth(d.year, d.month);
        var orders := InRange(store.orders, user, first, last);
        var expenses := InRange(store.expenses, user, first, last);
        var report := BuildMonthlyReport(orders, expenses, d.year, d.month);
        next, reply := Idle, Monthly(report);
    }
  }
}
