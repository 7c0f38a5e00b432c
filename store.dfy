/**
 * The two tables of app/models.py and the operations of app/crud.py on them.
 * A table is a sequence of rows in insertion order; the queries return the
 * matching rows in that order, though callers may rely on no order at all
 * (the source's `.all()` has no `order_by`). Every query and every change
 * filters on the owning user.
 */
module Store {
  import opened Wrappers
  import opened Dates
  import opened Numbers

  type UserId = int

  /** The columns both tables have (`id`, `user_id`, `date`) and the table's own columns. */
  datatype Row<T> = Row(id: int, userId: UserId, date: Date, fields: T)

  /** The own columns of `order_records`. */
  datatype OrderFields = OrderFields(orderCount: int, totalNominal: real, tips: real)

  /** The own column of `expense_records`. */
  datatype ExpenseFields = ExpenseFields(expenseAmount: real)

  type OrderRecord = Row<OrderFields>
  type ExpenseRecord = Row<ExpenseFields>

  /** The whole database: both tables. */
  datatype Tables = Tables(orders: seq<OrderRecord>, expenses: seq<ExpenseRecord>)

  /** The row with primary key `id`, provided it belongs to `user`. */
  predicate Owned<T(!new)>(r: Row<T>, id: int, user: UserId) {
    r.id == id && r.userId == user
  }

  /** Primary keys are positive and unique. */
  predicate WellFormed<T(!new)>(s: seq<Row<T>>) {
    && (forall i :: 0 <= i < |s| ==> s[i].id >= 1)
    && (forall i, j :: 0 <= i < j < |s| ==> s[i].id != s[j].id)
  }

  /** The largest primary key in a table, 0 when it is empty. */
  function MaxId<T(!new)>(s: seq<Row<T>>): (m: int)
    ensures m >= 0 && forall i :: 0 <= i < |s| ==> s[i].id <= m
    ensures s == [] ==> m == 0
  {
    if s == [] then 0
    else
      var m := MaxId(s[..|s| - 1]);
      if s[|s| - 1].id > m then s[|s| - 1].id else m
  }

  /** The key SQLite gives a new row of an INTEGER PRIMARY KEY table: one more than the largest. */
  function NextId<T(!new)>(s: seq<Row<T>>): (n: int)
    ensures n >= 1 && forall i :: 0 <= i < |s| ==> s[i].id < n
  {
    MaxId(s) + 1
  }

  /** The query `filter(id == record_id, user_id == user_id).first()`: where the matching row is. */
  function Find<T(!new)>(s: seq<Row<T>>, id: int, user: UserId): (k: Option<nat>)
    ensures k.Some? ==> k.value < |s| && Owned(s[k.value], id, user)
    ensures k.Some? ==> forall i :: 0 <= i < k.value ==> !Owned(s[i], id, user)
    ensures k.None? <==> forall i :: 0 <= i < |s| ==> !Owned(s[i], id, user)
  {
    if s == [] then None
    else if Owned(s[0], id, user) then Some(0)
    else match Find(s[1..], id, user)
      case None => None
      case Some(k) => Some(k + 1)
  }

  /** The rows of one user. */
  function OfUser<T(!new)>(s: seq<Row<T>>, user: UserId): (r: seq<Row<T>>)
    ensures forall x :: x in r <==> x in s && x.userId == user
  {
    if s == [] then []
    else OfUser(s[..|s| - 1], user) + (if s[|s| - 1].userId == user then [s[|s| - 1]] else [])
  }

  /** `get_*_records_by_date`: the rows of `user` dated `d`. */
  function OnDate<T(!new)>(s: seq<Row<T>>, user: UserId, d: Date): (r: seq<Row<T>>)
    ensures forall x :: x in r <==> x in s && x.userId == user && x.date == d
  {
    if s == [] then []
    else
      var x := s[|s| - 1];
      OnDate(s[..|s| - 1], user, d) + (if x.userId == user && x.date == d then [x] else [])
  }

  /** `get_*_records_by_date_range`: the rows of `user` dated `lo` through `hi`, both included. */
  function InRange<T(!new)>(s: seq<Row<T>>, user: UserId, lo: Date, hi: Date): (r: seq<Row<T>>)
    ensures forall x :: x in r <==> x in s && x.userId == user && AtMost(lo, x.date) && AtMost(x.date, hi)
  {
    if s == [] then []
    else
      var x := s[|s| - 1];
      InRange(s[..|s| - 1], user, lo, hi)
        + (if x.userId == user && AtMost(lo, x.date) && AtMost(x.date, hi) then [x] else [])
  }

  /** The table after `db.add` of a new row with the next key. */
  function Inserted<T(!new)>(s: seq<Row<T>>, user: UserId, date: Date, fields: T): seq<Row<T>> {
    s + [Row(NextId(s), user, date, fields)]
  }

  /** The table after `db.delete` of the row `Find` picks, if any. */
  function Removed<T(!new)>(s: seq<Row<T>>, id: int, user: UserId): seq<Row<T>> {
    match Find(s, id, user)
    case None => s
    case Some(k) => s[..k] + s[k + 1..]
  }

  /** What `edit_order_record` assigns: `order` is `int(new_value)`; an unknown field assigns nothing. */
  function OrderEdit(f: OrderFields, field: string, newValue: real): OrderFields {
    if field == "order" then f.(orderCount := Trunc(newValue))
    else if field == "nominal" then f.(totalNominal := newValue)
    else if field == "tips" then f.(tips := newValue)
    else f
  }

  /** The orders table after `edit_order_record`. */
  function OrderEdited(s: seq<OrderRecord>, id: int, user: UserId, field: string, newValue: real): seq<OrderRecord> {
    match Find(s, id, user)
    case None => s
    case Some(k) => s[k := s[k].(fields := OrderEdit(s[k].fields, field, newValue))]
  }

  /** The expenses table after `edit_expense_record`. */
  function ExpenseEdited(s: seq<ExpenseRecord>, id: int, user: UserId, newValue: real): seq<ExpenseRecord> {
    match Find(s, id, user)
    case None => s
    case Some(k) => s[k := s[k].(fields := ExpenseFields(newValue))]
  }

  // ---------------------------------------------------------------------------
  // What the operations promise

  /** A new row gets a key no row has, and the table stays well formed. */
  lemma InsertedFresh<T(!new)>(s: seq<Row<T>>, user: UserId, date: Date, fields: T)
    requires WellFormed(s)
    ensures var r := Inserted(s, user, date, fields);
      WellFormed(r) && |r| == |s| + 1 && r[..|s|] == s
      && r[|s|] == Row(NextId(s), user, date, fields)
      && forall i :: 0 <= i < |s| ==> s[i].id != r[|s|].id
  {
  }

  /** With unique keys, at most one row has a given key. */
  lemma UniqueOwner<T(!new)>(s: seq<Row<T>>, i: nat, j: nat)
    requires WellFormed(s) && i < |s| && j < |s| && s[i].id == s[j].id
    ensures i == j
  {
  }

  /** Taking one row out of a well-formed table keeps it well formed and keeps exactly the rows with other keys. */
  lemma RemoveAtKeeps<T(!new)>(s: seq<Row<T>>, k: nat)
    requires WellFormed(s) && k < |s|
    ensures var r := s[..k] + s[k + 1..];
      && WellFormed(r) && |r| == |s| - 1
      && forall x :: x in r <==> x in s && x.id != s[k].id
  {
    var r := s[..k] + s[k + 1..];
    forall i | 0 <= i < |r| ensures r[i] == s[if i < k then i else i + 1] { }
    forall x | x in s && x.id != s[k].id
      ensures x in r
    {
      var i :| 0 <= i < |s| && s[i] == x;
      assert r[if i < k then i else i - 1] == x;
    }
  }

  /**
   * `delete_*_record` removes exactly the row with that key and that user,
   * when there is one, and keeps every other row.
   */
  lemma RemovedExactly<T(!new)>(s: seq<Row<T>>, id: int, user: UserId)
    requires WellFormed(s)
    ensures var r := Removed(s, id, user);
      && WellFormed(r)
      && |r| == (if Find(s, id, user).Some? then |s| - 1 else |s|)
      && forall x :: x in r <==> x in s && !Owned(x, id, user)
  {
    match Find(s, id, user)
    case None =>
      forall x | x in s ensures !Owned(x, id, user) {
        var i :| 0 <= i < |s| && s[i] == x;
      }
    case Some(k) =>
      RemoveAtKeeps(s, k);
      forall x | x in s ensures x.id != s[k].id <==> !Owned(x, id, user) {
        var i :| 0 <= i < |s| && s[i] == x;
        if x.id == s[k].id { UniqueOwner(s, i, k); }
      }
  }

  /**
   * `edit_order_record` on a matching row changes that row's one named
   * column (an unknown name changes nothing) and no other row.
   */
  lemma OrderEditedExactly(s: seq<OrderRecord>, id: int, user: UserId, field: string, v: real)
    requires WellFormed(s)
    ensures var r := OrderEdited(s, id, user, field, v);
      && WellFormed(r) && |r| == |s|
      && forall i :: 0 <= i < |s| ==>
        if Owned(s[i], id, user) then
          && r[i].id == s[i].id && r[i].userId == user && r[i].date == s[i].date
          && r[i].fields.orderCount == (if field == "order" then Trunc(v) else s[i].fields.orderCount)
          && r[i].fields.totalNominal == (if field == "nominal" then v else s[i].fields.totalNominal)
          && r[i].fields.tips == (if field == "tips" then v else s[i].fields.tips)
        else r[i] == s[i]
  {
    match Find(s, id, user)
    case None =>
    case Some(k) =>
      forall i | 0 <= i < |s| && Owned(s[i], id, user) ensures i == k { UniqueOwner(s, i, k); }
  }

  /** `edit_expense_record` on a matching row sets its amount and changes no other row. */
  lemma ExpenseEditedExactly(s: seq<ExpenseRecord>, id: int, user: UserId, v: real)
    requires WellFormed(s)
    ensures var r := ExpenseEdited(s, id, user, v);
      && WellFormed(r) && |r| == |s|
      && forall i :: 0 <= i < |s| ==>
        if Owned(s[i], id, user) then r[i] == s[i].(fields := ExpenseFields(v)) else r[i] == s[i]
  {
    match Find(s, id, user)
    case None =>
    case Some(k) =>
      forall i | 0 <= i < |s| && Owned(s[i], id, user) ensures i == k { UniqueOwner(s, i, k); }
  }

  lemma {:induction false} OfUserConcat<T(!new)>(a: seq<Row<T>>, b: seq<Row<T>>, u: UserId)
    ensures OfUser(a + b, u) == OfUser(a, u) + OfUser(b, u)
  {
    if b == [] {
      assert a + b == a;
    } else {
      assert (a + b)[..|a + b| - 1] == a + b[..|b| - 1];
      OfUserConcat(a, b[..|b| - 1], u);
    }
  }

  /** Replacing or dropping a row that is not `u`'s leaves `u`'s rows as they were. */
  lemma OfUserSplice<T(!new)>(s: seq<Row<T>>, k: nat, middle: seq<Row<T>>, u: UserId)
    requires k < |s| && s[k].userId != u && forall i :: 0 <= i < |middle| ==> middle[i].userId != u
    ensures OfUser(s[..k] + middle + s[k + 1..], u) == OfUser(s, u)
  {
    var a, b := s[..k], s[k + 1..];
    assert s == a + [s[k]] + b;
    OfUserConcat(a + [s[k]], b, u);
    OfUserConcat(a, [s[k]], u);
    OfUserConcat(a + middle, b, u);
    OfUserConcat(a, middle, u);
    assert [s[k]][..0] == [];
    OfUserNone(middle, u);
  }

  lemma {:induction false} OfUserNone<T(!new)>(s: seq<Row<T>>, u: UserId)
    requires forall i :: 0 <= i < |s| ==> s[i].userId != u
    ensures OfUser(s, u) == []
  {
    if s != [] { OfUserNone(s[..|s| - 1], u); }
  }

  /** Inserting a row for `user` leaves every other user's rows as they were. */
  lemma InsertedOtherUser<T(!new)>(s: seq<Row<T>>, user: UserId, date: Date, fields: T, u: UserId)
    requires u != user
    ensures OfUser(Inserted(s, user, date, fields), u) == OfUser(s, u)
  {
    var x := Row(NextId(s), user, date, fields);
    OfUserConcat(s, [x], u);
    assert [x][..0] == [];
  }

  /** Deleting on behalf of `user` leaves every other user's rows as they were. */
  lemma RemovedOtherUser<T(!new)>(s: seq<Row<T>>, id: int, user: UserId, u: UserId)
    requires u != user
    ensures OfUser(Removed(s, id, user), u) == OfUser(s, u)
  {
    match Find(s, id, user)
    case None =>
    case Some(k) =>
      OfUserSplice(s, k, [], u);
      assert s[..k] + [] + s[k + 1..] == s[..k] + s[k + 1..];
  }

  /** Editing an order on behalf of `user` leaves every other user's orders as they were. */
  lemma OrderEditedOtherUser(s: seq<OrderRecord>, id: int, user: UserId, field: string, v: real, u: UserId)
    requires u != user
    ensures OfUser(OrderEdited(s, id, user, field, v), u) == OfUser(s, u)
  {
    match Find(s, id, user)
    case None =>
    case Some(k) =>
      var x := s[k].(fields := OrderEdit(s[k].fields, field, v));
      OfUserSplice(s, k, [x], u);
      assert s[k := x] == s[..k] + [x] + s[k + 1..];
  }

  /** Editing an expense on behalf of `user` leaves every other user's expenses as they were. */
  lemma ExpenseEditedOtherUser(s: seq<ExpenseRecord>, id: int, user: UserId, v: real, u: UserId)
    requires u != user
    ensures OfUser(ExpenseEdited(s, id, user, v), u) == OfUser(s, u)
  {
    match Find(s, id, user)
    case None =>
    case Some(k) =>
      var x := s[k].(fields := ExpenseFields(v));
      OfUserSplice(s, k, [x], u);
      assert s[k := x] == s[..k] + [x] + s[k + 1..];
  }

  // ---------------------------------------------------------------------------
  // The tables as the source changes them: in place

  class RecordStore {
    var orders: seq<OrderRecord>
    var expenses: seq<ExpenseRecord>

    ghost predicate Valid()
      reads this
    {
      WellFormed(orders) && WellFormed(expenses)
    }

    /** Both tables, as a value. */
    function Snapshot(): Tables
      reads this
    {
      Tables(orders, expenses)
    }

    constructor ()
      ensures Valid() && orders == [] && expenses == []
    {
      orders, expenses := [], [];
    }

    /**
     * `add_order_record`: one new row with the next key. The caller passes no
     * date, so the column default applies: the day of the insert.
     */
    method AddOrderRecord(user: UserId, orderCount: int, totalNominal: real, tips: real, today: Date)
      returns (r: OrderRecord)
      requires Valid()
      modifies this
      ensures Valid()
      ensures r == Row(NextId(old(orders)), user, today, OrderFields(orderCount, totalNominal, tips))
      ensures orders == old(orders) + [r] && expenses == old(expenses)
    {
      r := Row(NextId(orders), user, today, OrderFields(orderCount, totalNominal, tips));
      InsertedFresh(orders, user, today, r.fields);
      orders := orders + [r];
    }

    /**
     * `add_expense_record`: parses the date with "%d-%m-%y"; on a ValueError
     * (None) nothing is inserted, otherwise one new row with the next key.
     */
    method AddExpenseRecord(user: UserId, expenseAmount: real, expenseDate: string)
      returns (r: Option<ExpenseRecord>)
      requires Valid()
      modifies this
      ensures Valid() && orders == old(orders)
      ensures r.None? <==> ParseDate(expenseDate, ShortYear).None?
      ensures r.None? ==> expenses == old(expenses)
      ensures r.Some? ==> r.value == Row(NextId(old(expenses)), user, ParseDate(expenseDate, ShortYear).value,
                                         ExpenseFields(expenseAmount))
                          && expenses == old(expenses) + [r.value]
    {
      var d := ParseDate(expenseDate, ShortYear);
      if d.None? {
        return None;
      }
      var row := Row(NextId(expenses), user, d.value, ExpenseFields(expenseAmount));
      InsertedFresh(expenses, user, d.value, row.fields);
      expenses := expenses + [row];
      r := Some(row);
    }

    /** `delete_order_record`: true iff a row with that key belongs to that user; that row is removed. */
    method DeleteOrderRecord(id: int, user: UserId) returns (ok: bool)
      requires Valid()
      modifies this
      ensures Valid() && expenses == old(expenses)
      ensures ok <==> exists i :: 0 <= i < |old(orders)| && Owned(old(orders)[i], id, user)
      ensures orders == Removed(old(orders), id, user)
    {
      RemovedExactly(orders, id, user);
      var k := Find(orders, id, user);
      if k.Some? {
        orders := orders[..k.value] + orders[k.value + 1..];
        ok := true;
      } else {
        ok := false;
      }
    }

    /** `delete_expense_record`: as `DeleteOrderRecord`, on the expenses table. */
    method DeleteExpenseRecord(id: int, user: UserId) returns (ok: bool)
      requires Valid()
      modifies this
      ensures Valid() && orders == old(orders)
      ensures ok <==> exists i :: 0 <= i < |old(expenses)| && Owned(old(expenses)[i], id, user)
      ensures expenses == Removed(old(expenses), id, user)
    {
      RemovedExactly(expenses, id, user);
      var k := Find(expenses, id, user);
      if k.Some? {
        expenses := expenses[..k.value] + expenses[k.value + 1..];
        ok := true;
      } else {
        ok := false;
      }
    }

    /**
     * `edit_order_record`: false, changing nothing, when no row has that key
     * and user; otherwise assigns the named column and returns true, even for
     * a column name it does not know.
     */
    method EditOrderRecord(id: int, user: UserId, field: string, newValue: real) returns (ok: bool)
      requires Valid()
      modifies this
      ensures Valid() && expenses == old(expenses)
      ensures ok <==> exists i :: 0 <= i < |old(orders)| && Owned(old(orders)[i], id, user)
      ensures orders == OrderEdited(old(orders), id, user, field, newValue)
    {
      OrderEditedExactly(orders, id, user, field, newValue);
      var k := Find(orders, id, user);
      if k.Some? {
        var r := orders[k.value];
        if field == "order" {
          r := r.(fields := r.fields.(orderCount := Trunc(newValue)));
        } else if field == "nominal" {
          r := r.(fields := r.fields.(totalNominal := newValue));
        } else if field == "tips" {
          r := r.(fields := r.fields.(tips := newValue));
        }
        orders := orders[k.value := r];
        ok := true;
      } else {
        ok := false;
      }
    }

    /** `edit_expense_record`: as `EditOrderRecord`, always assigning the amount. */
    method EditExpenseRecord(id: int, user: UserId, newValue: real) returns (ok: bool)
      requires Valid()
      modifies this
      ensures Valid() && orders == old(orders)
      ensures ok <==> exists i :: 0 <= i < |old(expenses)| && Owned(old(expenses)[i], id, user)
      ensures expenses == ExpenseEdited(old(expenses), id, user, newValue)
    {
      ExpenseEditedExactly(expenses, id, user, newValue);
      var k := Find(expenses, id, user);
      if k.Some? {
        var r := expenses[k.value];
        expenses := expenses[k.value := r.(fields := ExpenseFields(newValue))];
        ok := true;
      } else {
        ok := false;
      }
    }
  }
}
