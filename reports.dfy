/**
 * The two reports of app/bot.py. The daily report sums the user's records of
 * one date; the monthly report groups the records of a month by day into a
 * dict, lists the days in chronological order and adds the groups up.
 * Money is exact (`real`), so every sum is independent of the order in which
 * the (unordered) query results arrive.
 */
module Reports {
  import opened Dates
  import opened Store

  /** The quantities a report adds up. */
  datatype Amounts = Amounts(orderCount: int, nominal: real, tips: real, expense: real) {
    function Plus(o: Amounts): Amounts {
      Amounts(orderCount + o.orderCount, nominal + o.nominal, tips + o.tips, expense + o.expense)
    }

    /** "Total Keseluruhan" / "Total Pemasukan": nominal plus tips. */
    function Income(): real {
      nominal + tips
    }
  }

  const NoAmounts := Amounts(0, 0.0, 0.0, 0.0)

  /** What a report reads of one record, or what it shows for one day: a date and its amounts. */
  datatype Entry = Entry(day: Date, amounts: Amounts)

  /** What an order contributes to a report. */
  function OrderAmounts(f: OrderFields): Amounts {
    Amounts(f.orderCount, f.totalNominal, f.tips, 0.0)
  }

  /** What an expense contributes to a report. */
  function ExpenseAmounts(f: ExpenseFields): Amounts {
    Amounts(0, 0.0, 0.0, f.expenseAmount)
  }

  /** What the reports read of each record: its date and its amounts. */
  function Entries<T>(s: seq<Row<T>>, amount: T -> Amounts): (r: seq<Entry>)
    ensures |r| == |s| && forall i :: 0 <= i < |s| ==> r[i] == Entry(s[i].date, amount(s[i].fields))
  {
    seq(|s|, i requires 0 <= i < |s| => Entry(s[i].date, amount(s[i].fields)))
  }

  /** `sum(...)` over the entries, first to last. */
  function Total(es: seq<Entry>): Amounts {
    if es == [] then NoAmounts else Total(es[..|es| - 1]).Plus(es[|es| - 1].amounts)
  }

  /** The entries of day `d`. */
  function OnDay(es: seq<Entry>, d: Date): seq<Entry> {
    if es == [] then []
    else OnDay(es[..|es| - 1], d) + (if es[|es| - 1].day == d then [es[|es| - 1]] else [])
  }

  // ---------------------------------------------------------------------------
  // Daily report

  /** What "📊 Laporan Harian" shows. */
  datatype DailyReport = DailyReport(date: Date, orderCount: int, totalNominal: real, totalTips: real,
                                     income: real, totalExpense: real, net: real)

  /** The daily sums over the records the two point queries returned. */
  function DailySummary(orders: seq<OrderRecord>, expenses: seq<ExpenseRecord>, date: Date): DailyReport {
    var o := Total(Entries(orders, OrderAmounts));
    var e := Total(Entries(expenses, ExpenseAmounts));
    DailyReport(date, o.orderCount, o.nominal, o.tips, o.Income(), e.expense, o.Income() - e.expense)
  }

  // ---------------------------------------------------------------------------
  // Monthly report

  /** What "📊 Laporan Bulanan" shows: the order days, the expense days and the recap. */
  datatype MonthlyReport = MonthlyReport(month: int, year: int, orderLines: seq<Entry>,
                                         expenseLines: seq<Entry>, income: real, expense: real, net: real)

  predicate Distinct(ds: seq<Date>) {
    forall i, j :: 0 <= i < j < |ds| ==> ds[i] != ds[j]
  }

  /** The keys of the grouping dict in insertion order: each date once, in order of first appearance. */
  function Days(es: seq<Entry>): seq<Date> {
    if es == [] then []
    else
      var ds := Days(es[..|es| - 1]);
      if es[|es| - 1].day in ds then ds else ds + [es[|es| - 1].day]
  }

  /** The grouping dict after the accumulating loop: per date, the running sums. */
  function Group(es: seq<Entry>): map<Date, Amounts> {
    if es == [] then map[]
    else
      var g := Group(es[..|es| - 1]);
      var x := es[|es| - 1];
      g[x.day := At(g, x.day).Plus(x.amounts)]
  }

  /** A dict value, with a missing key reading as zero (a fresh day starts at zero). */
  function At(m: map<Date, Amounts>, d: Date): Amounts {
    if d in m then m[d] else NoAmounts
  }

  /** `sum(d.values())` over the given keys of a dict, in that order. */
  function SumOver(ds: seq<Date>, m: map<Date, Amounts>): Amounts {
    if ds == [] then NoAmounts else SumOver(ds[..|ds| - 1], m).Plus(At(m, ds[|ds| - 1]))
  }

  /** Strictly earlier in the calendar. */
  predicate Before(a: Date, b: Date) {
    a.year < b.year || (a.year == b.year && (a.month < b.month || (a.month == b.month && a.day < b.day)))
  }

  /** Each date strictly earlier than the next. */
  predicate Chronological(ds: seq<Date>) {
    forall i :: 0 <= i < |ds| - 1 ==> Before(ds[i], ds[i + 1])
  }

  function InsertDate(d: Date, ds: seq<Date>): (r: seq<Date>)
    requires Chronological(ds) && d !in ds
    ensures Chronological(r) && |r| == |ds| + 1
    ensures forall x :: x in r <==> x == d || x in ds
    ensures r[0] == d || r[0] == ds[0]
  {
    if ds == [] then [d]
    else if Before(d, ds[0]) then [d] + ds
    else
      [ds[0]] + InsertDate(d, ds[1..])
  }

  /** `sorted(keys, key=date)`: the distinct dates in chronological order. */
  function SortDates(ds: seq<Date>): (r: seq<Date>)
    requires Distinct(ds)
    ensures Chronological(r) && |r| == |ds|
    ensures forall x :: x in r <==> x in ds
  {
    if ds == [] then []
    else
      assert forall x :: x in ds <==> x == ds[0] || x in ds[1..];
      InsertDate(ds[0], SortDates(ds[1..]))
  }

  /** The report lines of the given days, each with the sum of that day's entries. */
  function Lines(ds: seq<Date>, es: seq<Entry>): seq<Entry> {
    if ds == [] then [] else Lines(ds[..|ds| - 1], es) + [Entry(ds[|ds| - 1], Total(OnDay(es, ds[|ds| - 1])))]
  }

  /** The lines of a table's days in chronological order. */
  function SortedLines(es: seq<Entry>): seq<Entry> {
    DaysDistinct(es);
    Lines(SortDates(Days(es)), es)
  }

  /**
   * What the monthly report states, given the records the two range queries
   * returned: one line per day with records, chronologically, with that day's
   * sums; income is nominal plus tips over all orders; net is income minus
   * expenses.
   */
  function MonthlySummary(orders: seq<OrderRecord>, expenses: seq<ExpenseRecord>, year: int, month: int): MonthlyReport {
    Summarize(Entries(orders, OrderAmounts), Entries(expenses, ExpenseAmounts), year, month)
  }

  /** The monthly report over what the reports read of the orders and of the expenses. */
  function Summarize(orderEntries: seq<Entry>, expenseEntries: seq<Entry>, year: int, month: int): MonthlyReport {
    var income := Total(orderEntries).Income();
    var expense := Total(expenseEntries).expense;
    MonthlyReport(month, year, SortedLines(orderEntries), SortedLines(expenseEntries), income, expense, income - expense)
  }

  // ---------------------------------------------------------------------------
  // Facts about grouping

  /** The dict keys are distinct. */
  lemma {:induction false} DaysDistinct(es: seq<Entry>)
    ensures Distinct(Days(es))
  {
    if es != [] { DaysDistinct(es[..|es| - 1]); }
  }

  /** The dict keys are exactly the dates of the entries. */
  lemma {:induction false} DaysCover(es: seq<Entry>)
    ensures forall d :: d in Days(es) <==> exists i :: 0 <= i < |es| && es[i].day == d
  {
    if es != [] {
      var es' := es[..|es| - 1];
      DaysCover(es');
      forall d ensures d in Days(es) <==> exists i :: 0 <= i < |es| && es[i].day == d {
        if d in Days(es') {
          var i :| 0 <= i < |es'| && es'[i].day == d;
          assert es[i].day == d;
        }
        if i :| 0 <= i < |es| - 1 && es[i].day == d {
          assert es'[i].day == d;
        }
      }
    }
  }

  /** The dict has a key for a date exactly when the date is among the listed keys. */
  lemma {:induction false} GroupKeys(es: seq<Entry>)
    ensures forall d :: d in Group(es) <==> d in Days(es)
  {
    if es != [] { GroupKeys(es[..|es| - 1]); }
  }

  lemma TotalAppend(es: seq<Entry>, x: Entry)
    ensures Total(es + [x]) == Total(es).Plus(x.amounts)
  {
    assert (es + [x])[..|es|] == es;
  }

  /** A date that is not a key has no entries. */
  lemma {:induction false} NoDayNoEntries(es: seq<Entry>, d: Date)
    requires d !in Days(es)
    ensures OnDay(es, d) == []
  {
    if es != [] { NoDayNoEntries(es[..|es| - 1], d); }
  }

  /** Each dict value is the sum of the entries of its date. */
  lemma {:induction false} GroupIsTotal(es: seq<Entry>, d: Date)
    ensures At(Group(es), d) == Total(OnDay(es, d))
  {
    if es != [] {
      var es' := es[..|es| - 1];
      var x := es[|es| - 1];
      GroupIsTotal(es', d);
      if x.day == d {
        TotalAppend(OnDay(es', d), x);
      } else {
        assert OnDay(es, d) == OnDay(es', d) + [] == OnDay(es', d);
      }
    }
  }

  lemma {:induction false} SumOverAgree(ds: seq<Date>, m: map<Date, Amounts>, m': map<Date, Amounts>)
    requires forall i :: 0 <= i < |ds| ==> At(m, ds[i]) == At(m', ds[i])
    ensures SumOver(ds, m) == SumOver(ds, m')
  {
    if ds != [] { SumOverAgree(ds[..|ds| - 1], m, m'); }
  }

  /** Adding `a` to the value of one listed key adds `a` to the sum over distinct keys. */
  lemma {:induction false} SumOverBump(ds: seq<Date>, m: map<Date, Amounts>, x: Date, a: Amounts)
    requires Distinct(ds) && x in ds
    ensures SumOver(ds, m[x := At(m, x).Plus(a)]) == SumOver(ds, m).Plus(a)
  {
    var m' := m[x := At(m, x).Plus(a)];
    var ds', y := ds[..|ds| - 1], ds[|ds| - 1];
    if y == x {
      forall i | 0 <= i < |ds'| ensures At(m, ds'[i]) == At(m', ds'[i]) {
        assert ds'[i] == ds[i] != ds[|ds| - 1];
      }
      SumOverAgree(ds', m, m');
      PlusRegroup(SumOver(ds', m), At(m, x), a);
    } else {
      var k :| 0 <= k < |ds| && ds[k] == x;
      assert ds'[k] == x;
      SumOverBump(ds', m, x, a);
      PlusRegroup(SumOver(ds', m), At(m, y), a);
    }
  }

  /** Adding amounts may be regrouped and reordered. */
  lemma PlusRegroup(p: Amounts, q: Amounts, r: Amounts)
    ensures p.Plus(q.Plus(r)) == p.Plus(q).Plus(r) && p.Plus(r).Plus(q) == p.Plus(q).Plus(r)
  {
  }

  /** Appending a fresh key with value `v` adds `v` to the sum. */
  lemma SumOverFresh(ds: seq<Date>, m: map<Date, Amounts>, k: Date, v: Amounts)
    requires k !in ds
    ensures SumOver(ds + [k], m[k := v]) == SumOver(ds, m).Plus(v)
  {
    assert (ds + [k])[..|ds|] == ds;
    SumOverAgree(ds, m, m[k := v]);
  }

  /** One more entry: a new day is appended to the keys, a known day keeps them; the entry adds to its day. */
  lemma GroupAppend(es: seq<Entry>, x: Entry)
    ensures Days(es + [x]) == if x.day in Days(es) then Days(es) else Days(es) + [x.day]
    ensures Group(es + [x]) == Group(es)[x.day := At(Group(es), x.day).Plus(x.amounts)]
  {
    assert (es + [x])[..|es|] == es;
  }

  /** The dict values add up to the sum over all the entries. */
  lemma {:induction false} SumOverGroup(es: seq<Entry>)
    ensures SumOver(Days(es), Group(es)) == Total(es)
  {
    if es != [] {
      var es' := es[..|es| - 1];
      var x := es[|es| - 1];
      assert es == es' + [x];
      SumOverGroup(es');
      TotalAppend(es', x);
      GroupAppend(es', x);
      if x.day in Days(es') {
        DaysDistinct(es');
        SumOverBump(Days(es'), Group(es'), x.day, x.amounts);
      } else {
        GroupKeys(es');
        SumOverFresh(Days(es'), Group(es'), x.day, NoAmounts.Plus(x.amounts));
      }
    }
  }

  lemma {:induction false} SumOverCons(d: Date, ds: seq<Date>, m: map<Date, Amounts>)
    ensures SumOver([d] + ds, m) == At(m, d).Plus(SumOver(ds, m))
  {
    if ds != [] {
      assert ([d] + ds)[..|ds|] == [d] + ds[..|ds| - 1];
      SumOverCons(d, ds[..|ds| - 1], m);
    }
  }

  lemma {:induction false} SumOverInsert(d: Date, ds: seq<Date>, m: map<Date, Amounts>)
    requires Chronological(ds) && d !in ds
    ensures SumOver(InsertDate(d, ds), m) == At(m, d).Plus(SumOver(ds, m))
  {
    if ds == [] {
      SumOverCons(d, [], m);
    } else if Before(d, ds[0]) {
      SumOverCons(d, ds, m);
    } else {
      var ds' := ds[1..];
      assert ds == [ds[0]] + ds';
      SumOverInsert(d, ds', m);
      SumOverCons(ds[0], InsertDate(d, ds'), m);
      SumOverCons(ds[0], ds', m);
    }
  }

  /** Sorting the keys does not change their sum. */
  lemma {:induction false} SumOverSorted(ds: seq<Date>, m: map<Date, Amounts>)
    requires Distinct(ds)
    ensures SumOver(SortDates(ds), m) == SumOver(ds, m)
  {
    if ds != [] {
      var ds' := ds[1..];
      assert ds == [ds[0]] + ds';
      SumOverSorted(ds', m);
      SumOverInsert(ds[0], SortDates(ds'), m);
      SumOverCons(ds[0], ds', m);
    }
  }

  /** The line at position `i` is the day `ds[i]` with its sums. */
  lemma {:induction false} LinesAt(ds: seq<Date>, es: seq<Entry>)
    ensures |Lines(ds, es)| == |ds|
    ensures forall i :: 0 <= i < |ds| ==> Lines(ds, es)[i] == Entry(ds[i], Total(OnDay(es, ds[i])))
  {
    if ds != [] { LinesAt(ds[..|ds| - 1], es); }
  }

  /** The lines of some keys add up like the dict values of those keys. */
  lemma {:induction false} LinesOfGroup(ds: seq<Date>, es: seq<Entry>)
    ensures Total(Lines(ds, es)) == SumOver(ds, Group(es))
  {
    if ds != [] {
      var ds' := ds[..|ds| - 1];
      LinesOfGroup(ds', es);
      TotalAppend(Lines(ds', es), Entry(ds[|ds| - 1], Total(OnDay(es, ds[|ds| - 1]))));
      GroupIsTotal(es, ds[|ds| - 1]);
    }
  }

  /** The sorted day lines add up to the total of all entries. */
  lemma SortedLinesAddUp(es: seq<Entry>)
    ensures Total(SortedLines(es)) == Total(es)
  {
    DaysDistinct(es);
    var ds := Days(es);
    var sorted := SortDates(ds);
    LinesOfGroup(sorted, es);
    SumOverSorted(ds, Group(es));
    SumOverGroup(es);
  }

  /** A chronological list is ordered pairwise, not just neighbour by neighbour. */
  lemma {:induction false} ChronologicalPairwise(ds: seq<Date>, i: int, j: int)
    requires Chronological(ds) && 0 <= i < j < |ds|
    ensures Before(ds[i], ds[j])
    decreases j - i
  {
    if i + 1 < j {
      ChronologicalPairwise(ds, i + 1, j);
    }
  }

  /** The sorted day lines are strictly chronological. */
  lemma SortedLinesChronological(es: seq<Entry>)
    ensures var r := SortedLines(es);
      forall i, j :: 0 <= i < j < |r| ==> Before(r[i].day, r[j].day)
  {
    DaysDistinct(es);
    var sorted := SortDates(Days(es));
    LinesAt(sorted, es);
    forall i, j | 0 <= i < j < |sorted| ensures Before(sorted[i], sorted[j]) {
      ChronologicalPairwise(sorted, i, j);
    }
  }

  /** Every sorted day line is the day of some entry, and the day of every entry has a line. */
  lemma SortedLinesCover(es: seq<Entry>)
    ensures var r := SortedLines(es);
      && (forall i :: 0 <= i < |r| ==> exists k :: 0 <= k < |es| && es[k].day == r[i].day)
      && (forall k :: 0 <= k < |es| ==> exists i :: 0 <= i < |r| && r[i].day == es[k].day)
  {
    DaysDistinct(es);
    DaysCover(es);
    var sorted := SortDates(Days(es));
    LinesAt(sorted, es);
    forall i | 0 <= i < |sorted| ensures sorted[i] in Days(es) {
      assert sorted[i] in sorted;
    }
    forall k | 0 <= k < |es| ensures exists i :: 0 <= i < |sorted| && sorted[i] == es[k].day {
      assert es[k].day in sorted;
    }
  }

  // ---------------------------------------------------------------------------
  // What the monthly report promises

  /**
   * The per-day lines add up to the recap: the order lines to the order
   * totals, whose nominal plus tips is the income; the expense lines to the
   * expense total; and net is income minus expense.
   */
  lemma MonthlyTotalsAddUp(orders: seq<OrderRecord>, expenses: seq<ExpenseRecord>, year: int, month: int)
    ensures var r := MonthlySummary(orders, expenses, year, month);
      && Total(r.orderLines) == Total(Entries(orders, OrderAmounts))
      && Total(r.expenseLines) == Total(Entries(expenses, ExpenseAmounts))
      && r.income == Total(r.orderLines).Income()
      && r.expense == Total(r.expenseLines).expense
      && r.net == r.income - r.expense
  {
    SortedLinesAddUp(Entries(orders, OrderAmounts));
    SortedLinesAddUp(Entries(expenses, ExpenseAmounts));
  }

  lemma {:induction false} EntriesAppend<T>(a: seq<Row<T>>, b: seq<Row<T>>, amount: T -> Amounts)
    ensures Entries(a + b, amount) == Entries(a, amount) + Entries(b, amount)
  {
  }

  lemma {:induction false} OnDayAppend(a: seq<Entry>, b: seq<Entry>, d: Date)
    ensures OnDay(a + b, d) == OnDay(a, d) + OnDay(b, d)
  {
    if b != [] {
      var b', y := b[..|b| - 1], b[|b| - 1];
      var tail := if y.day == d then [y] else [];
      assert (a + b)[..|a + b| - 1] == a + b';
      assert (a + b)[|a + b| - 1] == y;
      assert OnDay(a + b, d) == OnDay(a + b', d) + tail;
      OnDayAppend(a, b', d);
      assert OnDay(b, d) == OnDay(b', d) + tail;
    } else {
      assert a + b == a;
    }
  }

  /** A day has no entries exactly when no entry is of that day. */
  lemma {:induction false} OnDayEmpty(es: seq<Entry>, d: Date)
    ensures OnDay(es, d) == [] <==> forall k :: 0 <= k < |es| ==> es[k].day != d
  {
    if es != [] {
      var es' := es[..|es| - 1];
      OnDayEmpty(es', d);
      assert forall k :: 0 <= k < |es'| ==> es'[k] == es[k];
    }
  }

  /** Of the rows a range query returns, those of one day in the range are the rows the point query for that day returns. */
  lemma {:induction false} RangeDayIsDate<T(!new)>(s: seq<Row<T>>, amount: T -> Amounts, user: UserId, lo: Date, hi: Date, d: Date)
    requires AtMost(lo, d) && AtMost(d, hi)
    ensures OnDay(Entries(InRange(s, user, lo, hi), amount), d) == Entries(OnDate(s, user, d), amount)
  {
    if s != [] {
      var s', x := s[..|s| - 1], s[|s| - 1];
      var tail := if x.userId == user && AtMost(lo, x.date) && AtMost(x.date, hi) then [x] else [];
      var onDate := if x.userId == user && x.date == d then [x] else [];
      RangeDayIsDate(s', amount, user, lo, hi, d);
      EntriesAppend(InRange(s', user, lo, hi), tail, amount);
      OnDayAppend(Entries(InRange(s', user, lo, hi), amount), Entries(tail, amount), d);
      EntriesAppend(OnDate(s', user, d), onDate, amount);
      LastRowOfDay(x, amount, user, lo, hi, d);
      calc {
        OnDay(Entries(InRange(s, user, lo, hi), amount), d);
        OnDay(Entries(InRange(s', user, lo, hi) + tail, amount), d);
        OnDay(Entries(InRange(s', user, lo, hi), amount), d) + OnDay(Entries(tail, amount), d);
        Entries(OnDate(s', user, d), amount) + Entries(onDate, amount);
        Entries(OnDate(s, user, d), amount);
      }
    }
  }

  /** A row the range query keeps is of day `d` exactly when the point query for `d` keeps it. */
  lemma LastRowOfDay<T(!new)>(x: Row<T>, amount: T -> Amounts, user: UserId, lo: Date, hi: Date, d: Date)
    requires AtMost(lo, d) && AtMost(d, hi)
    ensures var tail := if x.userId == user && AtMost(lo, x.date) && AtMost(x.date, hi) then [x] else [];
      OnDay(Entries(tail, amount), d) == Entries(if x.userId == user && x.date == d then [x] else [], amount)
  {
    var tail := if x.userId == user && AtMost(lo, x.date) && AtMost(x.date, hi) then [x] else [];
    assert OnDay(Entries(tail, amount), d) == OnDay([], d) + OnDay(Entries(tail, amount), d);
  }

  /**
   * The monthly report agrees with the daily report: for a date of the
   * month, the month has a line for that date exactly when the daily
   * queries find records, and the line's sums are the daily sums.
   */
  lemma MonthlyLineIsDaily(t: Tables, user: UserId, d: Date)
    requires ValidDate(d)
    ensures var first, last := FirstOfMonth(d.year, d.month), LastOfMonth(d.year, d.month);
      var r := MonthlySummary(InRange(t.orders, user, first, last), InRange(t.expenses, user, first, last), d.year, d.month);
      var daily := DailySummary(OnDate(t.orders, user, d), OnDate(t.expenses, user, d), d);
      && ((exists i :: 0 <= i < |r.orderLines| && r.orderLines[i].day == d) <==> OnDate(t.orders, user, d) != [])
      && ((exists i :: 0 <= i < |r.expenseLines| && r.expenseLines[i].day == d) <==> OnDate(t.expenses, user, d) != [])
      && (forall i :: 0 <= i < |r.orderLines| && r.orderLines[i].day == d ==>
            r.orderLines[i].amounts.orderCount == daily.orderCount
            && r.orderLines[i].amounts.nominal == daily.totalNominal
            && r.orderLines[i].amounts.tips == daily.totalTips)
      && (forall i :: 0 <= i < |r.expenseLines| && r.expenseLines[i].day == d ==>
            r.expenseLines[i].amounts.expense == daily.totalExpense)
  {
    var first, last := FirstOfMonth(d.year, d.month), LastOfMonth(d.year, d.month);
    InMonthRange(d, d.year, d.month);
    DayLinePresent(t.orders, OrderAmounts, user, first, last, d);
    DayLinePresent(t.expenses, ExpenseAmounts, user, first, last, d);
    DayLineSums(t.orders, OrderAmounts, user, first, last, d);
    DayLineSums(t.expenses, ExpenseAmounts, user, first, last, d);
  }

  /** The sorted lines have a line for a day exactly when the day has entries. */
  lemma LinePresent(es: seq<Entry>, d: Date)
    ensures var r := SortedLines(es);
      (exists i :: 0 <= i < |r| && r[i].day == d) <==> OnDay(es, d) != []
  {
    var r := SortedLines(es);
    SortedLinesCover(es);
    OnDayEmpty(es, d);
    if k :| 0 <= k < |es| && es[k].day == d {
      var i :| 0 <= i < |r| && r[i].day == es[k].day;
    }
  }

  /** For one table: the sorted lines have a line for a day in the range exactly when its point query finds rows. */
  lemma DayLinePresent<T(!new)>(s: seq<Row<T>>, amount: T -> Amounts, user: UserId, lo: Date, hi: Date, d: Date)
    requires AtMost(lo, d) && AtMost(d, hi)
    ensures var r := SortedLines(Entries(InRange(s, user, lo, hi), amount));
      (exists i :: 0 <= i < |r| && r[i].day == d) <==> OnDate(s, user, d) != []
  {
    LinePresent(Entries(InRange(s, user, lo, hi), amount), d);
    RangeDayIsDate(s, amount, user, lo, hi, d);
    assert |Entries(OnDate(s, user, d), amount)| == |OnDate(s, user, d)|;
  }

  /** For one table: the sorted line of a day in the range holds the sums of that day's point query. */
  lemma DayLineSums<T(!new)>(s: seq<Row<T>>, amount: T -> Amounts, user: UserId, lo: Date, hi: Date, d: Date)
    requires AtMost(lo, d) && AtMost(d, hi)
    ensures var r := SortedLines(Entries(InRange(s, user, lo, hi), amount));
      forall i :: 0 <= i < |r| && r[i].day == d ==> r[i].amounts == Total(Entries(OnDate(s, user, d), amount))
  {
    var es := Entries(InRange(s, user, lo, hi), amount);
    DaysDistinct(es);
    LinesAt(SortDates(Days(es)), es);
    RangeDayIsDate(s, amount, user, lo, hi, d);
  }

  // ---------------------------------------------------------------------------
  // The monthly report as the source computes it

  /**
   * The grouping, sorting and summing of the monthly report: a dict per
   * table filled by one pass over the query results, day lines in sorted key
   * order, and the recap summed over the dict values.
   */
  method BuildMonthlyReport(orders: seq<OrderRecord>, expenses: seq<ExpenseRecord>, year: int, month: int)
    returns (report: MonthlyReport)
    ensures report == MonthlySummary(orders, expenses, year, month)
  {
    var orderEntries := Entries(orders, OrderAmounts);
    var expenseEntries := Entries(expenses, ExpenseAmounts);
    var ordersByDate, orderDays := GroupEntries(orderEntries);
    var expensesByDate, expenseDays := GroupEntries(expenseEntries);
    var orderLines := DayLines(orderEntries, ordersByDate, orderDays);
    var expenseLines := DayLines(expenseEntries, expensesByDate, expenseDays);
    var orderTotals := SumValues(orderEntries, ordersByDate, orderDays);
    var expenseTotals := SumValues(expenseEntries, expensesByDate, expenseDays);
    var income := orderTotals.Income();
    report := MonthlyReport(month, year, orderLines, expenseLines, income, expenseTotals.expense,
                            income - expenseTotals.expense);
  }

  /** The accumulating loop: a new day starts at zero, then each record adds its amounts. */
  method GroupEntries(es: seq<Entry>) returns (byDate: map<Date, Amounts>, days: seq<Date>)
    ensures byDate == Group(es) && days == Days(es)
  {
    byDate, days := map[], [];
    for i := 0 to |es|
      invariant byDate == Group(es[..i]) && days == Days(es[..i])
    {
      var e := es[i];
      assert es[..i + 1] == es[..i] + [e];
      GroupKeys(es[..i]);
      GroupAppend(es[..i], e);
      if e.day !in byDate {
        byDate := byDate[e.day := NoAmounts];
        days := days + [e.day];
      }
      byDate := byDate[e.day := byDate[e.day].Plus(e.amounts)];
    }
    assert es[..|es|] == es;
  }

  /** The loop over the sorted keys that writes one block per day. */
  method DayLines(es: seq<Entry>, byDate: map<Date, Amounts>, days: seq<Date>) returns (lines: seq<Entry>)
    requires byDate == Group(es) && days == Days(es)
    ensures lines == SortedLines(es)
  {
    DaysDistinct(es);
    GroupKeys(es);
    var sorted := SortDates(days);
    lines := [];
    for k := 0 to |sorted|
      invariant lines == Lines(sorted[..k], es)
    {
      var d := sorted[k];
      assert d in sorted;
      GroupIsTotal(es, d);
      assert sorted[..k + 1][..k] == sorted[..k];
      lines := lines + [Entry(d, byDate[d])];
    }
    assert sorted[..|sorted|] == sorted;
  }

  /** The sums over `by_date.values()`. */
  method SumValues(es: seq<Entry>, byDate: map<Date, Amounts>, days: seq<Date>) returns (sum: Amounts)
    requires byDate == Group(es) && days == Days(es)
    ensures sum == Total(es)
  {
    GroupKeys(es);
    sum := NoAmounts;
    for k := 0 to |days|
      invariant sum == SumOver(days[..k], byDate)
    {
      assert days[..k + 1][..k] == days[..k];
      assert days[k] in days;
      sum := sum.Plus(byDate[days[k]]);
    }
    assert days[..|days|] == days;
    SumOverGroup(es);
  }
}
