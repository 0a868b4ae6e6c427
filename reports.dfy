/** The money arithmetic of the reports: the sales summary of a period, the
    history of shifts and the detail of one shift. The tables are given as
    the sequences of their rows; the order a query returns them in does not
    change any total (`TotalPermutation`). */
module Reports {
  import opened Common
  import opened Store

  const Completed := "completed"
  const UnpaidDebt := "unpaid_debt"
  const Cash := "efectivo"
  const Transfer := "transferencia"
  const Expense := "gasto"
  const ShiftNotFound := "Turno no encontrado"

  // ===== sums =====

  /** `xs.reduce((sum, x) => sum + f(x), 0)`, and what SQL `COALESCE(SUM(…), 0)`
      computes. */
  function Total<T>(xs: seq<T>, f: T -> real): real
  {
    if xs == [] then 0.0 else Total(xs[..|xs| - 1], f) + f(xs[|xs| - 1])
  }

  /** `COUNT(*)` of the rows that satisfy `p`. */
  function Count<T>(xs: seq<T>, p: T -> bool): (n: nat)
    ensures n <= |xs|
  {
    if xs == [] then 0 else Count(xs[..|xs| - 1], p) + (if p(xs[|xs| - 1]) then 1 else 0)
  }

  lemma {:induction false} TotalAppend<T>(xs: seq<T>, ys: seq<T>, f: T -> real)
    ensures Total(xs + ys, f) == Total(xs, f) + Total(ys, f)
    decreases |ys|
  {
    if ys == [] {
      assert xs + ys == xs;
    } else {
      var last := ys[|ys| - 1];
      assert (xs + ys)[..|xs + ys| - 1] == xs + ys[..|ys| - 1];
      TotalAppend(xs, ys[..|ys| - 1], f);
    }
  }

  lemma TotalSingle<T>(x: T, f: T -> real)
    ensures Total([x], f) == f(x)
  {
    assert [x][..0] == [];
  }

  /** Taking the same row out of two orderings of one multiset leaves two orderings of one multiset. */
  lemma RemoveOne<T>(rest: seq<T>, x: T, front: seq<T>, back: seq<T>)
    requires multiset(rest + [x]) == multiset(front + ([x] + back))
    ensures multiset(rest) == multiset(front + back)
  {
    calc {
      multiset(rest) + multiset{x};
      multiset(rest + [x]);
      multiset(front + ([x] + back));
      multiset(front) + multiset([x] + back);
      multiset(front) + multiset(back) + multiset{x};
      multiset(front + back) + multiset{x};
    }
    assert multiset(rest) == (multiset(rest) + multiset{x}) - multiset{x};
    assert multiset(front + back) == (multiset(front + back) + multiset{x}) - multiset{x};
  }

  /** A total does not depend on the order of the rows. */
  lemma {:induction false} TotalPermutation<T>(xs: seq<T>, ys: seq<T>, f: T -> real)
    requires multiset(xs) == multiset(ys)
    ensures Total(xs, f) == Total(ys, f)
    decreases |xs|
  {
    if xs == [] {
      assert |ys| == |multiset(ys)| == 0;
    } else {
      var x := xs[|xs| - 1];
      var rest := xs[..|xs| - 1];
      assert xs == rest + [x];
      assert x in multiset(ys);
      var i :| 0 <= i < |ys| && ys[i] == x;
      var front, back := ys[..i], ys[i + 1..];
      assert ys == front + ([x] + back);
      RemoveOne(rest, x, front, back);
      TotalPermutation(rest, front + back, f);
      TotalAppend(front, [x] + back, f);
      TotalAppend([x], back, f);
      TotalAppend(front, back, f);
      TotalSingle(x, f);
    }
  }

  /** Adding two shares row by row adds their totals. */
  lemma {:induction false} TotalSplit<T>(xs: seq<T>, f: T -> real, g: T -> real, h: T -> real)
    requires forall x :: f(x) == g(x) + h(x)
    ensures Total(xs, f) == Total(xs, g) + Total(xs, h)
    decreases |xs|
  {
    if xs != [] {
      TotalSplit(xs[..|xs| - 1], f, g, h);
    }
  }

  // ===== what a sum ranges over =====

  /** The rows a report sums: those of one shift, those created within a
      closed interval of time (`BETWEEN start AND end`), or all of them. */
  datatype Scope = OfShift(shiftId: Id) | Between(start: int, end: int) | AnyTime

  predicate SaleInScope(s: Sale, scope: Scope)
  {
    match scope
    case OfShift(id) => s.shiftId == Some(id)
    case Between(start, end) => start <= s.createdAt <= end
    case AnyTime => true
  }

  predicate MovementInScope(m: Movement, scope: Scope)
  {
    match scope
    case OfShift(id) => m.shiftId == Some(id)
    case Between(start, end) => start <= m.createdAt <= end
    case AnyTime => true
  }

  /** The total of a sale in scope with the given status, paid with the given
      method (`None`: any method); zero for every other sale. */
  function SaleAmount(scope: Scope, status: string, paidWith: Option<string>): Sale -> real
  {
    s => if SaleInScope(s, scope) && s.status == status && (paidWith.None? || s.paymentMethod == paidWith.value)
         then s.total else 0.0
  }

  /** The total of a completed sale in scope paid with neither cash nor transfer. */
  function OtherMethodsAmount(scope: Scope): Sale -> real
  {
    s => if SaleInScope(s, scope) && s.status == Completed && s.paymentMethod != Cash && s.paymentMethod != Transfer
         then s.total else 0.0
  }

  /** The amount of an expense (`gasto`) movement in scope. */
  function ExpenseAmount(scope: Scope): Movement -> real
  {
    m => if MovementInScope(m, scope) && m.kind == Expense then m.amount else 0.0
  }

  function CashSales(sales: seq<Sale>, scope: Scope): real
  {
    Total(sales, SaleAmount(scope, Completed, Some(Cash)))
  }

  function TransferSales(sales: seq<Sale>, scope: Scope): real
  {
    Total(sales, SaleAmount(scope, Completed, Some(Transfer)))
  }

  function CompletedSales(sales: seq<Sale>, scope: Scope): real
  {
    Total(sales, SaleAmount(scope, Completed, None))
  }

  function OtherMethodSales(sales: seq<Sale>, scope: Scope): real
  {
    Total(sales, OtherMethodsAmount(scope))
  }

  function Expenses(movements: seq<Movement>, scope: Scope): real
  {
    Total(movements, ExpenseAmount(scope))
  }

  /** The completed sales split by payment method: cash, transfer and the rest. */
  lemma CompletedPartition(sales: seq<Sale>, scope: Scope)
    ensures CompletedSales(sales, scope)
         == CashSales(sales, scope) + TransferSales(sales, scope) + OtherMethodSales(sales, scope)
  {
    var all := SaleAmount(scope, Completed, None);
    var cash := SaleAmount(scope, Completed, Some(Cash));
    var transfer := SaleAmount(scope, Completed, Some(Transfer));
    var other := OtherMethodsAmount(scope);
    var nonCash: Sale -> real := s => transfer(s) + other(s);
    TotalSplit(sales, all, cash, nonCash);
    TotalSplit(sales, nonCash, transfer, other);
  }

  // ===== getSalesSummary =====

  datatype SalesSummary = SalesSummary(
    totalTransactions: nat,
    cashSales: real,
    transferSales: real,
    totalSales: real,
    expensesCount: nat,
    expensesTotal: real,
    debtsCount: nat,
    debtsTotal: real,
    netProfit: real)

  function CompletedIn(scope: Scope): Sale -> bool
  {
    s => SaleInScope(s, scope) && s.status == Completed
  }

  function ExpenseIn(scope: Scope): Movement -> bool
  {
    m => MovementInScope(m, scope) && m.kind == Expense
  }

  /** `getSalesSummary` for the period from `start` to `end`: the completed
      sales and the expenses of the period, the unpaid debts of all time,
      and the net profit. */
  function GetSalesSummary(sales: seq<Sale>, movements: seq<Movement>, start: int, end: int): (r: SalesSummary)
    ensures r.totalTransactions <= |sales| && r.expensesCount <= |movements| && r.debtsCount <= |sales|
    ensures r.totalTransactions == Count(sales, CompletedIn(Between(start, end)))
    ensures r.cashSales == CashSales(sales, Between(start, end))
    ensures r.transferSales == TransferSales(sales, Between(start, end))
    ensures r.totalSales == CompletedSales(sales, Between(start, end))
    ensures r.expensesCount == Count(movements, ExpenseIn(Between(start, end)))
    ensures r.expensesTotal == Expenses(movements, Between(start, end))
    ensures r.debtsCount == Count(sales, (s: Sale) => s.status == UnpaidDebt)
    ensures r.debtsTotal == Total(sales, SaleAmount(AnyTime, UnpaidDebt, None))
    ensures r.netProfit == CompletedSales(sales, Between(start, end)) - Expenses(movements, Between(start, end))
    ensures r.totalSales == r.cashSales + r.transferSales + OtherMethodSales(sales, Between(start, end))
    ensures r.netProfit == r.totalSales - r.expensesTotal
  {
    var period := Between(start, end);
    CompletedPartition(sales, period);
    var total := CompletedSales(sales, period);
    var spent := Expenses(movements, period);
    SalesSummary(
      Count(sales, CompletedIn(period)),
      CashSales(sales, period),
      TransferSales(sales, period),
      total,
      Count(movements, ExpenseIn(period)),
      spent,
      Count(sales, (s: Sale) => s.status == UnpaidDebt),
      Total(sales, SaleAmount(AnyTime, UnpaidDebt, None)),
      total - spent)
  }

  /** The net profit of a period is the sum of the net profits of two
      consecutive periods that cover it. */
  lemma NetProfitSplits(sales: seq<Sale>, movements: seq<Movement>, start: int, mid: int, end: int)
    requires start <= mid < end
    ensures GetSalesSummary(sales, movements, start, end).netProfit
         == GetSalesSummary(sales, movements, start, mid).netProfit
          + GetSalesSummary(sales, movements, mid + 1, end).netProfit
  {
    TotalSplit(sales, SaleAmount(Between(start, end), Completed, None),
               SaleAmount(Between(start, mid), Completed, None), SaleAmount(Between(mid + 1, end), Completed, None));
    TotalSplit(movements, ExpenseAmount(Between(start, end)),
               ExpenseAmount(Between(start, mid)), ExpenseAmount(Between(mid + 1, end)));
  }

  // ===== getShiftDetail =====

  datatype ShiftSummary = ShiftSummary(
    salesCash: real,
    salesTransfer: real,
    totalSales: real,
    totalExpenses: real,
    expectedCash: real)

  /** The summary block of `getShiftDetail` for the shift requested as `id`:
      the sales and movements summed are those with `shift_id = id`. */
  function Summarize(id: Id, shift: Shift, sales: seq<Sale>, movements: seq<Movement>): (r: ShiftSummary)
    ensures r.totalSales == r.salesCash + r.salesTransfer
    ensures r.expectedCash == shift.initialCash + r.salesCash - r.totalExpenses
    ensures r.salesCash == CashSales(sales, OfShift(id))
    ensures r.salesTransfer == TransferSales(sales, OfShift(id))
    ensures r.totalExpenses == Expenses(movements, OfShift(id))
  {
    var cash := CashSales(sales, OfShift(id));
    var transfer := TransferSales(sales, OfShift(id));
    var spent := Expenses(movements, OfShift(id));
    ShiftSummary(cash, transfer, cash + transfer, spent, shift.initialCash + cash - spent)
  }

  datatype DetailReply = DetailMissing(status: nat, error: string) | Detail(shift: Shift, summary: ShiftSummary)

  /** `getShiftDetail`: 404 for an unknown shift, otherwise the shift and
      the summary of its sales and movements. */
  function GetShiftDetail(shifts: map<Id, Shift>, id: Id, sales: seq<Sale>, movements: seq<Movement>): (r: DetailReply)
    ensures r.DetailMissing? <==> id !in shifts
    ensures r.DetailMissing? ==> r == DetailMissing(404, ShiftNotFound)
    ensures r.Detail? ==> r.shift == shifts[id] && r.summary == Summarize(id, shifts[id], sales, movements)
  {
    if id !in shifts then DetailMissing(404, ShiftNotFound)
    else Detail(shifts[id], Summarize(id, shifts[id], sales, movements))
  }

  /** The expected cash moves by the total of a new completed cash sale of
      the shift, by nothing for any other sale, and down by the amount of a
      new expense of the shift. */
  lemma ExpectedCashAfterSale(shift: Shift, sales: seq<Sale>, movements: seq<Movement>, s: Sale)
    ensures Summarize(shift.id, shift, sales + [s], movements).expectedCash
         == Summarize(shift.id, shift, sales, movements).expectedCash
          + (if s.shiftId == Some(shift.id) && s.status == Completed && s.paymentMethod == Cash then s.total else 0.0)
  {
    TotalAppend(sales, [s], SaleAmount(OfShift(shift.id), Completed, Some(Cash)));
    TotalSingle(s, SaleAmount(OfShift(shift.id), Completed, Some(Cash)));
  }

  lemma ExpectedCashAfterMovement(shift: Shift, sales: seq<Sale>, movements: seq<Movement>, m: Movement)
    ensures Summarize(shift.id, shift, sales, movements + [m]).expectedCash
         == Summarize(shift.id, shift, sales, movements).expectedCash
          - (if m.shiftId == Some(shift.id) && m.kind == Expense then m.amount else 0.0)
  {
    TotalAppend(movements, [m], ExpenseAmount(OfShift(shift.id)));
    TotalSingle(m, ExpenseAmount(OfShift(shift.id)));
  }

  /** The summary does not depend on the order the queries return rows in. */
  lemma SummaryIgnoresOrder(shift: Shift, sales: seq<Sale>, sales': seq<Sale>,
                            movements: seq<Movement>, movements': seq<Movement>)
    requires multiset(sales) == multiset(sales') && multiset(movements) == multiset(movements')
    ensures Summarize(shift.id, shift, sales, movements) == Summarize(shift.id, shift, sales', movements')
  {
    TotalPermutation(sales, sales', SaleAmount(OfShift(shift.id), Completed, Some(Cash)));
    TotalPermutation(sales, sales', SaleAmount(OfShift(shift.id), Completed, Some(Transfer)));
    TotalPermutation(movements, movements', ExpenseAmount(OfShift(shift.id)));
  }

  // ===== getShiftsHistory =====

  datatype HistoryRow = HistoryRow(shift: Shift, totalSales: real, totalExpenses: real, expectedCash: real)

  /** One row of `getShiftsHistory` as written: the total of all completed
      sales of the shift goes into the expected cash, whatever their payment
      method. */
  function HistoryEntry(shift: Shift, sales: seq<Sale>, movements: seq<Movement>): (r: HistoryRow)
    ensures r.shift == shift
    ensures r.totalSales == CompletedSales(sales, OfShift(shift.id))
    ensures r.totalExpenses == Expenses(movements, OfShift(shift.id))
    ensures r.expectedCash == shift.initialCash + r.totalSales - r.totalExpenses
  {
    var total := CompletedSales(sales, OfShift(shift.id));
    var spent := Expenses(movements, OfShift(shift.id));
    HistoryRow(shift, total, spent, shift.initialCash + total - spent)
  }

  /** The shifts a `status` filter keeps, in their order (no filtering when
      the filter is absent or empty). */
  function WithStatus(shifts: seq<Shift>, status: Option<string>): (r: seq<Shift>)
    ensures |r| <= |shifts|
    ensures forall k :: 0 <= k < |r| ==> r[k] in shifts && (Truthy(status) ==> r[k].status == status.value)
    ensures !Truthy(status) ==> r == shifts
  {
    if shifts == [] then []
    else
      var last := shifts[|shifts| - 1];
      WithStatus(shifts[..|shifts| - 1], status)
        + (if !Truthy(status) || last.status == status.value then [last] else [])
  }

  /** Filtering a list is filtering its two halves: the kept shifts keep the
      order they were given in. */
  lemma {:induction false} WithStatusAppend(xs: seq<Shift>, ys: seq<Shift>, status: Option<string>)
    ensures WithStatus(xs + ys, status) == WithStatus(xs, status) + WithStatus(ys, status)
    decreases |ys|
  {
    if ys == [] {
      assert xs + ys == xs;
    } else {
      var front := ys[..|ys| - 1];
      assert (xs + ys)[..|xs + ys| - 1] == xs + front;
      assert (xs + ys)[|xs + ys| - 1] == ys[|ys| - 1];
      WithStatusAppend(xs, front, status);
    }
  }

  /** One shift is kept exactly when it has the requested status, or when
      there is no filter. */
  lemma WithStatusSingle(x: Shift, status: Option<string>)
    ensures WithStatus([x], status) == if !Truthy(status) || x.status == status.value then [x] else []
  {
    assert [x][..0] == [];
  }

  /** The filter drops no shift with the requested status. */
  lemma {:induction false} WithStatusComplete(shifts: seq<Shift>, status: Option<string>)
    ensures forall k :: 0 <= k < |shifts| && (!Truthy(status) || shifts[k].status == status.value) ==>
      shifts[k] in WithStatus(shifts, status)
  {
    if shifts != [] {
      var front := shifts[..|shifts| - 1];
      WithStatusComplete(front, status);
      forall k | 0 <= k < |shifts| && (!Truthy(status) || shifts[k].status == status.value)
        ensures shifts[k] in WithStatus(shifts, status)
      {
        if k < |front| {
          assert shifts[k] == front[k];
        }
      }
    }
  }

  function Entries(shifts: seq<Shift>, sales: seq<Sale>, movements: seq<Movement>): (r: seq<HistoryRow>)
    ensures |r| == |shifts|
    ensures forall k :: 0 <= k < |r| ==> r[k] == HistoryEntry(shifts[k], sales, movements)
  {
    if shifts == [] then []
    else Entries(shifts[..|shifts| - 1], sales, movements) + [HistoryEntry(shifts[|shifts| - 1], sales, movements)]
  }

  /** `getShiftsHistory`: the shifts (latest first, as given) with the
      requested status, at most `limit` of them, each with its totals. */
  function GetShiftsHistory(shifts: seq<Shift>, status: Option<string>, limit: nat,
                            sales: seq<Sale>, movements: seq<Movement>): (r: seq<HistoryRow>)
    ensures |r| <= limit && |r| <= |shifts|
    ensures forall k :: 0 <= k < |r| ==>
      r[k].shift in shifts && (Truthy(status) ==> r[k].shift.status == status.value)
      && r[k] == HistoryEntry(r[k].shift, sales, movements)
    ensures var kept := WithStatus(shifts, status);
      && |r| == (if |kept| <= limit then |kept| else limit)
      && forall k :: 0 <= k < |r| ==> r[k].shift == kept[k]
  {
    var kept := WithStatus(shifts, status);
    var shown := if |kept| <= limit then kept else kept[..limit];
    Entries(shown, sales, movements)
  }

  /** The history's expected cash exceeds the detail's by the transfer
      sales and the sales paid by any other method. */
  lemma HistoryCountsNonCashSales(shift: Shift, sales: seq<Sale>, movements: seq<Movement>)
    ensures HistoryEntry(shift, sales, movements).expectedCash
         == Summarize(shift.id, shift, sales, movements).expectedCash
          + TransferSales(sales, OfShift(shift.id)) + OtherMethodSales(sales, OfShift(shift.id))
  {
    CompletedPartition(sales, OfShift(shift.id));
  }

  /** A shift that opened with no cash and took one completed transfer of 10:
      the history expects 10 in the till, the detail 0. */
  lemma HistoryExpectedCashDiffers()
    ensures var shift := Shift("t1", "u1", "Ana", None, None, None, None, 0.0, None, None, "closed", true);
      var sale := Sale("s1", 10.0, Transfer, Completed, None, None, Some("t1"), None, 0, true, 0);
      && HistoryEntry(shift, [sale], []).expectedCash == 10.0
      && Summarize(shift.id, shift, [sale], []).expectedCash == 0.0
  {
    var shift := Shift("t1", "u1", "Ana", None, None, None, None, 0.0, None, None, "closed", true);
    var sale := Sale("s1", 10.0, Transfer, Completed, None, None, Some("t1"), None, 0, true, 0);
    TotalSingle(sale, SaleAmount(OfShift("t1"), Completed, None));
    TotalSingle(sale, SaleAmount(OfShift("t1"), Completed, Some(Cash)));
  }

  /** The history row with the expected cash computed as the detail does:
      initial cash plus cash sales minus expenses. */
  function HistoryEntryIntended(shift: Shift, sales: seq<Sale>, movements: seq<Movement>): (r: HistoryRow)
    ensures r.shift == shift
    ensures r.totalSales == CompletedSales(sales, OfShift(shift.id))
    ensures r.totalExpenses == Expenses(movements, OfShift(shift.id))
    ensures r.expectedCash == shift.initialCash + CashSales(sales, OfShift(shift.id)) - r.totalExpenses
  {
    var total := CompletedSales(sales, OfShift(shift.id));
    var spent := Expenses(movements, OfShift(shift.id));
    HistoryRow(shift, total, spent, shift.initialCash + CashSales(sales, OfShift(shift.id)) - spent)
  }

  /** The corrected history agrees with the shift detail on the expected
      cash, and with the written history whenever the shift took only cash. */
  lemma IntendedHistoryAgreesWithDetail(shift: Shift, sales: seq<Sale>, movements: seq<Movement>)
    ensures HistoryEntryIntended(shift, sales, movements).expectedCash == Summarize(shift.id, shift, sales, movements).expectedCash
    ensures TransferSales(sales, OfShift(shift.id)) + OtherMethodSales(sales, OfShift(shift.id)) == 0.0 ==>
      HistoryEntryIntended(shift, sales, movements) == HistoryEntry(shift, sales, movements)
  {
    CompletedPartition(sales, OfShift(shift.id));
  }
}
