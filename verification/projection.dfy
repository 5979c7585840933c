/** The cash-flow projection page: two editable lists of planned incomes and expenses
    and the month-by-month balance series they produce. */
module Projection {
  import Text
  import Seqs

  /** `'once' | 'recurring'`. */
  datatype Recurrence = Once | Recurring

  datatype ProjectionItem = ProjectionItem(id: string, description: string, amount: int, recurrence: Recurrence)

  /** Which of the two lists a handler works on (`'income' | 'expense'`). */
  datatype ListKind = IncomeList | ExpenseList

  /** The page's two lists. */
  datatype Lists = Lists(incomes: seq<ProjectionItem>, expenses: seq<ProjectionItem>)

  function Items(lists: Lists, kind: ListKind): seq<ProjectionItem> {
    match kind
    case IncomeList => lists.incomes
    case ExpenseList => lists.expenses
  }

  function OtherList(kind: ListKind): ListKind {
    match kind
    case IncomeList => ExpenseList
    case ExpenseList => IncomeList
  }

  /** `lists` with the list of `kind` replaced by `items`. */
  function WithItems(lists: Lists, kind: ListKind, items: seq<ProjectionItem>): (r: Lists)
    ensures Items(r, kind) == items && Items(r, OtherList(kind)) == Items(lists, OtherList(kind))
  {
    match kind
    case IncomeList => lists.(incomes := items)
    case ExpenseList => lists.(expenses := items)
  }

  // ---------------------------------------------------------------------------
  // The list handlers

  /** The blank row `handleAddItem` creates; `freshId` stands for `crypto.randomUUID()`. */
  function BlankItem(freshId: string): ProjectionItem {
    ProjectionItem(freshId, "", 0, Once)
  }

  /** `handleAddItem`: one blank row at the end of the chosen list; the other list is untouched. */
  function AddItem(lists: Lists, kind: ListKind, freshId: string): (r: Lists)
    ensures var before, after := Items(lists, kind), Items(r, kind);
            |after| == |before| + 1 && after[..|before|] == before && after[|before|] == BlankItem(freshId)
    ensures Items(r, OtherList(kind)) == Items(lists, OtherList(kind))
  {
    var items := Items(lists, kind);
    var added := items + [BlankItem(freshId)];
    assert added[..|items|] == items;
    WithItems(lists, kind, added)
  }

  /** The test `item => item.id !== id`. */
  function IdIsNot(id: string): ProjectionItem -> bool {
    (item: ProjectionItem) => item.id != id
  }

  /** `handleRemoveItem`: every row with that id leaves the chosen list, the others stay in order. */
  function RemoveItem(lists: Lists, kind: ListKind, id: string): (r: Lists)
    ensures var before, after := Items(lists, kind), Items(r, kind);
            && Seqs.IsSubsequence(after, before)
            && (forall i :: 0 <= i < |after| ==> after[i].id != id)
            && (forall i :: 0 <= i < |before| && before[i].id != id ==> before[i] in after)
    ensures var before, after := Items(lists, kind), Items(r, kind);
            forall x :: multiset(after)[x] == if x.id != id then multiset(before)[x] else 0
    ensures Items(r, OtherList(kind)) == Items(lists, OtherList(kind))
  {
    Seqs.FilterMultiset(Items(lists, kind), IdIsNot(id));
    WithItems(lists, kind, Seqs.Filter(Items(lists, kind), IdIsNot(id)))
  }

  /** Removing an id that no row carries changes nothing. */
  lemma RemoveAbsentId(lists: Lists, kind: ListKind, id: string)
    requires forall i :: 0 <= i < |Items(lists, kind)| ==> Items(lists, kind)[i].id != id
    ensures RemoveItem(lists, kind, id) == lists
  {
    Seqs.FilterKeepsAll(Items(lists, kind), IdIsNot(id));
  }

  /** Removing the same id twice is removing it once. */
  lemma RemoveItemIdempotent(lists: Lists, kind: ListKind, id: string)
    ensures RemoveItem(RemoveItem(lists, kind, id), kind, id) == RemoveItem(lists, kind, id)
  {
    Seqs.FilterIdempotent(Items(lists, kind), IdIsNot(id));
  }

  /** The edit `handleItemChange` applies: a field other than `id`, and its new value. */
  datatype Edit = SetDescription(description: string) | SetAmount(amount: int) | SetRecurrence(recurrence: Recurrence)

  /** `{ ...item, [field]: value }`: the named field takes the value, the others are kept. */
  function ApplyEdit(item: ProjectionItem, edit: Edit): (r: ProjectionItem)
    ensures r.id == item.id
    ensures r.description == if edit.SetDescription? then edit.description else item.description
    ensures r.amount == if edit.SetAmount? then edit.amount else item.amount
    ensures r.recurrence == if edit.SetRecurrence? then edit.recurrence else item.recurrence
  {
    match edit
    case SetDescription(d) => item.(description := d)
    case SetAmount(a) => item.(amount := a)
    case SetRecurrence(t) => item.(recurrence := t)
  }

  /** `handleItemChange`: the rows with that id take the edit; every other row, the length,
      the order and the ids stay as they were, and the other list is untouched. */
  function ItemChange(lists: Lists, kind: ListKind, id: string, edit: Edit): (r: Lists)
    ensures var before, after := Items(lists, kind), Items(r, kind);
            && |after| == |before|
            && (forall i :: 0 <= i < |before| ==> after[i].id == before[i].id)
            && (forall i :: 0 <= i < |before| ==>
                  after[i] == if before[i].id == id then ApplyEdit(before[i], edit) else before[i])
    ensures Items(r, OtherList(kind)) == Items(lists, OtherList(kind))
  {
    var items := Items(lists, kind);
    WithItems(lists, kind, seq(|items|, i requires 0 <= i < |items| =>
      if items[i].id == id then ApplyEdit(items[i], edit) else items[i]))
  }

  /** Applying the same edit twice is applying it once. */
  lemma ItemChangeIdempotent(lists: Lists, kind: ListKind, id: string, edit: Edit)
    ensures ItemChange(ItemChange(lists, kind, id, edit), kind, id, edit) == ItemChange(lists, kind, id, edit)
  {
    var once := ItemChange(lists, kind, id, edit);
    var twice := ItemChange(once, kind, id, edit);
    assert Items(twice, kind) == Items(once, kind);
    assert Items(twice, OtherList(kind)) == Items(once, OtherList(kind));
    assert kind == IncomeList || kind == ExpenseList;
  }

  // ---------------------------------------------------------------------------
  // The balance series

  /** The sum of the amounts of the items of recurrence `rec`, in list order. */
  function FlowTotal(items: seq<ProjectionItem>, rec: Recurrence): int {
    if items == [] then 0
    else FlowTotal(items[..|items| - 1], rec)
         + (if items[|items| - 1].recurrence == rec then items[|items| - 1].amount else 0)
  }

  /** The totals of a concatenation add up. */
  lemma {:induction false} FlowTotalConcat(a: seq<ProjectionItem>, b: seq<ProjectionItem>, rec: Recurrence)
    ensures FlowTotal(a + b, rec) == FlowTotal(a, rec) + FlowTotal(b, rec)
    decreases |b|
  {
    if b != [] {
      assert (a + b)[..|a + b| - 1] == a + b[..|b| - 1];
      FlowTotalConcat(a, b[..|b| - 1], rec);
    } else {
      assert a + b == a;
    }
  }

  /** `items.filter(item => item.type === rec).forEach(item => acc += item.amount)`. */
  method AddFlows(acc: int, items: seq<ProjectionItem>, rec: Recurrence) returns (total: int)
    ensures total == acc + FlowTotal(items, rec)
  {
    total := acc;
    for k := 0 to |items|
      invariant total == acc + FlowTotal(items[..k], rec)
    {
      assert items[..k + 1][..k] == items[..k];
      if items[k].recurrence == rec {
        total := total + items[k].amount;
      }
    }
    assert items[..|items|] == items;
  }

  /** What every month from month 1 on adds: recurring incomes minus recurring expenses. */
  function RecurringNet(incomes: seq<ProjectionItem>, expenses: seq<ProjectionItem>): int {
    FlowTotal(incomes, Recurring) - FlowTotal(expenses, Recurring)
  }

  /** What month 1 adds on top: one-off incomes minus one-off expenses. */
  function OnceNet(incomes: seq<ProjectionItem>, expenses: seq<ProjectionItem>): int {
    FlowTotal(incomes, Once) - FlowTotal(expenses, Once)
  }

  /** The balance at month `i`: the start balance at month 0, then each month adds its net flow. */
  function BalanceAt(initialBalance: int, incomes: seq<ProjectionItem>, expenses: seq<ProjectionItem>, i: nat): int {
    if i == 0 then initialBalance
    else BalanceAt(initialBalance, incomes, expenses, i - 1) + RecurringNet(incomes, expenses)
         + (if i == 1 then OnceNet(incomes, expenses) else 0)
  }

  /** The label of month `i`: `Mois ${i}`. */
  function MonthLabel(i: nat): string {
    "Mois " + Text.NatToString(i)
  }

  /** A month label is "Mois " followed by decimal digits whose value is the month. */
  lemma MonthLabelSpellsMonth(i: nat)
    ensures |MonthLabel(i)| >= 6 && MonthLabel(i)[..5] == "Mois "
    ensures Text.IsDigits(MonthLabel(i)[5..]) && Text.DigitsValue(MonthLabel(i)[5..]) == i
  {
    assert MonthLabel(i)[5..] == Text.NatToString(i);
  }

  /** One point of the series. */
  datatype DataPoint = DataPoint(month: string, balance: int)

  /** The series for months 0 to `months`. */
  function Series(initialBalance: int, months: nat, incomes: seq<ProjectionItem>, expenses: seq<ProjectionItem>): seq<DataPoint> {
    seq(months + 1, i requires 0 <= i <= months => DataPoint(MonthLabel(i), BalanceAt(initialBalance, incomes, expenses, i)))
  }

  /** `projectionData`: the loop over months 0 to `projectionMonths`. */
  method ProjectionData(initialBalance: int, projectionMonths: nat,
                        incomes: seq<ProjectionItem>, expenses: seq<ProjectionItem>) returns (data: seq<DataPoint>)
    ensures data == Series(initialBalance, projectionMonths, incomes, expenses)
    ensures |data| == projectionMonths + 1
    ensures data[0].balance == initialBalance
  {
    ghost var series := Series(initialBalance, projectionMonths, incomes, expenses);
    data := [];
    var currentBalance := initialBalance;
    var i := 0;
    while i <= projectionMonths
      invariant 0 <= i <= projectionMonths + 1
      invariant data == series[..i]
      invariant currentBalance == BalanceAt(initialBalance, incomes, expenses, if i == 0 then 0 else i - 1)
    {
      var monthIncome := 0;
      var monthExpense := 0;
      monthIncome := AddFlows(monthIncome, incomes, Recurring);
      monthExpense := AddFlows(monthExpense, expenses, Recurring);
      if i == 1 {
        monthIncome := AddFlows(monthIncome, incomes, Once);
        monthExpense := AddFlows(monthExpense, expenses, Once);
      }
      if i > 0 {
        currentBalance := currentBalance + monthIncome - monthExpense;
      }
      assert series[i] == DataPoint(MonthLabel(i), currentBalance);
      assert series[..i + 1] == series[..i] + [series[i]];
      data := data + [DataPoint(MonthLabel(i), currentBalance)];
      i := i + 1;
    }
    assert series[..i] == series;
  }

  /** Closed form: from month 1 on, the balance is the start balance, `i` months of
      recurring flows, and the one-off flows once. */
  lemma {:induction false} BalanceClosedForm(initialBalance: int, incomes: seq<ProjectionItem>,
                                             expenses: seq<ProjectionItem>, i: nat)
    requires i >= 1
    ensures BalanceAt(initialBalance, incomes, expenses, i)
            == initialBalance + i * RecurringNet(incomes, expenses) + OnceNet(incomes, expenses)
  {
    if i > 1 {
      BalanceClosedForm(initialBalance, incomes, expenses, i - 1);
    }
  }

  /** Every month after the first changes the balance by the recurring flows alone. */
  lemma MonthOverMonth(initialBalance: int, incomes: seq<ProjectionItem>, expenses: seq<ProjectionItem>, i: nat)
    requires i >= 2
    ensures BalanceAt(initialBalance, incomes, expenses, i) - BalanceAt(initialBalance, incomes, expenses, i - 1)
            == RecurringNet(incomes, expenses)
  {
    BalanceClosedForm(initialBalance, incomes, expenses, i);
    BalanceClosedForm(initialBalance, incomes, expenses, i - 1);
  }

  /** With both lists empty the series is flat at the start balance. */
  lemma EmptyListsFlat(initialBalance: int, months: nat, i: nat)
    requires i <= months
    ensures Series(initialBalance, months, [], [])[i].balance == initialBalance
  {
    if i >= 1 {
      BalanceClosedForm(initialBalance, [], [], i);
    }
  }

  /** The labels run "Mois 0", "Mois 1", … and no two months share one. */
  lemma MonthLabelsDistinct(i: nat, j: nat)
    requires i != j
    ensures MonthLabel(i) != MonthLabel(j)
  {
    MonthLabelSpellsMonth(i);
    MonthLabelSpellsMonth(j);
  }

  /** A blank row adds nothing, so the series does not change. */
  lemma AddItemKeepsSeries(initialBalance: int, months: nat, lists: Lists, kind: ListKind, freshId: string)
    ensures var r := AddItem(lists, kind, freshId);
            Series(initialBalance, months, r.incomes, r.expenses)
            == Series(initialBalance, months, lists.incomes, lists.expenses)
  {
    var r := AddItem(lists, kind, freshId);
    var items := Items(lists, kind);
    assert Items(r, kind) == items + [BlankItem(freshId)];
    FlowTotalConcat(items, [BlankItem(freshId)], Once);
    FlowTotalConcat(items, [BlankItem(freshId)], Recurring);
    assert RecurringNet(r.incomes, r.expenses) == RecurringNet(lists.incomes, lists.expenses) by {
      assert kind == IncomeList || kind == ExpenseList;
    }
    assert OnceNet(r.incomes, r.expenses) == OnceNet(lists.incomes, lists.expenses) by {
      assert kind == IncomeList || kind == ExpenseList;
    }
    forall i: nat | i <= months
      ensures BalanceAt(initialBalance, r.incomes, r.expenses, i)
              == BalanceAt(initialBalance, lists.incomes, lists.expenses, i)
    {
      if i >= 1 {
        BalanceClosedForm(initialBalance, r.incomes, r.expenses, i);
        BalanceClosedForm(initialBalance, lists.incomes, lists.expenses, i);
      }
    }
  }

  /** `finalBalance`: the balance of the last point, 0 when there is none. */
  function FinalBalance(data: seq<DataPoint>): (r: int)
    ensures |data| == 0 ==> r == 0
  {
    if |data| == 0 then 0 else data[|data| - 1].balance
  }

  /** The headline figure is the closed form at the horizon. */
  lemma FinalBalanceClosedForm(initialBalance: int, months: nat, incomes: seq<ProjectionItem>, expenses: seq<ProjectionItem>)
    requires months >= 1
    ensures FinalBalance(Series(initialBalance, months, incomes, expenses))
            == initialBalance + months * RecurringNet(incomes, expenses) + OnceNet(incomes, expenses)
  {
    BalanceClosedForm(initialBalance, incomes, expenses, months);
  }
}
