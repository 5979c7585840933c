/** The figures of the statistics cards: sums over the transactions of the period. */
module StatCards {
  import opened Wrappers
  import opened Finance
  import Seqs

  /** `reduce((sum, t) => sum + t.amount, 0)`. */
  function Sum(ts: seq<Transaction>): int {
    if ts == [] then 0 else ts[0].amount + Sum(ts[1..])
  }

  /** The test `t => t.category === category && t.type === kind`. */
  function OfCategoryAndType(category: string, kind: TxType): Transaction -> bool {
    (t: Transaction) => t.category == category && t.kind == kind
  }

  function IncomeTotal(ts: seq<Transaction>): int {
    Sum(Seqs.Filter(ts, OfType(Income)))
  }

  function ExpenseTotal(ts: seq<Transaction>): int {
    Sum(Seqs.Filter(ts, OfType(Expense)))
  }

  /** `balance`: income minus expenses. */
  function Balance(ts: seq<Transaction>): int {
    IncomeTotal(ts) - ExpenseTotal(ts)
  }

  /** `totalEmprunt`: income recorded under the borrowing category. */
  function TotalEmprunt(ts: seq<Transaction>): int {
    Sum(Seqs.Filter(ts, OfCategoryAndType("Emprunt", Income)))
  }

  /** `gainPropre`: income that was not borrowed. */
  function GainPropre(ts: seq<Transaction>): int {
    IncomeTotal(ts) - TotalEmprunt(ts)
  }

  function TotalInvestissement(ts: seq<Transaction>): int {
    Sum(Seqs.Filter(ts, OfCategoryAndType("Investissement", Expense)))
  }

  function TotalRemboursement(ts: seq<Transaction>): int {
    Sum(Seqs.Filter(ts, OfCategoryAndType("Remboursement", Expense)))
  }

  /** One stat card: its title and the figure it shows. */
  datatype Figure = Figure(title: string, value: int)

  /** The three cards shown for the page's `filterType`. */
  function ShownFigures(ts: seq<Transaction>, filterType: Option<TxType>): (r: seq<Figure>)
    ensures |r| == 3
    ensures filterType == Some(Income) ==>
      r[0].value == IncomeTotal(ts) && r[1].value == TotalEmprunt(ts) && r[2].value == r[0].value - r[1].value
    ensures filterType == Some(Expense) ==>
      r[0].value == ExpenseTotal(ts) && r[1].value == TotalInvestissement(ts) && r[2].value == TotalRemboursement(ts)
    ensures filterType == None ==>
      r[0].value == IncomeTotal(ts) && r[1].value == ExpenseTotal(ts) && r[2].value == r[0].value - r[1].value
  {
    match filterType
    case Some(Income) =>
      [Figure("Revenu total", IncomeTotal(ts)), Figure("Total emprunt", TotalEmprunt(ts)),
       Figure("Gain propre", GainPropre(ts))]
    case Some(Expense) =>
      [Figure("Total des dépenses", ExpenseTotal(ts)), Figure("Total investissement", TotalInvestissement(ts)),
       Figure("Total remboursement", TotalRemboursement(ts))]
    case None =>
      [Figure("Revenu total", IncomeTotal(ts)), Figure("Dépenses totales", ExpenseTotal(ts)),
       Figure("Solde net", Balance(ts))]
  }

  // ---------------------------------------------------------------------------
  // Properties of the sums

  predicate NonNegative(ts: seq<Transaction>) {
    forall i :: 0 <= i < |ts| ==> ts[i].amount >= 0
  }

  lemma {:induction false} SumConcat(a: seq<Transaction>, b: seq<Transaction>)
    ensures Sum(a + b) == Sum(a) + Sum(b)
  {
    if a != [] {
      assert (a + b)[0] == a[0];
      assert (a + b)[1..] == a[1..] + b;
      SumConcat(a[1..], b);
    } else {
      assert a + b == b;
    }
  }

  /** The total does not depend on the order of the transactions. */
  lemma {:induction false} SumPermutation(a: seq<Transaction>, b: seq<Transaction>)
    requires multiset(a) == multiset(b)
    ensures Sum(a) == Sum(b)
    decreases |a|
  {
    if a == [] {
      assert |b| == |multiset(b)| == 0;
    } else {
      var x := a[0];
      assert x in multiset(b);
      var j :| 0 <= j < |b| && b[j] == x;
      var rest := b[..j] + b[j + 1..];
      assert b == b[..j] + [x] + b[j + 1..];
      SumConcat(b[..j] + [x], b[j + 1..]);
      SumConcat(b[..j], [x]);
      SumConcat(b[..j], b[j + 1..]);
      assert a == [x] + a[1..];
      assert multiset(b) == multiset(b[..j]) + multiset{x} + multiset(b[j + 1..]);
      assert multiset(a) == multiset{x} + multiset(a[1..]);
      assert multiset(rest) == multiset(b[..j]) + multiset(b[j + 1..]);
      assert multiset(a[1..]) == multiset(a) - multiset{x};
      assert multiset(rest) == multiset(b) - multiset{x};
      SumPermutation(a[1..], rest);
    }
  }

  /** A filtered total does not depend on the order of the transactions. */
  lemma FilteredSumPermutation(a: seq<Transaction>, b: seq<Transaction>, keep: Transaction -> bool)
    requires multiset(a) == multiset(b)
    ensures Sum(Seqs.Filter(a, keep)) == Sum(Seqs.Filter(b, keep))
  {
    Seqs.FilterPermutation(a, b, keep);
    SumPermutation(Seqs.Filter(a, keep), Seqs.Filter(b, keep));
  }

  /** Every figure on the cards is the same for any reordering of the transactions. */
  lemma FiguresPermutationInvariant(a: seq<Transaction>, b: seq<Transaction>, filterType: Option<TxType>)
    requires multiset(a) == multiset(b)
    ensures ShownFigures(a, filterType) == ShownFigures(b, filterType)
  {
    FilteredSumPermutation(a, b, OfType(Income));
    FilteredSumPermutation(a, b, OfType(Expense));
    FilteredSumPermutation(a, b, OfCategoryAndType("Emprunt", Income));
    FilteredSumPermutation(a, b, OfCategoryAndType("Investissement", Expense));
    FilteredSumPermutation(a, b, OfCategoryAndType("Remboursement", Expense));
    FiguresDependOnTotals(a, b, filterType);
  }

  /** The cards depend on the transactions only through the five totals. */
  lemma FiguresDependOnTotals(a: seq<Transaction>, b: seq<Transaction>, filterType: Option<TxType>)
    requires IncomeTotal(a) == IncomeTotal(b) && ExpenseTotal(a) == ExpenseTotal(b)
    requires TotalEmprunt(a) == TotalEmprunt(b)
    requires TotalInvestissement(a) == TotalInvestissement(b)
    requires TotalRemboursement(a) == TotalRemboursement(b)
    ensures ShownFigures(a, filterType) == ShownFigures(b, filterType)
  {
    match filterType
    case Some(Income) =>
      assert GainPropre(a) == GainPropre(b);
    case Some(Expense) =>
    case None =>
      assert Balance(a) == Balance(b);
  }

  /** Income and expenses together account for every transaction. */
  lemma {:induction false} IncomeAndExpensesPartition(ts: seq<Transaction>)
    ensures IncomeTotal(ts) + ExpenseTotal(ts) == Sum(ts)
  {
    if ts != [] {
      IncomeAndExpensesPartition(ts[1..]);
    }
  }

  /** With non-negative amounts, borrowed income is part of income, so the gain
      without borrowing is never negative. */
  lemma {:induction false} EmpruntWithinIncome(ts: seq<Transaction>)
    requires NonNegative(ts)
    ensures 0 <= TotalEmprunt(ts) <= IncomeTotal(ts)
    ensures GainPropre(ts) >= 0
  {
    if ts != [] {
      EmpruntWithinIncome(ts[1..]);
    }
  }

  /** A list of income records contributes nothing to an expense category total. */
  lemma {:induction false} IncomeOnlyCountsZero(incs: seq<Transaction>, category: string)
    requires forall i :: 0 <= i < |incs| ==> incs[i].kind == Income
    ensures Sum(Seqs.Filter(incs, OfCategoryAndType(category, Expense))) == 0
  {
    if incs != [] {
      IncomeOnlyCountsZero(incs[1..], category);
    }
  }

  /** An expense category total ignores income records of that category, wherever they
      are added to the list. */
  lemma CategoryTypeMismatchCountsZero(ts: seq<Transaction>, incs: seq<Transaction>, category: string)
    requires forall i :: 0 <= i < |incs| ==> incs[i].kind == Income
    ensures Sum(Seqs.Filter(ts + incs, OfCategoryAndType(category, Expense)))
            == Sum(Seqs.Filter(ts, OfCategoryAndType(category, Expense)))
    ensures Sum(Seqs.Filter(incs + ts, OfCategoryAndType(category, Expense)))
            == Sum(Seqs.Filter(ts, OfCategoryAndType(category, Expense)))
  {
    var keep := OfCategoryAndType(category, Expense);
    Seqs.FilterConcat(ts, incs, keep);
    Seqs.FilterConcat(incs, ts, keep);
    SumConcat(Seqs.Filter(ts, keep), Seqs.Filter(incs, keep));
    SumConcat(Seqs.Filter(incs, keep), Seqs.Filter(ts, keep));
    IncomeOnlyCountsZero(incs, category);
  }
}
