/** The dashboard's period filtering: the interval around the current date, the
    transactions and transfers inside it, and the category choices of its table. */
module Dashboard {
  import opened Wrappers
  import opened Calendar
  import opened Periods
  import opened Finance
  import Seqs

  /** The optional type restriction: all transactions, or those of `filterType`. */
  function ByType(ts: seq<Transaction>, filterType: Option<TxType>): (r: seq<Transaction>)
    ensures Seqs.IsSubsequence(r, ts)
    ensures filterType == None ==> r == ts
    ensures forall i :: 0 <= i < |r| ==> filterType.Some? ==> r[i].kind == filterType.value
    ensures forall i :: 0 <= i < |ts| && (filterType.Some? ==> ts[i].kind == filterType.value) ==> ts[i] in r
    ensures forall t :: multiset(r)[t] == if filterType.None? || t.kind == filterType.value then multiset(ts)[t] else 0
  {
    match filterType
    case None =>
      Seqs.SubsequenceReflexive(ts);
      ts
    case Some(kind) =>
      Seqs.FilterMultiset(ts, OfType(kind));
      Seqs.Filter(ts, OfType(kind))
  }

  datatype FilteredData = FilteredData(transactions: seq<Transaction>, transfers: seq<Transfer>)

  /** `filteredData`: the interval of `period` around `now`, the transactions inside it
      (then restricted to `filterType` when it is set) and the transfers inside it. */
  function FilteredDataFor(now: Date, period: Period, weekStart: int, txs: seq<Transaction>,
                           transfers: seq<Transfer>, filterType: Option<TxType>): (r: FilteredData)
    requires Valid(now) && 0 <= weekStart < 7
    ensures var iv := PeriodInterval(period, now, weekStart);
      && Seqs.IsSubsequence(r.transactions, txs)
      && (forall i :: 0 <= i < |r.transactions| ==>
            InInterval(r.transactions[i].date, iv) &&
            (filterType.Some? ==> r.transactions[i].kind == filterType.value))
      && (forall i :: 0 <= i < |txs| ==>
            (InInterval(txs[i].date, iv) && (filterType.Some? ==> txs[i].kind == filterType.value)
             ==> txs[i] in r.transactions))
    ensures var iv := PeriodInterval(period, now, weekStart);
      && Seqs.IsSubsequence(r.transfers, transfers)
      && (forall i :: 0 <= i < |r.transfers| ==> InInterval(r.transfers[i].date, iv))
      && (forall i :: 0 <= i < |transfers| && InInterval(transfers[i].date, iv) ==> transfers[i] in r.transfers)
    ensures var iv := PeriodInterval(period, now, weekStart);
      forall t :: multiset(r.transactions)[t] ==
        if InInterval(t.date, iv) && (filterType.None? || t.kind == filterType.value) then multiset(txs)[t] else 0
    ensures var iv := PeriodInterval(period, now, weekStart);
      forall t :: multiset(r.transfers)[t] == if InInterval(t.date, iv) then multiset(transfers)[t] else 0
  {
    var iv := PeriodInterval(period, now, weekStart);
    TypedPeriodMultiset(txs, iv, filterType);
    Seqs.FilterMultiset(transfers, TransferWithin(iv));
    var periodTransactions := Seqs.Filter(txs, TransactionWithin(iv));
    var periodTransfers := Seqs.Filter(transfers, TransferWithin(iv));
    var typed := ByType(periodTransactions, filterType);
    Seqs.SubsequenceTransitive(typed, periodTransactions, txs);
    FilteredData(typed, periodTransfers)
  }

  /** The interval filter followed by the type filter keeps every copy of every
      transaction that passes both, and nothing else. */
  lemma TypedPeriodMultiset(txs: seq<Transaction>, iv: Interval, filterType: Option<TxType>)
    ensures forall t ::
              multiset(ByType(Seqs.Filter(txs, TransactionWithin(iv)), filterType))[t] ==
              if InInterval(t.date, iv) && (filterType.None? || t.kind == filterType.value) then multiset(txs)[t] else 0
  {
    Seqs.FilterMultiset(txs, TransactionWithin(iv));
  }

  /** The transfers shown never depend on the type filter. */
  lemma TransfersIgnoreType(now: Date, period: Period, weekStart: int, txs: seq<Transaction>,
                            transfers: seq<Transfer>, f: Option<TxType>, g: Option<TxType>)
    requires Valid(now) && 0 <= weekStart < 7
    ensures FilteredDataFor(now, period, weekStart, txs, transfers, f).transfers
            == FilteredDataFor(now, period, weekStart, txs, transfers, g).transfers
  {
  }

  /** Filtering what the dashboard already filtered changes nothing. */
  lemma FilteredDataIdempotent(now: Date, period: Period, weekStart: int, txs: seq<Transaction>,
                               transfers: seq<Transfer>, filterType: Option<TxType>)
    requires Valid(now) && 0 <= weekStart < 7
    ensures var r := FilteredDataFor(now, period, weekStart, txs, transfers, filterType);
            FilteredDataFor(now, period, weekStart, r.transactions, r.transfers, filterType) == r
  {
    var iv := PeriodInterval(period, now, weekStart);
    var within := TransactionWithin(iv);
    var once := Seqs.Filter(txs, within);
    Seqs.FilterIdempotent(transfers, TransferWithin(iv));
    match filterType
    case None =>
      Seqs.FilterIdempotent(txs, within);
    case Some(kind) =>
      Seqs.FilterCommute(once, OfType(kind), within);
      Seqs.FilterIdempotent(txs, within);
      Seqs.FilterIdempotent(once, OfType(kind));
  }

  /** `allTransactionsForType`: every transaction of the type, whatever the period. */
  function AllTransactionsForType(txs: seq<Transaction>, filterType: Option<TxType>): (r: seq<Transaction>)
    ensures filterType == None ==> r == txs
    ensures Seqs.IsSubsequence(r, txs)
    ensures forall i :: 0 <= i < |txs| ==> (txs[i] in r <==> filterType.None? || txs[i].kind == filterType.value)
    ensures forall t :: multiset(r)[t] == if filterType.None? || t.kind == filterType.value then multiset(txs)[t] else 0
  {
    ByType(txs, filterType)
  }

  /** An entry of the category selector: its shown label (`caption`) and its value. */
  datatype CategoryOption = CategoryOption(caption: string, value: string)

  /** `categoryOptions`: the income categories, the expense sub-categories, or both in
      that order, each offered under its own name. The two lists live in a types module
      that is not part of this model, so they are parameters. */
  function CategoryOptions(filterType: Option<TxType>, incomeCategories: seq<string>,
                           expenseSubCategories: seq<string>): (r: seq<CategoryOption>)
    ensures var cats := match filterType
                        case Some(Income) => incomeCategories
                        case Some(Expense) => expenseSubCategories
                        case None => incomeCategories + expenseSubCategories;
            |r| == |cats| && forall i :: 0 <= i < |r| ==> r[i].caption == cats[i] && r[i].value == cats[i]
  {
    var categories := match filterType
                      case Some(Income) => incomeCategories
                      case Some(Expense) => expenseSubCategories
                      case None => incomeCategories + expenseSubCategories;
    seq(|categories|, i requires 0 <= i < |categories| => CategoryOption(categories[i], categories[i]))
  }
}
