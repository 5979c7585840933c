/** The records the dashboard reads: transactions and transfers. */
module Finance {
  import opened Calendar

  /** The `type` of a transaction. */
  datatype TxType = Income | Expense

  /** A transaction; its `date` is what parsing the stored date string gave, which may
      be an Invalid Date. */
  datatype Transaction = Transaction(id: string, date: Date, amount: int, kind: TxType, category: string)

  datatype Transfer = Transfer(id: string, date: Date, amount: int, sourceAccount: string, destinationAccount: string)

  /** The test `t => t.type === kind`. */
  function OfType(kind: TxType): Transaction -> bool {
    (t: Transaction) => t.kind == kind
  }

  /** The test `t => isWithinInterval(parseISO(t.date), interval)` on transactions. */
  function TransactionWithin(iv: Interval): Transaction -> bool {
    (t: Transaction) => InInterval(t.date, iv)
  }

  /** The same test on transfers. */
  function TransferWithin(iv: Interval): Transfer -> bool {
    (t: Transfer) => InInterval(t.date, iv)
  }
}
