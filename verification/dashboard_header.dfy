/** The dashboard header: the transaction type a page stands for, the add action it
    offers, and the currencies it lets the user pick. */
module DashboardHeader {
  import opened Wrappers
  import opened Finance
  import Currency

  /** `transactionType`: exact paths only. */
  function TransactionType(pathname: string): (r: Option<TxType>)
    ensures r == Some(Income) <==> pathname == "/income"
    ensures r == Some(Expense) <==> pathname == "/expenses"
    ensures r == None <==> pathname != "/income" && pathname != "/expenses"
  {
    if pathname == "/income" then Some(Income)
    else if pathname == "/expenses" then Some(Expense)
    else None
  }

  /** What the header offers for adding: nothing, the transfer sheet, or the transaction
      sheet preset to a type (or to none). */
  datatype AddAction = NoButton | TransferSheet | TransactionSheet(kind: Option<TxType>)

  function AddActionFor(pathname: string): (r: AddAction)
    ensures r == NoButton <==> pathname == "/planning" || pathname == "/"
    ensures r == TransferSheet <==> pathname == "/transfers"
    ensures r.TransactionSheet? ==> r.kind == TransactionType(pathname)
  {
    if pathname == "/planning" || pathname == "/" then NoButton
    else if pathname == "/transfers" then TransferSheet
    else TransactionSheet(TransactionType(pathname))
  }

  /** A path that is not one of the exact pages gets the untyped transaction sheet. */
  lemma OtherPathsGetUntypedSheet(pathname: string)
    requires pathname !in {"/planning", "/", "/transfers", "/income", "/expenses"}
    ensures AddActionFor(pathname) == TransactionSheet(None)
  {
  }

  /** An entry of the currency selector: its value and its shown text. */
  datatype CurrencyChoice = CurrencyChoice(value: string, caption: string)

  const CurrencyChoices: seq<CurrencyChoice> :=
    [CurrencyChoice("USD", "USD"), CurrencyChoice("EUR", "EUR"), CurrencyChoice("XOF", "FCFA")]

  /** The selector offers exactly the currencies that have an exchange rate, each once. */
  lemma ChoicesMatchRates()
    ensures forall i :: 0 <= i < |CurrencyChoices| ==> CurrencyChoices[i].value in Currency.ExchangeRates
    ensures forall c :: c in Currency.ExchangeRates ==> exists i :: 0 <= i < |CurrencyChoices| && CurrencyChoices[i].value == c
    ensures forall i, j :: 0 <= i < j < |CurrencyChoices| ==> CurrencyChoices[i].value != CurrencyChoices[j].value
  {
    forall c | c in Currency.ExchangeRates
      ensures exists i :: 0 <= i < |CurrencyChoices| && CurrencyChoices[i].value == c
    {
      assert c == "USD" || c == "EUR" || c == "XOF";
      if c == "USD" { assert CurrencyChoices[0].value == c; }
      else if c == "EUR" { assert CurrencyChoices[1].value == c; }
      else { assert CurrencyChoices[2].value == c; }
    }
  }
}
