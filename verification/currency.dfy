/** Currency display: the exchange-rate table, the conversion out of XOF, and the choice of
    locale and number-format options that `formatCurrency` hands to `Intl.NumberFormat`. */
module Currency {
  import opened Wrappers

  /** `exchangeRates`: XOF per unit of each currency. Stored amounts are in XOF. */
  const ExchangeRates: map<string, int> := map["USD" := 615, "EUR" := 655, "XOF" := 1]

  /** `amountInXOF / exchangeRates[currency]`; a currency missing from the table divides by
      `undefined`, which gives NaN, shown here as `None`. */
  function Convert(amount: real, currency: string): (r: Option<real>)
    ensures r.Some? <==> currency in ExchangeRates
    ensures r.Some? ==> r.value * (ExchangeRates[currency] as real) == amount
    ensures currency == "XOF" ==> r == Some(amount)
  {
    if currency in ExchangeRates then Some(amount / (ExchangeRates[currency] as real)) else None
  }

  datatype Style = DecimalStyle | CurrencyStyle
  datatype Notation = Standard | Compact
  datatype CurrencyDisplay = Symbol | Code

  /** The options bag; an absent `maximumFractionDigits` is `None`. */
  datatype NumberFormatOptions = NumberFormatOptions(
    style: Style,
    currency: string,
    minimumFractionDigits: int,
    notation: Notation,
    maximumFractionDigits: Option<int>,
    currencyDisplay: CurrencyDisplay)

  /** ECMA-402 IsWellFormedCurrencyCode: three ASCII letters, in either case. */
  predicate WellFormedCurrencyCode(c: string) {
    |c| == 3 && forall i :: 0 <= i < 3 ==> ('A' <= c[i] <= 'Z' || 'a' <= c[i] <= 'z')
  }

  /** Whether `Intl.NumberFormat` accepts the options: ECMA-402 throws a RangeError for a
      `currency` option that is not a well-formed code (whatever the style), and for a
      minimum number of fraction digits above an explicit maximum. */
  predicate IntlAccepts(o: NumberFormatOptions) {
    && WellFormedCurrencyCode(o.currency)
    && (o.maximumFractionDigits.None? || o.minimumFractionDigits <= o.maximumFractionDigits.value)
  }

  /** Every currency of the rate table is a well-formed code. */
  lemma RateCurrenciesWellFormed(c: string)
    requires c in ExchangeRates
    ensures WellFormedCurrencyCode(c)
  {
  }

  /** The locale: French formatting for XOF and EUR, American otherwise. */
  function Locale(currency: string): (r: string)
    ensures r == "fr-FR" <==> currency == "XOF" || currency == "EUR"
    ensures r == "en-US" <==> !(currency == "XOF" || currency == "EUR")
  {
    if currency == "XOF" || currency == "EUR" then "fr-FR" else "en-US"
  }

  /** The options `formatCurrency` hands to Intl: a plain number when `unitOnly`, else a
      currency amount; 2 decimals at least, none for XOF; `compact` switches to compact
      notation with at most 1 decimal; XOF shown by its code unless `unitOnly`. */
  function FormatOptionsOf(currency: string, compact: bool, unitOnly: bool): (o: NumberFormatOptions)
    ensures o.style == DecimalStyle <==> unitOnly
    ensures o.currency == currency
    ensures o.minimumFractionDigits == if currency == "XOF" then 0 else 2
    ensures o.notation == Compact <==> compact
    ensures o.maximumFractionDigits == if compact then Some(1) else None
    ensures o.currencyDisplay == Code <==> currency == "XOF" && !unitOnly
    ensures IntlAccepts(o) <==> WellFormedCurrencyCode(currency) && (!compact || currency == "XOF")
  {
    NumberFormatOptions(
      if unitOnly then DecimalStyle else CurrencyStyle,
      currency,
      if currency == "XOF" then 0 else 2,
      if compact then Compact else Standard,
      if compact then Some(1) else None,
      if currency == "XOF" && !unitOnly then Code else Symbol)
  }

  /** The options as `formatCurrency` builds them, assignment by assignment. */
  method FormatOptions(currency: string, compact: bool, unitOnly: bool) returns (options: NumberFormatOptions)
    ensures options == FormatOptionsOf(currency, compact, unitOnly)
  {
    options := NumberFormatOptions(if unitOnly then DecimalStyle else CurrencyStyle, currency, 2, Standard, None, Symbol);
    if compact {
      options := options.(notation := Compact);
      options := options.(maximumFractionDigits := Some(1));
    }
    if currency == "XOF" {
      if !unitOnly {
        options := options.(currencyDisplay := Code);
      }
      options := options.(minimumFractionDigits := 0);
    }
  }

  /** The options with the evident intent of `compact` (at most one decimal) kept valid:
      the minimum is lowered to fit under the maximum. Otherwise as written. */
  method CorrectedFormatOptions(currency: string, compact: bool, unitOnly: bool) returns (options: NumberFormatOptions)
    ensures IntlAccepts(options) <==> WellFormedCurrencyCode(currency)
    ensures options.style == DecimalStyle <==> unitOnly
    ensures options.currency == currency
    ensures options.minimumFractionDigits == if currency == "XOF" || compact then 0 else 2
    ensures options.notation == Compact <==> compact
    ensures options.maximumFractionDigits == if compact then Some(1) else None
    ensures options.currencyDisplay == Code <==> currency == "XOF" && !unitOnly
  {
    options := FormatOptions(currency, compact, unitOnly);
    if compact {
      options := options.(minimumFractionDigits := 0);
    }
  }

  /** `pat` occurs in `s` at position `j`. */
  predicate OccursAt(s: string, pat: string, j: nat) {
    j + |pat| <= |s| && s[j..j + |pat|] == pat
  }

  /** An occurrence past the first character is an occurrence in the rest. */
  lemma OccursInTail(s: string, pat: string, j: nat)
    requires s != [] && j >= 1
    ensures OccursAt(s, pat, j) <==> OccursAt(s[1..], pat, j - 1)
  {
    if j + |pat| <= |s| {
      var a, b := s[j..j + |pat|], s[1..][j - 1..j - 1 + |pat|];
      assert |a| == |b| && forall k :: 0 <= k < |a| ==> a[k] == b[k];
      assert a == b;
    }
  }

  /** The first position where `pat` occurs in `s`. */
  function IndexOf(s: string, pat: string): (r: Option<nat>)
    ensures r.Some? ==> OccursAt(s, pat, r.value)
    ensures r.Some? ==> forall j: nat :: j < r.value ==> !OccursAt(s, pat, j)
    ensures r.None? ==> forall j: nat :: !OccursAt(s, pat, j)
    decreases |s|
  {
    if |pat| > |s| then None
    else if s[..|pat|] == pat then Some(0)
    else
      assert !OccursAt(s, pat, 0);
      match IndexOf(s[1..], pat)
      case None =>
        assert forall j: nat :: j >= 1 ==> !OccursAt(s, pat, j) by {
          forall j: nat | j >= 1 ensures !OccursAt(s, pat, j) {
            OccursInTail(s, pat, j);
          }
        }
        None
      case Some(i) =>
        OccursInTail(s, pat, i + 1);
        assert forall j: nat :: 1 <= j < i + 1 ==> !OccursAt(s, pat, j) by {
          forall j: nat | 1 <= j < i + 1 ensures !OccursAt(s, pat, j) {
            OccursInTail(s, pat, j);
          }
        }
        Some(i + 1)
  }

  /** `String.prototype.replace` with a string pattern: the first occurrence only. */
  function ReplaceFirst(s: string, pat: string, replacement: string): (r: string)
    ensures IndexOf(s, pat).None? ==> r == s
    ensures IndexOf(s, pat).Some? ==>
              var i := IndexOf(s, pat).value;
              && |r| == |s| - |pat| + |replacement|
              && r[..i] == s[..i]
              && r[i..i + |replacement|] == replacement
              && r[i + |replacement|..] == s[i + |pat|..]
  {
    match IndexOf(s, pat)
    case None => s
    case Some(i) =>
      var r := s[..i] + replacement + s[i + |pat|..];
      assert r[..i] == s[..i];
      assert r[i..i + |replacement|] == replacement;
      assert r[i + |replacement|..] == s[i + |pat|..];
      r
  }

  /** Only the first occurrence is replaced: a later one is still there, shifted. */
  lemma LaterOccurrenceKept(s: string, pat: string, replacement: string, j: nat)
    requires IndexOf(s, pat).Some? && OccursAt(s, pat, j) && j >= IndexOf(s, pat).value + |pat|
    ensures OccursAt(ReplaceFirst(s, pat, replacement), pat, j - |pat| + |replacement|)
  {
    var i := IndexOf(s, pat).value;
    var r := ReplaceFirst(s, pat, replacement);
    var k := j - |pat| + |replacement|;
    assert r[i + |replacement|..] == s[i + |pat|..];
    assert r[k..k + |pat|] == r[i + |replacement|..][j - i - |pat|..j - i - |pat| + |pat|];
    assert s[j..j + |pat|] == s[i + |pat|..][j - i - |pat|..j - i - |pat| + |pat|];
  }

  /** `formatCurrency`. `Intl.NumberFormat` is outside this model: `render` stands for
      constructing it with a locale and options and formatting a number (`None` is NaN).
      Options that Intl rejects make the call throw, reported as `None`. */
  method FormatCurrency(amount: real, currency: string, compact: bool, unitOnly: bool,
                        render: (string, NumberFormatOptions, Option<real>) -> string) returns (r: Option<string>)
    ensures var fail := !WellFormedCurrencyCode(currency) || (compact && currency != "XOF");
            r.None? <==> fail
    ensures r.Some? ==>
              var formatted := render(Locale(currency), FormatOptionsOf(currency, compact, unitOnly), Convert(amount, currency));
              r.value == if currency == "XOF" && !unitOnly then ReplaceFirst(formatted, "XOF", "FCFA") else formatted
  {
    var converted := Convert(amount, currency);
    var options := FormatOptions(currency, compact, unitOnly);
    if !IntlAccepts(options) {
      return None;
    }
    if currency == "XOF" {
      var locale := "fr-FR";
      var formatted := render(locale, options, converted);
      if !unitOnly {
        return Some(ReplaceFirst(formatted, "XOF", "FCFA"));
      }
      return Some(formatted);
    }
    var locale := if currency == "EUR" then "fr-FR" else "en-US";
    r := Some(render(locale, options, converted));
  }

  /** Compact USD amounts, as written, carry a minimum of 2 decimals under a maximum of 1. */
  lemma CompactUsdRejected()
    ensures !IntlAccepts(FormatOptionsOf("USD", true, false))
    ensures FormatOptionsOf("USD", true, false).minimumFractionDigits == 2
    ensures FormatOptionsOf("USD", true, false).maximumFractionDigits == Some(1)
  {
  }
}
