/** The home page's month summary: the expenses of the current month are
    added up and shown with two decimals after a `,` and the integer part
    grouped with `.`. The month's date range and the favourite budgets list
    are not part of this model. */
module Home {
  import opened Wrappers
  import opened Strings
  import opened Numerals
  import opened Ledger
  import Formatters

  /** `amount.toFixed(2).replace('.', ',').replace(/\B(?=(\d{3})+(?!\d))/g, '.')`
      for an amount in cents: it always ends in a `,` and the two decimals
      of the amount. */
  function FormatAmount(cents: int): (s: string)
    ensures |s| >= 3 && s[|s| - 3] == ','
    ensures s[|s| - 2..] == TwoDigits((if cents < 0 then -cents else cents) % 100)
  {
    var a := if cents < 0 then -cents else cents;
    (if cents < 0 then "-" else "") + Group(Digits(a / 100)) + "," + TwoDigits(a % 100)
  }

  /** A non-negative amount has no sign: the grouped units, a `,`, and the
      two decimals. */
  lemma AmountParts(cents: nat)
    ensures FormatAmount(cents) == Group(Digits(cents / 100)) + [','] + TwoDigits(cents % 100)
  {
    var g, f := Group(Digits(cents / 100)), TwoDigits(cents % 100);
    assert "" + g == g;
  }

  /** A non-negative amount is shown as its grouped integer part, one `,`
      and exactly two decimals; dropping the group points gives back the
      numeral of the whole units. */
  lemma AmountShape(cents: nat)
    ensures var s := FormatAmount(cents);
            Split(s, ',') == [Group(Digits(cents / 100)), TwoDigits(cents % 100)]
    ensures RemoveAll(Group(Digits(cents / 100)), '.') == Digits(cents / 100)
  {
    var g, f := Group(Digits(cents / 100)), TwoDigits(cents % 100);
    AmountParts(cents);
    GroupStripsBack(Digits(cents / 100));
    DigitsHaveNoDot(f);
    SplitPrefix(g, f, ',');
    SplitNoSeparator(f, ',');
  }

  /** The amount read back by `formatNumber`, with a parser that reads a
      plain decimal at its value, is the amount that was formatted. */
  lemma AmountReadsBack(cents: nat, parseFloat: string -> Option<real>)
    requires parseFloat(Digits(cents / 100) + "." + TwoDigits(cents % 100)) == Some(cents as real / 100.0)
    ensures Formatters.FormatNumber(Formatters.Text(FormatAmount(cents)), parseFloat)
              == Formatters.Shown(cents as real / 100.0)
  {
    var ds, frac := Digits(cents / 100), TwoDigits(cents % 100);
    Formatters.NormalizeGrouped(ds, frac);
    AmountParts(cents);
  }

  const RecordsErrorMessage := "No se han podido obtener los registros del usuario."

  /** What the summary shows: the formatted amount and the error line. */
  datatype MonthSummary = MonthSummary(amount: string, error: Option<string>)

  /** The records call answered: a failure shows `0,00` and the error; a
      success shows the month's total, a missing amount counting as zero. */
  function MonthExpenses(response: Option<seq<Record>>): (v: MonthSummary)
    ensures response.None? ==> v.error == Some(RecordsErrorMessage)
    ensures response.Some? ==> v.error.None?
  {
    match response
    case None => MonthSummary("0,00", Some(RecordsErrorMessage))
    case Some(rs) => MonthSummary(FormatAmount(MoneyTotal(rs)), None)
  }

  /** A failed call shows the same amount as a month without expenses. */
  lemma FailureShowsZero()
    ensures MonthExpenses(None).amount == MonthExpenses(Some([])).amount == "0,00"
  {
    assert Chunks("0") == ["0"];
  }

  /** The total is the sum of the amounts, a missing amount counting as
      zero; adding a month's records in two batches adds their totals. */
  lemma MonthTotalAppend(a: seq<Record>, b: seq<Record>)
    ensures MoneyTotal(a + b) == MoneyTotal(a) + MoneyTotal(b)
  {
    TypeTotalsPartition(a + b);
    TypeTotalsPartition(a);
    TypeTotalsPartition(b);
    TypeTotalAppend(a, b, Expense);
    TypeTotalAppend(a, b, Income);
  }

  /** A record without an amount changes nothing in the summary. */
  lemma MissingMoneyCountsZero(r: Record, rs: seq<Record>)
    requires r.money.None?
    ensures MonthExpenses(Some([r] + rs)) == MonthExpenses(Some(rs))
  {
    assert ([r] + rs)[1..] == rs;
  }

  /** Two expenses of 1000,50 and 249,45 are shown as `1.249,95`. */
  lemma MonthExample(r1: Record, r2: Record)
    requires r1.money == Some(100050) && r2.money == Some(24945)
    ensures MonthExpenses(Some([r1, r2])).amount == "1.249,95"
  {
    var total := MoneyTotal([r1, r2]);
    assert total == 124995 by {
      assert MoneyOf(r1) == 100050 && MoneyOf(r2) == 24945;
      assert [r1, r2][1..] == [r2];
      assert [r2][1..] == [];
      assert MoneyTotal([r2]) == MoneyOf(r2) + MoneyTotal([]);
    }
    AmountParts(total);
    assert total / 100 == 1249 && total % 100 == 95;
    DigitsExample();
    GroupExample();
    CentsExample();
  }

  lemma DigitsExample()
    ensures Digits(1249) == "1249"
  {
  }

  lemma GroupExample()
    ensures Group("1249") == "1.249"
  {
    assert "1249"[..1] == "1" && "1249"[1..] == "249";
    assert Chunks("1249") == ["1", "249"];
  }

  lemma CentsExample()
    ensures "1.249" + [','] + TwoDigits(95) == "1.249,95"
  {
    assert TwoDigits(95) == "95";
  }
}
