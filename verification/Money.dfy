/** Amounts, ledger lines and the application's own balance check
    (libs/common/forgepay_common/money.py, services/payment_service/app/domain/ledger.py). */
module Money {

  datatype Option<+T> = None | Some(value: T)

  datatype Currency = PLN | EUR | USD

  datatype Direction = Debit | Credit

  /** Integer minor units; the request schemas and `Money` both demand a positive value. */
  type Minor = n: int | 0 < n witness 1

  datatype Amount = Amount(minor: Minor, currency: Currency)

  datatype AccountName = CustomerCash | MerchantReceivable | ProviderFunding

  datatype LedgerLine = LedgerLine(account: AccountName, direction: Direction, money: Amount)

  datatype BalanceCheck = Balanced | TooFewLines | CrossCurrency | Unbalanced

  /** What the lines on one side add up to. */
  function SideTotal(lines: seq<LedgerLine>, side: Direction): (total: nat)
  {
    if |lines| == 0 then 0
    else
      var last := lines[|lines| - 1];
      SideTotal(lines[..|lines| - 1], side) + (if last.direction == side then last.money.minor else 0)
  }

  lemma SideTotalSnoc(lines: seq<LedgerLine>, line: LedgerLine, side: Direction)
    ensures SideTotal(lines + [line], side)
         == SideTotal(lines, side) + (if line.direction == side then line.money.minor else 0)
  {
    assert (lines + [line])[..|lines|] == lines;
  }

  function Currencies(lines: seq<LedgerLine>): set<Currency>
  {
    set i | 0 <= i < |lines| :: lines[i].money.currency
  }

  function AssertBalanced(lines: seq<LedgerLine>): BalanceCheck
  {
    if |lines| < 2 then TooFewLines
    else if |Currencies(lines)| != 1 then CrossCurrency
    else if SideTotal(lines, Debit) != SideTotal(lines, Credit) then Unbalanced
    else Balanced
  }

  lemma OneCurrencyOnly(lines: seq<LedgerLine>)
    requires |lines| > 0
    ensures |Currencies(lines)| == 1
       <==> forall i :: 0 <= i < |lines| ==> lines[i].money.currency == lines[0].money.currency
  {
    var first := lines[0].money.currency;
    assert first in Currencies(lines);
    if |Currencies(lines)| == 1 {
      forall i | 0 <= i < |lines| ensures lines[i].money.currency == first
      {
        assert |Currencies(lines) - {first}| == 0;
        assert lines[i].money.currency in Currencies(lines);
      }
    }
    if forall i :: 0 <= i < |lines| ==> lines[i].money.currency == first {
      assert Currencies(lines) == {first};
    }
  }

  /** What the check takes, and which of its complaints comes first. */
  lemma BalancedExactly(lines: seq<LedgerLine>)
    ensures AssertBalanced(lines) == TooFewLines <==> |lines| < 2
    ensures AssertBalanced(lines) == CrossCurrency
       <==> |lines| >= 2 && exists i :: 0 <= i < |lines| && lines[i].money.currency != lines[0].money.currency
    ensures AssertBalanced(lines) == Balanced
       <==> |lines| >= 2 && SideTotal(lines, Debit) == SideTotal(lines, Credit)
            && forall i :: 0 <= i < |lines| ==> lines[i].money.currency == lines[0].money.currency
  {
    if |lines| > 0 { OneCurrencyOnly(lines); }
  }

  /** The shape every builder in domain/ledger.py returns: one debit and one credit of one amount. */
  function Movement(amount: Amount, debited: AccountName, credited: AccountName): seq<LedgerLine>
  {
    [LedgerLine(debited, Debit, amount), LedgerLine(credited, Credit, amount)]
  }

  /** The builders' own call of `assert_balanced` never raises. */
  lemma MovementBalances(amount: Amount, debited: AccountName, credited: AccountName)
    ensures AssertBalanced(Movement(amount, debited, credited)) == Balanced
  {
    var lines := Movement(amount, debited, credited);
    var d, c := lines[0], lines[1];
    assert lines == [d, c] && [d, c] == [d] + [c] && [d] == [] + [d];
    forall x | x in Currencies(lines) ensures x == amount.currency {}
    assert lines[0].money.currency in Currencies(lines);
    assert Currencies(lines) == {amount.currency};
    SideTotalSnoc([], d, Debit);
    SideTotalSnoc([], d, Credit);
    SideTotalSnoc([d], c, Debit);
    SideTotalSnoc([d], c, Credit);
  }

  function SimulatedFunding(amount: Amount): seq<LedgerLine>
  {
    Movement(amount, CustomerCash, ProviderFunding)
  }

  function CaptureLines(amount: Amount): seq<LedgerLine>
  {
    Movement(amount, MerchantReceivable, CustomerCash)
  }

  function RefundLines(amount: Amount): seq<LedgerLine>
  {
    Movement(amount, CustomerCash, MerchantReceivable)
  }
}
