/** The rows `create_journal` writes for a list of ledger lines, and why the application's balance
    check and the database's deferred trigger are the same check on them
    (services/payment_service/app/infra/repositories.py:145-176). */
module Posting {
  import opened Money
  import opened Ledger
  import opened Triggers

  function RowFor(id: JournalId, accounts: map<AccountName, LedgerKey>, line: LedgerLine): Entry
    requires line.account in accounts
  {
    Entry(id, accounts[line.account], line.direction, line.money.minor, line.money.currency)
  }

  predicate Named(accounts: map<AccountName, LedgerKey>, lines: seq<LedgerLine>)
  {
    forall i :: 0 <= i < |lines| ==> lines[i].account in accounts
  }

  function RowsFor(id: JournalId, accounts: map<AccountName, LedgerKey>, lines: seq<LedgerLine>): (rows: seq<Entry>)
    requires Named(accounts, lines)
    ensures |rows| == |lines|
    ensures forall i :: 0 <= i < |rows| ==> rows[i] == RowFor(id, accounts, lines[i])
  {
    seq(|lines|, i requires 0 <= i < |lines| => RowFor(id, accounts, lines[i]))
  }

  /** The rows' sums are the lines' sums. */
  lemma {:induction false} RowSums(id: JournalId, accounts: map<AccountName, LedgerKey>, lines: seq<LedgerLine>,
    side: Direction)
    requires Named(accounts, lines)
    ensures Sum(RowsFor(id, accounts, lines), JournalSide(id, side)) == SideTotal(lines, side)
  {
    if |lines| == 0 {
    } else {
      var front := lines[..|lines| - 1];
      assert RowsFor(id, accounts, lines)[..|front|] == RowsFor(id, accounts, front);
      RowSums(id, accounts, front, side);
    }
  }

  lemma {:induction false} RowCurrencies(id: JournalId, accounts: map<AccountName, LedgerKey>,
    lines: seq<LedgerLine>, currency: Currency)
    requires Named(accounts, lines)
    ensures Sum(RowsFor(id, accounts, lines), WrongCurrency(id, currency)) == 0
       <==> (forall i :: 0 <= i < |lines| ==> lines[i].money.currency == currency)
  {
    if |lines| == 0 {
    } else {
      var front := lines[..|lines| - 1];
      assert RowsFor(id, accounts, lines)[..|front|] == RowsFor(id, accounts, front);
      RowCurrencies(id, accounts, front, currency);
      SumNonNegative(RowsFor(id, accounts, front), WrongCurrency(id, currency));
    }
  }

  lemma OneCurrency(lines: seq<LedgerLine>, currency: Currency)
    requires |lines| > 0
    ensures Currencies(lines) == {currency} <==> (forall i :: 0 <= i < |lines| ==> lines[i].money.currency == currency)
  {
    assert lines[0].money.currency in Currencies(lines);
    if Currencies(lines) == {currency} {
      forall i | 0 <= i < |lines| ensures lines[i].money.currency == currency {
        assert lines[i].money.currency in Currencies(lines);
      }
    }
  }

  lemma SingletonCurrencies(lines: seq<LedgerLine>, currency: Currency)
    requires currency in Currencies(lines)
    ensures |Currencies(lines)| == 1 <==> Currencies(lines) == {currency}
  {
    if |Currencies(lines)| == 1 {
      assert |Currencies(lines) - {currency}| == 0;
      assert Currencies(lines) == {currency};
    }
  }

  /** The two balance checks agree: for a journal that has no rows yet, the rows written for the lines
      satisfy the deferred trigger exactly when `assert_balanced` takes the lines and their one
      currency is the journal's. Acceptance therefore also forces two lines. */
  lemma CheckersAgree(entries: seq<Entry>, id: JournalId, accounts: map<AccountName, LedgerKey>,
                      lines: seq<LedgerLine>, currency: Currency)
    requires Named(accounts, lines)
    requires RowsOf(entries, id) == []
    ensures Accepts(entries + RowsFor(id, accounts, lines), id, currency)
       <==> AssertBalanced(lines) == Balanced && Currencies(lines) == {currency}
  {
    var rows := RowsFor(id, accounts, lines);
    FreshSums(entries, rows, id, currency);
    RowSums(id, accounts, lines, Debit);
    RowSums(id, accounts, lines, Credit);
    RowCurrencies(id, accounts, lines, currency);
    if |lines| == 1 {
      assert lines[..0] == [] && SideTotal([], Debit) == SideTotal([], Credit) == 0;
    } else if |lines| > 1 {
      OneCurrency(lines, currency);
      if currency in Currencies(lines) {
        SingletonCurrencies(lines, currency);
      }
      SomeSidePositive(lines);
    }
  }

  lemma FreshSums(entries: seq<Entry>, rows: seq<Entry>, id: JournalId, currency: Currency)
    requires RowsOf(entries, id) == []
    ensures Sum(entries + rows, JournalSide(id, Debit)) == Sum(rows, JournalSide(id, Debit))
    ensures Sum(entries + rows, JournalSide(id, Credit)) == Sum(rows, JournalSide(id, Credit))
    ensures Sum(entries + rows, WrongCurrency(id, currency)) == Sum(rows, WrongCurrency(id, currency))
  {
    SumAppend(entries, rows, JournalSide(id, Debit));
    SumAppend(entries, rows, JournalSide(id, Credit));
    SumAppend(entries, rows, WrongCurrency(id, currency));
    SumOfRows(entries, JournalSide(id, Debit));
    SumOfRows(entries, JournalSide(id, Credit));
    SumOfRows(entries, WrongCurrency(id, currency));
  }

  lemma SomeSidePositive(lines: seq<LedgerLine>)
    requires |lines| > 0
    ensures SideTotal(lines, Debit) > 0 || SideTotal(lines, Credit) > 0
  {
    assert lines[|lines| - 1].direction == Debit || lines[|lines| - 1].direction == Credit;
  }
}
