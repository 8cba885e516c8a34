/** A merchant's two ledger accounts: what it may claim is what was captured from its payments less what was
    refunded, and what the provider advanced is what its customers' accounts were funded with
    (services/payment_service/app/domain/ledger.py, services/payment_service/app/service.py). */
module Books {
  import opened Money
  import opened Ledger
  import opened Database
  import opened Invariants
  import opened Totals

  /** Debits less credits of one ledger account. */
  function Position(entries: seq<Entry>, key: LedgerKey): int
  {
    Sum(entries, KeySide(key, Debit)) - Sum(entries, KeySide(key, Credit))
  }

  /** What a merchant's payments in a currency have brought it, less what went back, payment by payment. */
  ghost function Earned(payments: map<nat, Payment>, m: nat, currency: Currency): map<nat, int>
  {
    map p | p in payments && payments[p].merchant == m && payments[p].currency == currency
      :: payments[p].captured - payments[p].refunded
  }

  ghost predicate ReceivableOk(db: Db, m: nat, currency: Currency)
  {
    Position(db.ledger.entries, LedgerKey(m, MerchantReceivable, currency)) == Total(Earned(db.payments, m, currency))
  }

  predicate ProviderOk(db: Db, m: nat, currency: Currency)
  {
    Position(db.ledger.entries, LedgerKey(m, ProviderFunding, currency))
      == 0 - Sum(db.ledger.entries, FundedFor(m, db.customers, currency))
  }

  ghost predicate BooksOk(db: Db)
  {
    forall m, currency :: ReceivableOk(db, m, currency) && ProviderOk(db, m, currency)
  }

  /** What an accepted operation adds to a merchant's receivable, and takes from the provider's account. */
  function EarnedBy(db: Db, op: Op, m: nat, currency: Currency): int
    requires Writing(db, op)
  {
    if !Posts(op) || op.merchant != m || Moved(db, op).1.currency != currency then 0
    else if op.Capture? then Moved(db, op).1.minor
    else if op.Refund? then 0 - Moved(db, op).1.minor
    else 0
  }

  function FundedBy(db: Db, op: Op, m: nat, currency: Currency): int
    requires Writing(db, op)
  {
    if op.Fund? && op.merchant == m && Moved(db, op).1.currency == currency then Moved(db, op).1.minor else 0
  }

  /** What the two rows of a posting do to the merchant's two accounts. */
  lemma PostedPositions(op: Op, customer: nat, amount: Amount, m: nat, currency: Currency)
    requires Posts(op)
    ensures var rows := RowsPosted(op, customer, amount);
      var receivable, provider := LedgerKey(m, MerchantReceivable, currency), LedgerKey(m, ProviderFunding, currency);
      var mine := op.merchant == m && amount.currency == currency;
      && RowWeight(rows, KeySide(receivable, Debit)) == (if mine && op.Capture? then amount.minor else 0)
      && RowWeight(rows, KeySide(receivable, Credit)) == (if mine && op.Refund? then amount.minor else 0)
      && RowWeight(rows, KeySide(provider, Debit)) == 0
      && RowWeight(rows, KeySide(provider, Credit)) == (if mine && op.Fund? then amount.minor else 0)
  {
  }

  /** Captures debit the merchant's receivable, refunds credit it, and funding credits the provider's account. */
  lemma PositionAfter(db: Db, op: Op, m: nat, currency: Currency)
    requires Writing(db, op)
    ensures Position(After(db, op).ledger.entries, LedgerKey(m, MerchantReceivable, currency))
         == Position(db.ledger.entries, LedgerKey(m, MerchantReceivable, currency)) + EarnedBy(db, op, m, currency)
    ensures Position(After(db, op).ledger.entries, LedgerKey(m, ProviderFunding, currency))
         == Position(db.ledger.entries, LedgerKey(m, ProviderFunding, currency)) - FundedBy(db, op, m, currency)
  {
    SumAfter(db, op, KeySide(LedgerKey(m, MerchantReceivable, currency), Debit));
    SumAfter(db, op, KeySide(LedgerKey(m, MerchantReceivable, currency), Credit));
    SumAfter(db, op, KeySide(LedgerKey(m, ProviderFunding, currency), Debit));
    SumAfter(db, op, KeySide(LedgerKey(m, ProviderFunding, currency), Credit));
    if Posts(op) { PostedPositions(op, Moved(db, op).0, Moved(db, op).1, m, currency); }
  }

  lemma EarnedAfter(payments: map<nat, Payment>, p: nat, row: Payment, m: nat, currency: Currency)
    requires p in payments ==> payments[p].merchant == row.merchant && payments[p].currency == row.currency
    ensures Total(Earned(payments[p := row], m, currency))
         == Total(Earned(payments, m, currency))
            + (if row.merchant == m && row.currency == currency
               then row.captured - row.refunded
                 - (if p in payments then payments[p].captured - payments[p].refunded else 0)
               else 0)
  {
    if row.merchant == m && row.currency == currency {
      TotalUpdate(Earned(payments, m, currency), p, row.captured - row.refunded);
      assert Earned(payments[p := row], m, currency)
        == Earned(payments, m, currency)[p := row.captured - row.refunded];
    } else {
      assert Earned(payments[p := row], m, currency) == Earned(payments, m, currency);
    }
  }

  lemma ReceivableKept(db: Db, op: Op, m: nat, currency: Currency)
    requires PaymentsOk(db) && ReceivableOk(db, m, currency) && Writing(db, op)
    ensures ReceivableOk(After(db, op), m, currency)
  {
    PositionAfter(db, op, m, currency);
    PaymentsAfter(db, op);
    if !op.Fund? {
      RowTakes(db, op);
      RowLeftOk(db, op);
      EarnedAfter(db.payments, PaymentId(op), RowLeft(db, op), m, currency);
    }
  }

  lemma PostedFunding(op: Op, customer: nat, amount: Amount, m: nat, customers: map<nat, nat>, currency: Currency)
    requires Posts(op) && customer in customers && customers[customer] == op.merchant
    ensures RowWeight(RowsPosted(op, customer, amount), FundedFor(m, customers, currency))
         == if op.Fund? && op.merchant == m && amount.currency == currency then amount.minor else 0
  {
  }

  lemma ProviderKept(db: Db, op: Op, m: nat, currency: Currency)
    requires PaymentsOk(db) && ProviderOk(db, m, currency) && Writing(db, op)
    ensures ProviderOk(After(db, op), m, currency)
  {
    PositionAfter(db, op, m, currency);
    PaymentsAfter(db, op);
    SumAfter(db, op, FundedFor(m, db.customers, currency));
    if Posts(op) {
      MovedCustomer(db, op);
      PostedFunding(op, Moved(db, op).0, Moved(db, op).1, m, db.customers, currency);
    }
  }

  lemma BooksKept(db: Db, op: Op)
    requires PaymentsOk(db) && BooksOk(db)
    ensures BooksOk(After(db, op))
  {
    if Writing(db, op) {
      forall m, currency ensures ReceivableOk(After(db, op), m, currency) && ProviderOk(After(db, op), m, currency)
      {
        assert ReceivableOk(db, m, currency) && ProviderOk(db, m, currency);
        ReceivableKept(db, op, m, currency);
        ProviderKept(db, op, m, currency);
      }
    } else {
      NothingAfter(db, op);
    }
  }

  /** What a merchant's customers hold is what they were funded with, less what its payments have earned it. */
  lemma CustomersHold(db: Db, m: nat, currency: Currency)
    requires ConservationOk(db)
    ensures Sum(db.ledger.entries, Held(CustomerCash, m, db.customers, currency))
         == 0 - Position(db.ledger.entries, LedgerKey(m, ProviderFunding, currency))
           - Position(db.ledger.entries, LedgerKey(m, MerchantReceivable, currency))
  {
    assert MerchantBalanced(db, m, currency);
    HeldIsPosition(db.ledger.entries, m, MerchantReceivable, db.customers, currency);
    HeldIsPosition(db.ledger.entries, m, ProviderFunding, db.customers, currency);
  }

  /** A merchant holds one account under each of its two names. */
  lemma {:induction false} HeldIsPosition(entries: seq<Entry>, m: nat, name: AccountName, customers: map<nat, nat>,
    currency: Currency)
    requires name != CustomerCash
    ensures Sum(entries, Held(name, m, customers, currency)) == Position(entries, LedgerKey(m, name, currency))
  {
    if |entries| == 0 {
    } else {
      HeldIsPosition(entries[..|entries| - 1], m, name, customers, currency);
    }
  }
}
