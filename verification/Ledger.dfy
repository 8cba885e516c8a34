/** The journal tables, their sums, and the row triggers that guard them
    (alembic/versions/0002_harden_ledger_and_webhook_secrets.py). */
module Ledger {
  import opened Money

  datatype ReferenceKind = AccountFunding | PaymentCapture | PaymentRefund

  datatype Reference = Reference(kind: ReferenceKind, id: nat)

  /** A journal's primary key. The application draws a random one and never uses a reference twice,
      so its journals are keyed by the reference they were created with. */
  type JournalId = Reference

  /** A ledger account is identified by what `uq_ledger_account_owner_name_currency` makes unique. */
  datatype LedgerKey = LedgerKey(owner: nat, name: AccountName, currency: Currency)

  datatype JournalStatus = Draft | Posted

  datatype Journal = Journal(reference: Reference, currency: Currency, status: JournalStatus, postedAt: Option<nat>)

  datatype Entry = Entry(journal: JournalId, key: LedgerKey, direction: Direction, amount: Minor, currency: Currency)

  datatype Tables = Tables(journals: map<JournalId, Journal>, entries: seq<Entry>)

  // ---------------------------------------------------------------- sums over entries

  /** The sums that the SQL of the service, the trigger and the reconciliation job take over
      `journal_entries`, and the signed ones the conservation laws speak about. */
  datatype Measure =
    | KeySide(key: LedgerKey, side: Direction)
    | JournalSide(journal: JournalId, side: Direction)
    | WrongCurrency(journal: JournalId, currency: Currency)
    | Net(currency: Currency)
    | FundingInto(key: LedgerKey)
    | FundedFor(merchant: nat, customers: map<nat, nat>, currency: Currency)
    | Held(name: AccountName, merchant: nat, customers: map<nat, nat>, currency: Currency)

  function Signed(e: Entry): int
  {
    var amount: int := e.amount;
    if e.direction == Debit then amount else -amount
  }

  function Weight(m: Measure, e: Entry): int
  {
    match m
    case KeySide(key, side) => if e.key == key && e.direction == side then e.amount else 0
    case JournalSide(journal, side) => if e.journal == journal && e.direction == side then e.amount else 0
    case WrongCurrency(journal, currency) => if e.journal == journal && e.currency != currency then 1 else 0
    case Net(currency) => if e.currency == currency then Signed(e) else 0
    case FundingInto(key) => if e.key == key && e.journal.kind == AccountFunding then Signed(e) else 0
    case FundedFor(merchant, customers, currency) =>
      if e.journal.kind == AccountFunding && e.key.name == CustomerCash && e.key.currency == currency
        && BelongsTo(e.key, merchant, customers) then Signed(e) else 0
    case Held(name, merchant, customers, currency) =>
      if e.key.name == name && e.key.currency == currency && BelongsTo(e.key, merchant, customers) then Signed(e) else 0
  }

  predicate BelongsTo(key: LedgerKey, merchant: nat, customers: map<nat, nat>)
  {
    if key.name == CustomerCash then key.owner in customers && customers[key.owner] == merchant
    else key.owner == merchant
  }

  function Sum(entries: seq<Entry>, m: Measure): int
  {
    if |entries| == 0 then 0
    else Sum(entries[..|entries| - 1], m) + Weight(m, entries[|entries| - 1])
  }

  lemma {:induction false} SumAppend(a: seq<Entry>, b: seq<Entry>, m: Measure)
    ensures Sum(a + b, m) == Sum(a, m) + Sum(b, m)
    decreases |b|
  {
    if |b| == 0 {
      assert a + b == a;
    } else {
      assert (a + b)[..|a + b| - 1] == a + b[..|b| - 1];
      SumAppend(a, b[..|b| - 1], m);
    }
  }

  lemma SumPair(x: Entry, y: Entry, m: Measure)
    ensures Sum([x, y], m) == Weight(m, x) + Weight(m, y)
  {
    assert [x, y][..1] == [x];
    assert Sum([x], m) == Weight(m, x) by { assert [x][..0] == []; }
  }

  lemma {:induction false} SumNonNegative(entries: seq<Entry>, m: Measure)
    requires m.KeySide? || m.JournalSide? || m.WrongCurrency?
    ensures 0 <= Sum(entries, m)
  {
    if |entries| == 0 {
    } else {
      SumNonNegative(entries[..|entries| - 1], m);
    }
  }

  // ---------------------------------------------------------------- rows of one journal

  function RowsOf(entries: seq<Entry>, journal: JournalId): (rows: seq<Entry>)
  {
    if |entries| == 0 then []
    else
      var rest := RowsOf(entries[..|entries| - 1], journal);
      if entries[|entries| - 1].journal == journal then rest + [entries[|entries| - 1]] else rest
  }

  lemma {:induction false} RowsAppend(a: seq<Entry>, b: seq<Entry>, journal: JournalId)
    ensures RowsOf(a + b, journal) == RowsOf(a, journal) + RowsOf(b, journal)
    decreases |b|
  {
    if |b| == 0 {
      assert a + b == a;
    } else {
      assert (a + b)[..|a + b| - 1] == a + b[..|b| - 1];
      RowsAppend(a, b[..|b| - 1], journal);
    }
  }

  lemma RowsOne(e: Entry, journal: JournalId)
    ensures RowsOf([e], journal) == if e.journal == journal then [e] else []
  {
    assert [e][..0] == [];
  }

  /** A sum about one journal only looks at that journal's rows. */
  lemma {:induction false} SumOfRows(entries: seq<Entry>, m: Measure)
    requires m.JournalSide? || m.WrongCurrency?
    ensures Sum(entries, m) == Sum(RowsOf(entries, m.journal), m)
  {
    if |entries| == 0 {
    } else {
      var front, last := entries[..|entries| - 1], entries[|entries| - 1];
      SumOfRows(front, m);
      if last.journal == m.journal {
        assert (RowsOf(front, m.journal) + [last])[..|RowsOf(front, m.journal)|] == RowsOf(front, m.journal);
      }
    }
  }

  /** A journal id that no row mentions. */
  lemma {:induction false} NoRows(entries: seq<Entry>, id: JournalId)
    requires forall i :: 0 <= i < |entries| ==> entries[i].journal != id
    ensures RowsOf(entries, id) == []
  {
    if |entries| == 0 {
    } else {
      NoRows(entries[..|entries| - 1], id);
    }
  }
}
