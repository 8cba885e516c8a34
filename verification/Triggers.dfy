/** Statements against `journals` and `journal_entries` as the database accepts them: the constraints
    of the tables, the immediate trigger `prevent_posted_journal_mutation` and the deferred one
    `enforce_posted_journal_balances`
    (alembic/versions/0002_harden_ledger_and_webhook_secrets.py). */
module Triggers {
  import opened Money
  import opened Ledger

  /** An entry is addressed by its position among the rows. `setsStatus` says whether the UPDATE's
      column list names `status`, which is what queues the deferred trigger. */
  datatype Statement =
    | InsertJournal(id: JournalId, row: Journal)
    | UpdateJournal(id: JournalId, row: Journal, setsStatus: bool)
    | DeleteJournal(id: JournalId)
    | InsertEntry(entry: Entry)
    | UpdateEntry(position: nat, entry: Entry)
    | DeleteEntry(position: nat)

  /** A transaction at work: the tables as it sees them, and one queued deferred trigger call
      for each journal row event, holding the row's new version. */
  datatype Work = Work(tables: Tables, queue: seq<(JournalId, Journal)>)

  datatype Executed = Accepted(work: Work) | Raised

  predicate IsPosted(tables: Tables, id: JournalId)
  {
    id in tables.journals && tables.journals[id].status == Posted
  }

  predicate ReferenceTaken(tables: Tables, id: JournalId, reference: Reference)
  {
    exists other :: other in tables.journals && other != id && tables.journals[other].reference == reference
  }

  /** One statement under the constraints and the immediate trigger. The trigger returns NEW for a
      DELETE on `journals`, which is null there, so deleting a draft is silently skipped. */
  function Execute(work: Work, statement: Statement): Executed
  {
    var journals, entries := work.tables.journals, work.tables.entries;
    match statement
    case InsertJournal(id, row) =>
      if id in journals || ReferenceTaken(work.tables, id, row.reference) then Raised
      else Accepted(Work(Tables(journals[id := row], entries), work.queue + [(id, row)]))
    case UpdateJournal(id, row, setsStatus) =>
      if id !in journals then Accepted(work)
      else if IsPosted(work.tables, id) && row != journals[id] then Raised
      else if !setsStatus && row.status != journals[id].status then Raised
      else if ReferenceTaken(work.tables, id, row.reference) then Raised
      else Accepted(Work(Tables(journals[id := row], entries), if setsStatus then work.queue + [(id, row)]
        else work.queue))
    case DeleteJournal(id) =>
      if IsPosted(work.tables, id) then Raised else Accepted(work)
    case InsertEntry(entry) =>
      if entry.journal !in journals || IsPosted(work.tables, entry.journal) then Raised
      else Accepted(Work(Tables(journals, entries + [entry]), work.queue))
    case UpdateEntry(position, entry) =>
      if position >= |entries| then Accepted(work)
      else if entry.journal !in journals || IsPosted(work.tables, entry.journal) then Raised
      else Accepted(Work(Tables(journals, entries[position := entry]), work.queue))
    case DeleteEntry(position) =>
      if position >= |entries| then Accepted(work)
      else if IsPosted(work.tables, entries[position].journal) then Raised
      else Accepted(Work(Tables(journals, entries[..position] + entries[position + 1..]), work.queue))
  }

  /** What the deferred trigger demands of a journal row that says POSTED. */
  predicate Accepts(entries: seq<Entry>, id: JournalId, currency: Currency)
  {
    var debit, credit := Sum(entries, JournalSide(id, Debit)), Sum(entries, JournalSide(id, Credit));
    && !(debit == 0 && credit == 0)
    && debit == credit
    && Sum(entries, WrongCurrency(id, currency)) == 0
  }

  predicate Passes(entries: seq<Entry>, check: (JournalId, Journal))
  {
    check.1.status == Posted ==> Accepts(entries, check.0, check.1.currency)
  }

  predicate AllPass(work: Work)
  {
    forall i :: 0 <= i < |work.queue| ==> Passes(work.tables.entries, work.queue[i])
  }

  /** The statements of a transaction in turn; the first one that raises aborts it. */
  function RunAll(work: Work, statements: seq<Statement>): Executed
    decreases |statements|
  {
    if |statements| == 0 then Accepted(work)
    else match Execute(work, statements[0])
      case Raised => Raised
      case Accepted(next) => RunAll(next, statements[1..])
  }

  predicate Commits(tables: Tables, statements: seq<Statement>)
  {
    var run := RunAll(Work(tables, []), statements);
    run.Accepted? && AllPass(run.work)
  }

  /** The committed tables after a transaction, which leaves no trace when it aborts. */
  function Committed(tables: Tables, statements: seq<Statement>): Tables
  {
    if Commits(tables, statements) then RunAll(Work(tables, []), statements).work.tables else tables
  }

  function History(tables: Tables, transactions: seq<seq<Statement>>): Tables
    decreases |transactions|
  {
    if |transactions| == 0 then tables
    else History(Committed(tables, transactions[0]), transactions[1..])
  }

  // ---------------------------------------------------------------- what posting promises

  /** Every POSTED journal is non-empty, balanced and of one currency. */
  ghost predicate Sound(tables: Tables)
  {
    forall id :: IsPosted(tables, id) ==> Accepts(tables.entries, id, tables.journals[id].currency)
  }

  /** A journal that was POSTED keeps its row and its entries. */
  predicate Frozen(before: Tables, after: Tables, id: JournalId)
  {
    && id in before.journals && id in after.journals
    && after.journals[id] == before.journals[id]
    && RowsOf(after.entries, id) == RowsOf(before.entries, id)
  }

  /** The one thing the entry trigger does not look at: an UPDATE that takes an entry away from a
      journal in `posted`, since only the new `journal_id` is checked. */
  predicate TakesFrom(work: Work, statement: Statement, posted: set<JournalId>)
  {
    && statement.UpdateEntry?
    && statement.position < |work.tables.entries|
    && work.tables.entries[statement.position].journal in posted
    && statement.entry.journal != work.tables.entries[statement.position].journal
  }

  predicate NeverTakes(work: Work, statements: seq<Statement>, posted: set<JournalId>)
    decreases |statements|
  {
    |statements| == 0 ||
    (!TakesFrom(work, statements[0], posted) &&
     (var next := Execute(work, statements[0]); next.Accepted? ==> NeverTakes(next.work, statements[1..], posted)))
  }

  function PostedIn(tables: Tables): set<JournalId>
  {
    set id | id in tables.journals && IsPosted(tables, id)
  }

  // ---------------------------------------------------------------- one statement

  lemma RowsReplaced(entries: seq<Entry>, position: nat, with_: seq<Entry>, id: JournalId)
    requires position < |entries|
    ensures RowsOf(entries[..position] + with_ + entries[position + 1..], id)
         == RowsOf(entries[..position], id) + RowsOf(with_, id) + RowsOf(entries[position + 1..], id)
    ensures RowsOf(entries, id)
         == RowsOf(entries[..position], id)
            + (if entries[position].journal == id then [entries[position]] else [])
            + RowsOf(entries[position + 1..], id)
  {
    RowsAppend(entries[..position], with_, id);
    RowsAppend(entries[..position] + with_, entries[position + 1..], id);
    assert entries == entries[..position] + [entries[position]] + entries[position + 1..];
    RowsAppend(entries[..position], [entries[position]], id);
    RowsAppend(entries[..position] + [entries[position]], entries[position + 1..], id);
    RowsOne(entries[position], id);
  }

  lemma RowsUnderUpdate(entries: seq<Entry>, position: nat, entry: Entry, id: JournalId)
    requires position < |entries|
    ensures entry.journal != id && entries[position].journal == id ==>
      |RowsOf(entries[position := entry], id)| < |RowsOf(entries, id)|
    ensures entry.journal != id && entries[position].journal != id ==>
      RowsOf(entries[position := entry], id) == RowsOf(entries, id)
  {
    RowsReplaced(entries, position, [entry], id);
    RowsOne(entry, id);
    assert entries[position := entry] == entries[..position] + [entry] + entries[position + 1..];
  }

  lemma RowsUnderDelete(entries: seq<Entry>, position: nat, id: JournalId)
    requires position < |entries| && entries[position].journal != id
    ensures RowsOf(entries[..position] + entries[position + 1..], id) == RowsOf(entries, id)
  {
    RowsReplaced(entries, position, [], id);
    assert entries[..position] + [] + entries[position + 1..] == entries[..position] + entries[position + 1..];
  }

  /** Statements on journals leave all entries and every POSTED journal's row alone. */
  lemma EntriesUntouched(work: Work, statement: Statement, id: JournalId)
    requires IsPosted(work.tables, id) && Execute(work, statement).Accepted?
    requires statement.InsertJournal? || statement.UpdateJournal? || statement.DeleteJournal?
    ensures var after := Execute(work, statement).work.tables;
      && after.entries == work.tables.entries
      && id in after.journals && after.journals[id] == work.tables.journals[id]
  {
  }

  /** The fate of a POSTED journal's rows under one accepted statement: untouched, or one fewer
      because an entry was taken away. */
  lemma RowsUnderStatement(work: Work, statement: Statement, id: JournalId)
    requires IsPosted(work.tables, id)
    requires Execute(work, statement).Accepted?
    ensures var after := Execute(work, statement).work.tables;
      && id in after.journals && after.journals[id] == work.tables.journals[id]
      && (TakesFrom(work, statement, {id}) ==> |RowsOf(after.entries, id)| < |RowsOf(work.tables.entries, id)|)
      && (!TakesFrom(work, statement, {id}) ==> RowsOf(after.entries, id) == RowsOf(work.tables.entries, id))
  {
    var entries := work.tables.entries;
    match statement
    case InsertEntry(entry) =>
      RowsAppend(entries, [entry], id);
      RowsOne(entry, id);
    case UpdateEntry(position, entry) =>
      if position < |entries| { RowsUnderUpdate(entries, position, entry, id); }
    case DeleteEntry(position) =>
      if position < |entries| { RowsUnderDelete(entries, position, id); }
    case _ => EntriesUntouched(work, statement, id);
  }

  // ---------------------------------------------------------------- one transaction

  /** Over the statements of a transaction the rows of a POSTED journal never grow, and they stay
      the same exactly when no statement takes one of them away. */
  lemma {:induction false} RowsUnderTransaction(work: Work, statements: seq<Statement>, id: JournalId)
    requires IsPosted(work.tables, id)
    requires RunAll(work, statements).Accepted?
    ensures var after := RunAll(work, statements).work.tables;
      && id in after.journals && after.journals[id] == work.tables.journals[id]
      && |RowsOf(after.entries, id)| <= |RowsOf(work.tables.entries, id)|
      && (RowsOf(after.entries, id) == RowsOf(work.tables.entries, id) <==> NeverTakes(work, statements, {id}))
      && (|RowsOf(after.entries, id)| == |RowsOf(work.tables.entries, id)| ==> NeverTakes(work, statements, {id}))
    decreases |statements|
  {
    if |statements| == 0 {
    } else {
      RowsUnderStatement(work, statements[0], id);
      RowsUnderTransaction(Execute(work, statements[0]).work, statements[1..], id);
    }
  }

  /** A journal POSTED at the end was POSTED at the start, or has a queued check for the very row it ends with. */
  ghost predicate Accounted(work: Work, posted: set<JournalId>)
  {
    forall id :: IsPosted(work.tables, id) ==> id in posted || (id, work.tables.journals[id]) in work.queue
  }

  lemma {:induction false} PostingsAreQueued(work: Work, statements: seq<Statement>, posted: set<JournalId>)
    requires Accounted(work, posted)
    requires RunAll(work, statements).Accepted?
    ensures Accounted(RunAll(work, statements).work, posted)
    decreases |statements|
  {
    if |statements| == 0 {
    } else {
      var next := Execute(work, statements[0]).work;
      forall id | IsPosted(next.tables, id)
        ensures id in posted || (id, next.tables.journals[id]) in next.queue
      {
        if IsPosted(work.tables, id) && id !in posted {
          assert next.tables.journals[id] == work.tables.journals[id];
          assert (id, work.tables.journals[id]) in work.queue;
        }
      }
      PostingsAreQueued(next, statements[1..], posted);
    }
  }

  lemma {:induction false} NeverTakesEach(work: Work, statements: seq<Statement>, posted: set<JournalId>, id: JournalId)
    requires NeverTakes(work, statements, posted) && id in posted
    ensures NeverTakes(work, statements, {id})
    decreases |statements|
  {
    if |statements| == 0 || Execute(work, statements[0]).Raised? {
    } else {
      NeverTakesEach(Execute(work, statements[0]).work, statements[1..], posted, id);
    }
  }

  lemma SameRowsSameVerdict(before: seq<Entry>, after: seq<Entry>, id: JournalId, currency: Currency)
    requires RowsOf(before, id) == RowsOf(after, id)
    ensures Accepts(before, id, currency) == Accepts(after, id, currency)
  {
    SumOfRows(before, JournalSide(id, Debit));
    SumOfRows(after, JournalSide(id, Debit));
    SumOfRows(before, JournalSide(id, Credit));
    SumOfRows(after, JournalSide(id, Credit));
    SumOfRows(before, WrongCurrency(id, currency));
    SumOfRows(after, WrongCurrency(id, currency));
  }

  /** A transaction keeps every POSTED journal frozen exactly when it never moves an entry out of one. */
  lemma FrozenExactly(tables: Tables, statements: seq<Statement>)
    requires Commits(tables, statements)
    ensures (forall id :: IsPosted(tables, id) ==> Frozen(tables, Committed(tables, statements), id))
       <==> (forall id :: IsPosted(tables, id) ==> NeverTakes(Work(tables, []), statements, {id}))
  {
    forall id | IsPosted(tables, id)
      ensures Frozen(tables, Committed(tables, statements), id) <==> NeverTakes(Work(tables, []), statements, {id})
    {
      RowsUnderTransaction(Work(tables, []), statements, id);
    }
  }

  lemma TransactionKeepsSound(tables: Tables, statements: seq<Statement>)
    requires Sound(tables)
    requires NeverTakes(Work(tables, []), statements, PostedIn(tables))
    ensures Sound(Committed(tables, statements))
    ensures forall id :: IsPosted(tables, id) ==> Frozen(tables, Committed(tables, statements), id)
  {
    if Commits(tables, statements) {
      var work := Work(tables, []);
      var after := RunAll(work, statements).work;
      PostingsAreQueued(work, statements, PostedIn(tables));
      forall id | IsPosted(tables, id)
        ensures Frozen(tables, after.tables, id)
          && Accepts(after.tables.entries, id, after.tables.journals[id].currency)
      {
        NeverTakesEach(work, statements, PostedIn(tables), id);
        RowsUnderTransaction(work, statements, id);
        SameRowsSameVerdict(tables.entries, after.tables.entries, id, tables.journals[id].currency);
      }
      forall id | IsPosted(after.tables, id)
        ensures Accepts(after.tables.entries, id, after.tables.journals[id].currency)
      {
        if id !in PostedIn(tables) {
          var i :| 0 <= i < |after.queue| && after.queue[i] == (id, after.tables.journals[id]);
          assert Passes(after.tables.entries, after.queue[i]);
        }
      }
    }
  }

  // ---------------------------------------------------------------- what is refused, and what is skipped

  /** Exactly these statements raise: those that change or delete the row of a POSTED journal, give it an entry or
      delete one of its entries, and those that break a key, a reference or the UPDATE's own column list. */
  lemma RaisesExactly(work: Work, statement: Statement)
    ensures var journals, entries := work.tables.journals, work.tables.entries;
      Execute(work, statement).Raised? <==>
        match statement
        case InsertJournal(id, row) =>
          id in journals || exists j :: j in journals && j != id && journals[j].reference == row.reference
        case UpdateJournal(id, row, setsStatus) =>
          id in journals
            && ((journals[id].status == Posted && row != journals[id])
              || (!setsStatus && row.status != journals[id].status)
              || exists j :: j in journals && j != id && journals[j].reference == row.reference)
        case DeleteJournal(id) => id in journals && journals[id].status == Posted
        case InsertEntry(entry) => entry.journal !in journals || journals[entry.journal].status == Posted
        case UpdateEntry(position, entry) =>
          position < |entries| && (entry.journal !in journals || journals[entry.journal].status == Posted)
        case DeleteEntry(position) =>
          position < |entries| && entries[position].journal in journals
            && journals[entries[position].journal].status == Posted
  {
  }

  lemma {:induction false} NoWrongCurrency(entries: seq<Entry>, id: JournalId, currency: Currency)
    ensures Sum(entries, WrongCurrency(id, currency)) == 0
       <==> forall k :: 0 <= k < |entries| && entries[k].journal == id ==> entries[k].currency == currency
  {
    if |entries| == 0 {
    } else {
      var front := entries[..|entries| - 1];
      NoWrongCurrency(front, id, currency);
      SumNonNegative(front, WrongCurrency(id, currency));
      assert forall k :: 0 <= k < |front| ==> front[k] == entries[k];
    }
  }

  /** What the deferred calls let through: for each queued row that says POSTED, equal sides that are not zero, and no
      entry of another currency; a queued draft always. */
  lemma PassesExactly(work: Work)
    ensures AllPass(work) <==>
      forall i :: 0 <= i < |work.queue| && work.queue[i].1.status == Posted ==>
        && Sum(work.tables.entries, JournalSide(work.queue[i].0, Debit))
           == Sum(work.tables.entries, JournalSide(work.queue[i].0, Credit)) > 0
        && forall k :: 0 <= k < |work.tables.entries| && work.tables.entries[k].journal == work.queue[i].0 ==>
          work.tables.entries[k].currency == work.queue[i].1.currency
  {
    forall i | 0 <= i < |work.queue|
      ensures Accepts(work.tables.entries, work.queue[i].0, work.queue[i].1.currency) <==>
        && Sum(work.tables.entries, JournalSide(work.queue[i].0, Debit))
           == Sum(work.tables.entries, JournalSide(work.queue[i].0, Credit)) > 0
        && forall k :: 0 <= k < |work.tables.entries| && work.tables.entries[k].journal == work.queue[i].0 ==>
          work.tables.entries[k].currency == work.queue[i].1.currency
    {
      NoWrongCurrency(work.tables.entries, work.queue[i].0, work.queue[i].1.currency);
      SumNonNegative(work.tables.entries, JournalSide(work.queue[i].0, Debit));
    }
  }

  lemma {:induction false} RunKeepsJournals(work: Work, statements: seq<Statement>)
    requires RunAll(work, statements).Accepted?
    ensures work.tables.journals.Keys <= RunAll(work, statements).work.tables.journals.Keys
    decreases |statements|
  {
    if |statements| == 0 {
    } else {
      RunKeepsJournals(Execute(work, statements[0]).work, statements[1..]);
    }
  }

  /** No journal is ever deleted, not even a draft: the trigger refuses the DELETE of a POSTED journal and makes that of
      a draft skip its row. */
  lemma {:induction false} JournalsStay(tables: Tables, transactions: seq<seq<Statement>>, id: JournalId)
    requires id in tables.journals
    ensures id in History(tables, transactions).journals
    ensures Commits(tables, [DeleteJournal(id)]) <==> tables.journals[id].status == Draft
    decreases |transactions|
  {
    assert [DeleteJournal(id)][1..] == [];
    if tables.journals[id].status == Draft {
      assert Execute(Work(tables, []), DeleteJournal(id)) == Accepted(Work(tables, []));
      assert RunAll(Work(tables, []), []) == Accepted(Work(tables, []));
    }
    if |transactions| == 0 {
    } else {
      if Commits(tables, transactions[0]) { RunKeepsJournals(Work(tables, []), transactions[0]); }
      JournalsStay(Committed(tables, transactions[0]), transactions[1..], id);
    }
  }

  // ---------------------------------------------------------------- only from DRAFT

  /** The foreign key of the entries. */
  predicate Referential(tables: Tables)
  {
    forall i :: 0 <= i < |tables.entries| ==> tables.entries[i].journal in tables.journals
  }

  lemma StatementKeepsReferential(work: Work, statement: Statement)
    requires Referential(work.tables) && Execute(work, statement).Accepted?
    ensures Referential(Execute(work, statement).work.tables)
    ensures work.queue <= Execute(work, statement).work.queue
  {
  }

  lemma {:induction false} RunKeepsReferential(work: Work, statements: seq<Statement>)
    requires Referential(work.tables) && RunAll(work, statements).Accepted?
    ensures Referential(RunAll(work, statements).work.tables)
    ensures work.queue <= RunAll(work, statements).work.queue
    decreases |statements|
  {
    if |statements| == 0 {
    } else {
      StatementKeepsReferential(work, statements[0]);
      RunKeepsReferential(Execute(work, statements[0]).work, statements[1..]);
    }
  }

  predicate InsertsPosted(statement: Statement) { statement.InsertJournal? && statement.row.status == Posted }

  /** A journal inserted as POSTED has no entries, can get none, and fails its deferred check. */
  lemma PostedInsertFails(work: Work, statements: seq<Statement>)
    requires Referential(work.tables) && RunAll(work, statements).Accepted?
    requires |statements| > 0 && InsertsPosted(statements[0])
    ensures !AllPass(RunAll(work, statements).work)
  {
    var id, row := statements[0].id, statements[0].row;
    var next := Execute(work, statements[0]).work;
    var after := RunAll(work, statements).work;
    NoRows(next.tables.entries, id);
    StatementKeepsReferential(work, statements[0]);
    RowsUnderTransaction(next, statements[1..], id);
    RunKeepsReferential(next, statements[1..]);
    SumOfRows(after.tables.entries, JournalSide(id, Debit));
    SumOfRows(after.tables.entries, JournalSide(id, Credit));
    assert !Accepts(after.tables.entries, id, row.currency);
    assert after.queue[|work.queue|] == next.queue[|work.queue|] == (id, row);
    assert !Passes(after.tables.entries, after.queue[|work.queue|]);
  }

  /** No transaction that inserts a POSTED journal commits. */
  lemma {:induction false} NoPostedInsert(work: Work, statements: seq<Statement>, i: nat)
    requires Referential(work.tables) && RunAll(work, statements).Accepted?
    requires i < |statements| && InsertsPosted(statements[i])
    ensures !AllPass(RunAll(work, statements).work)
    decreases i
  {
    if i == 0 {
      PostedInsertFails(work, statements);
    } else {
      StatementKeepsReferential(work, statements[0]);
      NoPostedInsert(Execute(work, statements[0]).work, statements[1..], i - 1);
    }
  }

  /** The `j`-th statement makes a POSTED journal of what was a DRAFT just before it. */
  predicate PostsDraft(work: Work, statements: seq<Statement>, j: nat, id: JournalId)
  {
    && j < |statements| && RunAll(work, statements[..j]).Accepted?
    && (var before := RunAll(work, statements[..j]).work.tables.journals; id in before && before[id].status == Draft)
    && statements[j].UpdateJournal? && statements[j].id == id && statements[j].row.status == Posted
  }

  /** A journal that is POSTED after a transaction and was not before became so from DRAFT, within it. */
  lemma {:induction false} PostedFromDraft(work: Work, statements: seq<Statement>, id: JournalId) returns (j: nat)
    requires Referential(work.tables) && RunAll(work, statements).Accepted? && AllPass(RunAll(work, statements).work)
    requires !IsPosted(work.tables, id) && IsPosted(RunAll(work, statements).work.tables, id)
    ensures PostsDraft(work, statements, j, id)
    decreases |statements|
  {
    var next := Execute(work, statements[0]).work;
    StatementKeepsReferential(work, statements[0]);
    if IsPosted(next.tables, id) {
      if InsertsPosted(statements[0]) { PostedInsertFails(work, statements); }
      j := 0;
    } else {
      var k := PostedFromDraft(next, statements[1..], id);
      j := k + 1;
      assert statements[..j][1..] == statements[1..][..k];
    }
  }

  /** The `j`-th statement of the `t`-th transaction, which commits, posts a draft. */
  predicate PostsDraftIn(tables: Tables, transactions: seq<seq<Statement>>, t: nat, j: nat, id: JournalId)
  {
    && t < |transactions|
    && Commits(History(tables, transactions[..t]), transactions[t])
    && PostsDraft(Work(History(tables, transactions[..t]), []), transactions[t], j, id)
  }

  /** Over any sequence of transactions, a journal becomes POSTED only by a statement that finds it DRAFT. */
  lemma {:induction false} PostedOnlyFromDraft(tables: Tables, transactions: seq<seq<Statement>>, id: JournalId)
    returns (t: nat, j: nat)
    requires Referential(tables) && !IsPosted(tables, id) && IsPosted(History(tables, transactions), id)
    ensures PostsDraftIn(tables, transactions, t, j, id)
    decreases |transactions|
  {
    var next := Committed(tables, transactions[0]);
    if IsPosted(next, id) {
      t := 0;
      j := PostedFromDraft(Work(tables, []), transactions[0], id);
      assert transactions[..0] == [];
    } else {
      if Commits(tables, transactions[0]) { RunKeepsReferential(Work(tables, []), transactions[0]); }
      var u;
      u, j := PostedOnlyFromDraft(next, transactions[1..], id);
      t := u + 1;
      assert transactions[..t][1..] == transactions[1..][..u];
    }
  }

  // ---------------------------------------------------------------- every sequence of transactions

  predicate HistoryNeverTakes(tables: Tables, transactions: seq<seq<Statement>>)
    decreases |transactions|
  {
    |transactions| == 0 ||
    (NeverTakes(Work(tables, []), transactions[0], PostedIn(tables)) &&
     HistoryNeverTakes(Committed(tables, transactions[0]), transactions[1..]))
  }

  /** Posted journals are sound forever: over any number of transactions that never move an entry out
      of a journal already POSTED, whatever else they try, all POSTED journals stay balanced,
      each keeps its row and its entries, and each new one was posted by a statement that found it DRAFT. */
  lemma {:induction false} PostedForever(tables: Tables, transactions: seq<seq<Statement>>)
    requires Sound(tables)
    requires HistoryNeverTakes(tables, transactions)
    ensures Sound(History(tables, transactions))
    ensures forall id :: IsPosted(tables, id) ==> Frozen(tables, History(tables, transactions), id)
    ensures Referential(tables) ==>
      forall id :: IsPosted(History(tables, transactions), id) && !IsPosted(tables, id) ==>
      exists t: nat, j: nat :: PostsDraftIn(tables, transactions, t, j, id)
    decreases |transactions|
  {
    if Referential(tables) {
      forall id | IsPosted(History(tables, transactions), id) && !IsPosted(tables, id)
        ensures exists t: nat, j: nat :: PostsDraftIn(tables, transactions, t, j, id)
      {
        var t, j := PostedOnlyFromDraft(tables, transactions, id);
      }
    }
    if |transactions| == 0 {
    } else {
      var next := Committed(tables, transactions[0]);
      TransactionKeepsSound(tables, transactions[0]);
      PostedForever(next, transactions[1..]);
      forall id | IsPosted(tables, id)
        ensures Frozen(tables, History(tables, transactions), id)
      {
        assert Frozen(tables, next, id);
        assert IsPosted(next, id);
      }
    }
  }

  /** The entry at `position` of a POSTED journal is given to a draft. */
  predicate MovesToDraft(tables: Tables, position: nat, entry: Entry)
  {
    && position < |tables.entries| && IsPosted(tables, tables.entries[position].journal)
    && entry == tables.entries[position].(journal := entry.journal)
    && entry.journal in tables.journals && tables.journals[entry.journal].status == Draft
  }

  /** The premise is needed: moving one entry to a draft is accepted and leaves a POSTED journal unbalanced. */
  lemma MovedEntryUnbalances() returns (tables: Tables, position: nat, entry: Entry)
    ensures Sound(tables) && Referential(tables) && MovesToDraft(tables, position, entry)
    ensures Commits(tables, [UpdateEntry(position, entry)]) && !Sound(Committed(tables, [UpdateEntry(position, entry)]))
  {
    var posted, draft := Reference(AccountFunding, 1), Reference(AccountFunding, 2);
    var cash, source := LedgerKey(7, CustomerCash, EUR), LedgerKey(9, ProviderFunding, EUR);
    var d, c := Entry(posted, cash, Debit, 5, EUR), Entry(posted, source, Credit, 5, EUR);
    var moved := Entry(draft, cash, Debit, 5, EUR);
    var journals := map[posted := Journal(posted, EUR, Posted, Some(0)), draft := Journal(draft, EUR, Draft, None)];
    tables := Tables(journals, [d, c]);
    position, entry := 0, moved;
    SumPair(d, c, JournalSide(posted, Debit));
    SumPair(d, c, JournalSide(posted, Credit));
    SumPair(d, c, WrongCurrency(posted, EUR));
    assert Sound(tables);

    var statement := UpdateEntry(0, moved);
    var after := Tables(journals, [moved, c]);
    assert [d, c][0 := moved] == [moved, c];
    assert Execute(Work(tables, []), statement) == Accepted(Work(after, []));
    assert [statement][1..] == [];
    assert RunAll(Work(after, []), []) == Accepted(Work(after, []));
    assert RunAll(Work(tables, []), [statement]) == Accepted(Work(after, []));
    SumPair(moved, c, JournalSide(posted, Debit));
    SumPair(moved, c, JournalSide(posted, Credit));
    assert IsPosted(after, posted) && !Accepts(after.entries, posted, EUR);
    assert Commits(tables, [statement]) && !Sound(Committed(tables, [statement]));
  }
}
