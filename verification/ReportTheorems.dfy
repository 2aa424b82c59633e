/** Settlement reports partition the period's records and conserve its money. */
module ReportTheorems {
  import opened Wrappers
  import opened Finite
  import opened Amounts
  import opened AmountTheorems
  import opened Models
  import opened LedgerModel
  import opened LedgerInvariant
  import opened Reconciliation

  /** The part of the invariant that reports rest on, record by record. */
  ghost predicate Reportable(l: Ledger) {
    && (forall id :: id in l.wallets ==> WalletOk(id, l.wallets[id]))
    && (forall id :: id in l.requests ==> RequestOk(l.wallets, id, l.requests[id]))
    && (forall id :: id in l.transactions ==> TransactionOk(l.wallets, id, l.transactions[id]))
    && (forall id :: id in l.matches ==> MatchOk(l.requests, l.transactions, id, l.matches[id]))
    && MatchesUnique(l.matches)
  }

  lemma InvReportable(l: Ledger)
    requires Inv(l)
    ensures Reportable(l)
  {
    hide MatchesUnique, MatchesCover, ExceptionsOk, ExceptionsUnique, ExceptionsCover, EventsOk, EventsUnique,
         EventsCover, SignaturesOk, IdempotencyOk;
  }

  // ---------- the partition ----------

  /** A match is in a run exactly when its transaction is: they share one clock reading. */
  lemma MatchInRun(l: Ledger, p: Scope, m: Id)
    requires Reportable(l) && m in l.matches
    ensures m in RowMatches(l, p) <==> l.matches[m].transactionId in RunTransactions(l, p)
    ensures m in RowMatches(l, p) <==> m in RunMatches(l, p)
  {
    assert MatchOk(l.requests, l.transactions, m, l.matches[m]);
    assert TransactionOk(l.wallets, l.matches[m].transactionId, l.transactions[l.matches[m].transactionId]);
    hide Reportable;
  }

  /** The transaction, or the request, that a row reports. */
  ghost function TransactionOfKey(l: Ledger): RowKey -> Id {
    (key: RowKey) => match key
           case OfMatch(m) => if m in l.matches then l.matches[m].transactionId else ""
           case OfTransaction(t) => t
           case OfRequest(_) => ""
  }

  ghost function RequestOfKey(l: Ledger): RowKey -> Id {
    (key: RowKey) => match key
           case OfMatch(m) => if m in l.matches then l.matches[m].requestId else ""
           case OfTransaction(_) => ""
           case OfRequest(r) => r
  }

  lemma RowReports(l: Ledger, p: Scope, runId: Id, key: RowKey, id: Id)
    requires Reportable(l) && HasRow(l, p, key)
    ensures RowOf(l, p, runId, key, id).transactionId == TransactionOfKey(l)(key)
    ensures RowOf(l, p, runId, key, id).requestId == RequestOfKey(l)(key)
    ensures RowOf(l, p, runId, key, id).id == id
  {
    match key {
      case OfMatch(m) => assert MatchOk(l.requests, l.transactions, m, l.matches[m]);
      case OfTransaction(t) => assert TransactionOk(l.wallets, t, l.transactions[t]);
      case OfRequest(r) => assert RequestOk(l.wallets, r, l.requests[r]);
    }
    hide FindException;
  }

  /** The rows that report a transaction. */
  ghost function TransactionRows(l: Ledger, p: Scope): set<RowKey> {
    MatchKeys(l, p) + TransactionKeys(l, p)
  }

  /** No two of them report the same transaction. */
  lemma TransactionRowsInjective(l: Ledger, p: Scope)
    requires Reportable(l)
    ensures forall a, b ::
              && a in TransactionRows(l, p) && b in TransactionRows(l, p)
              && TransactionOfKey(l)(a) == TransactionOfKey(l)(b)
              ==> a == b
  {
    assert MatchesUnique(l.matches);
    hide Reportable, CoversMatch, RunTransactions;
    forall a, b | a in TransactionRows(l, p) && b in TransactionRows(l, p)
                  && TransactionOfKey(l)(a) == TransactionOfKey(l)(b)
      ensures a == b
    {
      if a.OfMatch? { assert a.id in RowMatches(l, p) && l.matches[a.id].transactionId in MatchedTransactions(l, p); }
      if b.OfMatch? { assert b.id in RowMatches(l, p) && l.matches[b.id].transactionId in MatchedTransactions(l, p); }
    }
  }

  /** Between them they report exactly the run's transactions. */
  lemma TransactionRowsCover(l: Ledger, p: Scope)
    requires Reportable(l)
    ensures Image(TransactionRows(l, p), TransactionOfKey(l)) == RunTransactions(l, p)
  {
    var image := Image(TransactionRows(l, p), TransactionOfKey(l));
    forall m | m in RowMatches(l, p) ensures l.matches[m].transactionId in RunTransactions(l, p) {
      MatchInRun(l, p, m);
    }
    hide Reportable, RunMatches, RunTransactions;
    forall t | t in RunTransactions(l, p) ensures t in image {
      if t in MatchedTransactions(l, p) {
        var m :| m in RowMatches(l, p) && l.matches[m].transactionId == t;
        assert OfMatch(m) in TransactionRows(l, p) && TransactionOfKey(l)(OfMatch(m)) == t;
      } else {
        assert OfTransaction(t) in TransactionRows(l, p) && TransactionOfKey(l)(OfTransaction(t)) == t;
      }
    }
  }

  lemma TransactionKeysOnce(l: Ledger, p: Scope, t: Id)
    requires Inv(l) && t != ""
    ensures t in RunTransactions(l, p) <==> exists key :: HasRow(l, p, key) && TransactionOfKey(l)(key) == t
    ensures forall a, b ::
            HasRow(l, p, a) && HasRow(l, p, b) && TransactionOfKey(l)(a) == t == TransactionOfKey(l)(b) ==> a == b
  {
    hide Inv, Reportable;
    InvReportable(l);
    TransactionRowsInjective(l, p);
    TransactionRowsCover(l, p);
    hide RowMatches, RunTransactions, MatchedTransactions, MatchedRequests, RunRequests;
    forall key | HasRow(l, p, key) && TransactionOfKey(l)(key) == t ensures key in TransactionRows(l, p) {
    }
    if t in RunTransactions(l, p) {
      assert t in Image(TransactionRows(l, p), TransactionOfKey(l));
      var key :| key in TransactionRows(l, p) && TransactionOfKey(l)(key) == t;
      assert HasRow(l, p, key);
    }
  }

  lemma RequestKeysOnce(l: Ledger, p: Scope, r: Id)
    requires Inv(l) && r != ""
    ensures r in RunRequests(l, p) || r in MatchedRequests(l, p) <==>
            exists key :: HasRow(l, p, key) && RequestOfKey(l)(key) == r
    ensures forall a, b ::
            HasRow(l, p, a) && HasRow(l, p, b) && RequestOfKey(l)(a) == r == RequestOfKey(l)(b) ==> a == b
  {
    hide Inv, Reportable, RunMatches, RunRequests, RunTransactions, MatchedTransactions;
    MatchesAreUnique(l);
    RowMatchesStored(l, p);
    if r in MatchedRequests(l, p) {
      var m :| m in RowMatches(l, p) && l.matches[m].requestId == r;
      assert HasRow(l, p, OfMatch(m)) && RequestOfKey(l)(OfMatch(m)) == r;
    } else if r in RunRequests(l, p) {
      assert HasRow(l, p, OfRequest(r)) && RequestOfKey(l)(OfRequest(r)) == r;
    }
    forall key | HasRow(l, p, key) && RequestOfKey(l)(key) == r
      ensures key.OfMatch? || (key == OfRequest(r) && r !in MatchedRequests(l, p))
      ensures key.OfMatch? ==>
              key.id in RowMatches(l, p) && l.matches[key.id].requestId == r && r in MatchedRequests(l, p)
    {
    }
  }

  /** A row of the report: its key, and what it reports. */
  lemma RowFields(l: Ledger, p: Scope, runId: Id, rowIds: RowKey -> Id, row: SettlementRow) returns (key: RowKey)
    requires Inv(l) && row in BuiltRows(l, p, runId, rowIds)
    ensures HasRow(l, p, key) && row == RowOf(l, p, runId, key, rowIds(key))
    ensures row.transactionId == TransactionOfKey(l)(key) && row.requestId == RequestOfKey(l)(key)
  {
    hide Inv, Reportable, RowKeys, RowOf, HasRow;
    InvReportable(l);
    key :| key in RowKeys(l, p) && row == RowOf(l, p, runId, key, rowIds(key));
    RowReports(l, p, runId, key, rowIds(key));
  }

  lemma KeyRow(l: Ledger, p: Scope, runId: Id, rowIds: RowKey -> Id, key: RowKey) returns (row: SettlementRow)
    requires Inv(l) && HasRow(l, p, key)
    ensures row in BuiltRows(l, p, runId, rowIds) && row == RowOf(l, p, runId, key, rowIds(key))
    ensures row.transactionId == TransactionOfKey(l)(key) && row.requestId == RequestOfKey(l)(key)
  {
    hide Inv, Reportable, RowKeys, RowOf, HasRow;
    InvReportable(l);
    assert key in RowKeys(l, p);
    row := RowOf(l, p, runId, key, rowIds(key));
    RowReports(l, p, runId, key, rowIds(key));
  }

  /** Every transaction of the period is reported by exactly one row, and no row reports another. */
  lemma TransactionsReportedOnce(l: Ledger, p: Scope, runId: Id, rowIds: RowKey -> Id, t: Id)
    requires Inv(l) && t != ""
    ensures t in RunTransactions(l, p) <==>
            exists row :: row in BuiltRows(l, p, runId, rowIds) && row.transactionId == t
    ensures var rows := BuiltRows(l, p, runId, rowIds);
            forall a, b :: a in rows && b in rows && a.transactionId == t == b.transactionId ==> a == b
  {
    hide *;
    TransactionKeysOnce(l, p, t);
    var rows := BuiltRows(l, p, runId, rowIds);
    if t in RunTransactions(l, p) {
      var key :| HasRow(l, p, key) && TransactionOfKey(l)(key) == t;
      var row := KeyRow(l, p, runId, rowIds, key);
    }
    if row :| row in rows && row.transactionId == t {
      var key := RowFields(l, p, runId, rowIds, row);
    }
    forall a, b | a in rows && b in rows && a.transactionId == t == b.transactionId ensures a == b {
      var j := RowFields(l, p, runId, rowIds, a);
      var k := RowFields(l, p, runId, rowIds, b);
    }
  }

  /** So is every request created, last updated or matched in the period. */
  lemma RequestsReportedOnce(l: Ledger, p: Scope, runId: Id, rowIds: RowKey -> Id, r: Id)
    requires Inv(l) && r != ""
    ensures r in RunRequests(l, p) || r in MatchedRequests(l, p) <==>
            exists row :: row in BuiltRows(l, p, runId, rowIds) && row.requestId == r
    ensures var rows := BuiltRows(l, p, runId, rowIds);
            forall a, b :: a in rows && b in rows && a.requestId == r == b.requestId ==> a == b
  {
    hide *;
    RequestKeysOnce(l, p, r);
    var rows := BuiltRows(l, p, runId, rowIds);
    if r in RunRequests(l, p) || r in MatchedRequests(l, p) {
      var key :| HasRow(l, p, key) && RequestOfKey(l)(key) == r;
      var row := KeyRow(l, p, runId, rowIds, key);
    }
    if row :| row in rows && row.requestId == r {
      var key := RowFields(l, p, runId, rowIds, row);
    }
    forall a, b | a in rows && b in rows && a.requestId == r == b.requestId ensures a == b {
      var j := RowFields(l, p, runId, rowIds, a);
      var k := RowFields(l, p, runId, rowIds, b);
    }
  }

  lemma MatchesAreUnique(l: Ledger)
    requires Inv(l)
    ensures MatchesUnique(l.matches)
  {
  }

  lemma RowMatchesStored(l: Ledger, p: Scope)
    ensures forall m :: m in RowMatches(l, p) ==> m in l.matches
  {
  }

  // ---------- the counts ----------

  /** Matched transactions and matches are equally many; unmatched ones are the unmatched rows. */
  lemma RunCounts(l: Ledger, p: Scope)
    requires Inv(l)
    ensures var n := Totals(l, p);
            && n.matchedTransactions == n.matches == |MatchKeys(l, p)|
            && n.unmatchedTransactions == |TransactionKeys(l, p)|
            && n.unmatchedTransactions >= 0
  {
    InvReportable(l);
    assert MatchesUnique(l.matches);
    hide Inv, Reportable, RowMatches, RunMatches, RunTransactions, MatchedTransactions, MatchKeys, TransactionKeys,
         RunRequests, RunExceptions;
    RowMatchesAre(l, p);
    CountRows(l, p);
    CountTransactionRows(l, p);
  }

  /** So the counters of a run count its rows: those made of a match, and those that say "unmatched". */
  lemma RowsAreCounted(l: Ledger, p: Scope, runId: Id, rowIds: RowKey -> Id)
    requires Inv(l) && DifferentIds(l, p, rowIds)
    ensures var n, rows := Totals(l, p), BuiltRows(l, p, runId, rowIds);
            && n.matches == n.matchedTransactions == |set row | row in rows && row.matchStatus.Some?|
            && n.unmatchedTransactions == |set row | row in rows && row.status == Unmatched|
  {
    hide *;
    RunCounts(l, p);
    KindsOfRows(l, p, runId, rowIds);
    CountAtKeys(l, p, runId, rowIds, MatchKeys(l, p));
    CountAtKeys(l, p, runId, rowIds, TransactionKeys(l, p));
  }

  lemma CountAtKeys(l: Ledger, p: Scope, runId: Id, rowIds: RowKey -> Id, keys: set<RowKey>)
    requires DifferentIds(l, p, rowIds)
    ensures keys <= RowKeys(l, p) ==> |Image(keys, RowAt(l, p, runId, rowIds))| == |keys|
  {
    hide RowAt, RowKeys, DifferentIds, BuiltRows;
    RowsAtKeys(l, p, runId, rowIds);
    if keys <= RowKeys(l, p) { CountImage(keys, RowAt(l, p, runId, rowIds)); }
  }

  /**
   Rows carry a match exactly when they are made of one, and say "unmatched" exactly when they
   are made of a transaction.
   */
  lemma KindsOfRows(l: Ledger, p: Scope, runId: Id, rowIds: RowKey -> Id)
    requires Inv(l) && DifferentIds(l, p, rowIds)
    ensures var rows, at := BuiltRows(l, p, runId, rowIds), RowAt(l, p, runId, rowIds);
            && (set row | row in rows && row.matchStatus.Some?) == Image(MatchKeys(l, p), at)
            && (set row | row in rows && row.status == Unmatched) == Image(TransactionKeys(l, p), at)
    ensures MatchKeys(l, p) <= RowKeys(l, p) && TransactionKeys(l, p) <= RowKeys(l, p)
  {
    var at := RowAt(l, p, runId, rowIds);
    KeysByKind(l, p);
    hide Inv, RowOf, HasRow, RowKeys, MatchKeys, TransactionKeys, BuiltRows, DifferentIds;
    RowsAtKeys(l, p, runId, rowIds);
    forall key | key in RowKeys(l, p)
      ensures at(key).matchStatus.Some? <==> key.OfMatch?
      ensures at(key).status == Unmatched <==> key.OfTransaction?
    {
      ReconciledMeansConfirmed(l, p, runId, key, rowIds(key));
      MatchOnRow(l, p, runId, key, rowIds(key));
    }
    hide RowAt;
  }

  lemma KeysByKind(l: Ledger, p: Scope)
    ensures forall key :: key in MatchKeys(l, p) <==> key in RowKeys(l, p) && key.OfMatch?
    ensures forall key :: key in TransactionKeys(l, p) <==> key in RowKeys(l, p) && key.OfTransaction?
  {
    hide RowMatches, RunTransactions, RunRequests, MatchedTransactions, MatchedRequests;
  }

  lemma MatchOnRow(l: Ledger, p: Scope, runId: Id, key: RowKey, id: Id)
    requires HasRow(l, p, key)
    ensures RowOf(l, p, runId, key, id).matchStatus.Some? <==> key.OfMatch?
  {
    hide FindException;
  }

  lemma CountTransactionRows(l: Ledger, p: Scope)
    requires Reportable(l)
    ensures |RunTransactions(l, p)| == |MatchKeys(l, p)| + |TransactionKeys(l, p)|
  {
    TransactionRowsInjective(l, p);
    TransactionRowsCover(l, p);
    CountImage(TransactionRows(l, p), TransactionOfKey(l));
    hide Reportable, RunTransactions;
    assert MatchKeys(l, p) !! TransactionKeys(l, p);
  }

  lemma RowMatchesAre(l: Ledger, p: Scope)
    requires Reportable(l)
    ensures RowMatches(l, p) == RunMatches(l, p)
  {
    forall m | m in l.matches ensures m in RowMatches(l, p) <==> m in RunMatches(l, p) {
      MatchInRun(l, p, m);
    }
    hide Reportable;
  }

  lemma CountRows(l: Ledger, p: Scope)
    requires MatchesUnique(l.matches)
    ensures |MatchKeys(l, p)| == |RowMatches(l, p)| == |MatchedTransactions(l, p)|
  {
    var s := RowMatches(l, p);
    var key := (m: Id) => OfMatch(m);
    CountImage(s, key);
    assert Image(s, key) == MatchKeys(l, p);
    var tx := (m: Id) => if m in l.matches then l.matches[m].transactionId else "";
    CountImage(s, tx);
    assert Image(s, tx) == MatchedTransactions(l, p);
  }

  // ---------- row statuses ----------

  /** A row is reconciled exactly when it is the row of an exact match. */
  lemma ReconciledMeansConfirmed(l: Ledger, p: Scope, runId: Id, key: RowKey, id: Id)
    requires Inv(l) && HasRow(l, p, key)
    ensures RowOf(l, p, runId, key, id).status == Reconciled <==> key.OfMatch? && l.matches[key.id].status == ExactMatch
    ensures RowOf(l, p, runId, key, id).status == Unmatched <==> key.OfTransaction?
  {
    hide Inv, FindException, MatchedTransactions, MatchedRequests, RunTransactions, RunRequests, RunMatches;
    if key.OfMatch? {
      RowMatchesStored(l, p);
      ExactMatchHasNoException(l, key.id);
    }
  }

  /** Exact matches never carry an exception, inexact ones always do. */
  lemma ExactMatchHasNoException(l: Ledger, m: Id)
    requires Inv(l) && m in l.matches
    ensures var mm := l.matches[m];
            && mm.requestId in l.requests && mm.transactionId in l.transactions
            && l.requests[mm.requestId].id == mm.requestId && l.transactions[mm.transactionId].id == mm.transactionId
            && (mm.status == ExactMatch <==> FindException(l.exceptions, mm.requestId, mm.transactionId).None?)
  {
    var mm := l.matches[m];
    assert MatchOk(l.requests, l.transactions, m, mm);
    assert RequestOk(l.wallets, mm.requestId, l.requests[mm.requestId]);
    assert TransactionOk(l.wallets, mm.transactionId, l.transactions[mm.transactionId]);
    hide WalletsOk, RequestsOk, TransactionsOk, SignaturesOk, MatchesOk, MatchesCover, MatchesUnique, EventsOk,
         EventsUnique, EventsCover, IdempotencyOk;
    hide RequestOk, TransactionOk, ExceptionsOk, ExceptionsUnique, ExceptionsCover;
    ExceptionTells(l.requests, l.transactions, l.matches, l.exceptions, m);
  }

  /** The exception that concerns a match, if any, says how it is inexact. */
  lemma ExceptionTells(rs: Requests, ts: Transactions, ms: Matches, xs: Exceptions, m: Id)
    requires ExceptionsOk(rs, ts, ms, xs) && ExceptionsCover(rs, ts, xs) && MatchesUnique(ms)
    requires m in ms && MatchOk(rs, ts, m, ms[m]) && ms[m].requestId != ""
    requires rs[ms[m].requestId].status != ExceptionHold
    ensures ms[m].status == ExactMatch <==> FindException(xs, ms[m].requestId, ms[m].transactionId).None?
  {
    var r, t := ms[m].requestId, ms[m].transactionId;
    forall x | x in xs && xs[x].requestId == r ensures xs[x].transactionId == t && ms[m].status != ExactMatch {
      assert ExceptionOk(rs, ts, ms, x, xs[x]);
      var n :| Ties(ms, n, r, xs[x].transactionId) && StatusOf(ms[n].status) == Pends(xs[x].kind);
      assert n == m;
    }
    if ms[m].status != ExactMatch {
      var x, u :| Explains(xs, x, r, u);
      assert Concerns(xs[x], r, t);
    }
    hide ExceptionsOk, ExceptionsCover, MatchOk;
  }

  // ---------- conservation of money ----------

  ghost function ReceivedOnRow(l: Ledger): RowKey -> real {
    (key: RowKey) => match key
                     case OfMatch(m) => if m in l.matches then l.matches[m].receivedAmount.Value() else 0.0
                     case OfTransaction(t) => TransactionValue(l.transactions)(t)
                     case OfRequest(_) => 0.0
  }

  lemma RowReceives(l: Ledger, p: Scope, runId: Id, key: RowKey, id: Id)
    requires HasRow(l, p, key)
    ensures RowOf(l, p, runId, key, id).receivedAmount.Value() == ReceivedOnRow(l)(key)
  {
    hide FindException;
    match key {
      case OfMatch(m) => assert m in l.matches;
      case OfTransaction(t) =>
        assert RowOf(l, p, runId, key, id).receivedAmount == l.transactions[t].amount;
        assert TransactionValue(l.transactions)(t) == l.transactions[t].amount.Value();
      case OfRequest(r) => assert NO_AMOUNT.Value() == 0.0;
    }
  }

  lemma RowValueIsTransactionValue(l: Ledger, p: Scope)
    requires Reportable(l)
    ensures forall key ::
            key in TransactionRows(l, p) ==>
            TransactionValue(l.transactions)(TransactionOfKey(l)(key)) == ReceivedOnRow(l)(key)
  {
    forall key | key in TransactionRows(l, p)
      ensures TransactionValue(l.transactions)(TransactionOfKey(l)(key)) == ReceivedOnRow(l)(key)
    {
      if key.OfMatch? { assert MatchOk(l.requests, l.transactions, key.id, l.matches[key.id]); }
    }
  }

  lemma RequestRowsReceiveNothing(l: Ledger, p: Scope)
    ensures TransactionRows(l, p) !! RequestKeys(l, p)
    ensures forall key :: key in RequestKeys(l, p) ==> ReceivedOnRow(l)(key) == 0.0
  {
    hide RunTransactions, RunMatches, RunRequests, MatchedTransactions, MatchedRequests;
  }

  lemma KeysConserveMoney(l: Ledger, p: Scope)
    requires Inv(l)
    ensures Sum(RowKeys(l, p), ReceivedOnRow(l)) == TotalReceived(l, p)
  {
    hide Inv, Reportable;
    InvReportable(l);
    TransactionRowsInjective(l, p);
    TransactionRowsCover(l, p);
    RowValueIsTransactionValue(l, p);
    RequestRowsReceiveNothing(l, p);
    hide TransactionKeys, MatchKeys, RequestKeys, TransactionRows, RunTransactions, HasRow, TransactionOfKey,
         ReceivedOnRow, TransactionValue;
    SumImage(TransactionRows(l, p), TransactionOfKey(l), ReceivedOnRow(l), TransactionValue(l.transactions));
    SumZero(RequestKeys(l, p), ReceivedOnRow(l));
    SumUnion(TransactionRows(l, p), RequestKeys(l, p), ReceivedOnRow(l));
    assert RowKeys(l, p) == TransactionRows(l, p) + RequestKeys(l, p) by { RowsAre(l, p); }
  }

  ghost function RowAt(l: Ledger, p: Scope, runId: Id, rowIds: RowKey -> Id): RowKey -> SettlementRow {
    key => if HasRow(l, p, key) then RowOf(l, p, runId, key, rowIds(key))
           else MakeRow(rowIds(key), p.businessId, runId, None, None, None, None, Unmatched, ZERO_TIME)
  }

  /** The rows of a run are one for one those of its keys. */
  lemma RowsAtKeys(l: Ledger, p: Scope, runId: Id, rowIds: RowKey -> Id)
    requires DifferentIds(l, p, rowIds)
    ensures BuiltRows(l, p, runId, rowIds) == Image(RowKeys(l, p), RowAt(l, p, runId, rowIds))
    ensures var keys, at := RowKeys(l, p), RowAt(l, p, runId, rowIds);
            forall a, b :: a in keys && b in keys && at(a) == at(b) ==> a == b
  {
    hide RowOf, RowKeys, HasRow;
    var at := RowAt(l, p, runId, rowIds);
    forall key | key in RowKeys(l, p)
      ensures at(key) == RowOf(l, p, runId, key, rowIds(key)) && at(key).id == rowIds(key)
    {
      RowIdIs(l, p, runId, key, rowIds(key));
    }
  }

  lemma RowIdIs(l: Ledger, p: Scope, runId: Id, key: RowKey, id: Id)
    requires HasRow(l, p, key)
    ensures RowOf(l, p, runId, key, id).id == id
  {
    hide FindException;
  }

  ghost function ReceivedBy(): SettlementRow -> real {
    (row: SettlementRow) => row.receivedAmount.Value()
  }

  /** The received amounts of the rows add up to what the run received. */
  lemma RowsConserveMoney(l: Ledger, p: Scope, runId: Id, rowIds: RowKey -> Id)
    requires Inv(l) && DifferentIds(l, p, rowIds)
    ensures Sum(BuiltRows(l, p, runId, rowIds), ReceivedBy()) == TotalReceived(l, p)
  {
    hide Inv, BuiltRows, RowKeys, RowOf, HasRow, TotalReceived, DifferentIds, ReceivedOnRow;
    KeysConserveMoney(l, p);
    RowsAtKeys(l, p, runId, rowIds);
    forall key | key in RowKeys(l, p) ensures ReceivedBy()(RowAt(l, p, runId, rowIds)(key)) == ReceivedOnRow(l)(key) {
      RowReceives(l, p, runId, key, rowIds(key));
    }
    hide RowAt, ReceivedBy;
    SumImage(RowKeys(l, p), RowAt(l, p, runId, rowIds), ReceivedOnRow(l), ReceivedBy());
  }

  lemma RowsAre(l: Ledger, p: Scope)
    ensures RowKeys(l, p) == TransactionRows(l, p) + RequestKeys(l, p)
  {
  }

  /** Every transaction of the run was received by a wallet that gets a snapshot. */
  lemma WalletsCover(l: Ledger, p: Scope)
    requires Reportable(l)
    ensures forall t :: t in RunTransactions(l, p) ==> WalletOf(l.transactions)(t) in RunWallets(l, p)
  {
    forall t | t in RunTransactions(l, p) ensures WalletOf(l.transactions)(t) in RunWallets(l, p) {
      var w := l.transactions[t].walletId;
      assert TransactionOk(l.wallets, t, l.transactions[t]);
      assert WalletOk(w, l.wallets[w]);
    }
  }

  /** The wallet snapshots add up to what the run received. */
  lemma SnapshotsConserveMoney(l: Ledger, p: Scope)
    requires Inv(l)
    ensures Sum(RunWallets(l, p), WalletReceived(l, p)) == TotalReceived(l, p)
  {
    InvReportable(l);
    WalletsCover(l, p);
    hide Inv, Reportable, RunTransactions, RunWallets;
    SumGroups(RunTransactions(l, p), RunWallets(l, p), WalletOf(l.transactions), TransactionValue(l.transactions),
              WalletReceived(l, p));
  }

  ghost function WalletCount(l: Ledger, p: Scope): Id -> real {
    w => |WalletTransactions(l, p, w)| as real
  }

  lemma WalletsCountTransactions(l: Ledger, p: Scope)
    requires Inv(l)
    ensures Sum(RunWallets(l, p), WalletCount(l, p)) == |RunTransactions(l, p)| as real
  {
    InvReportable(l);
    WalletsCover(l, p);
    hide Inv, Reportable, RunTransactions, RunWallets;
    var one := (t: Id) => 1.0;
    forall w | w in RunWallets(l, p)
      ensures WalletCount(l, p)(w) == Sum(Group(RunTransactions(l, p), WalletOf(l.transactions), w), one)
    {
      SumOnes(WalletTransactions(l, p, w), one);
    }
    SumGroups(RunTransactions(l, p), RunWallets(l, p), WalletOf(l.transactions), one, WalletCount(l, p));
    SumOnes(RunTransactions(l, p), one);
  }

  ghost function SnapshotAt(l: Ledger, p: Scope, runId: Id, snapshotIds: Id -> Id, now: Time): Id -> Snapshot {
    w => if w in l.wallets then SnapshotOf(l, p, runId, w, snapshotIds(w), now)
         else Snapshot(snapshotIds(w), p.businessId, runId, w, "", "", "", 0, now)
  }

  /** The snapshots of a run are one for one those of its wallets. */
  lemma SnapshotsAtWallets(l: Ledger, p: Scope, runId: Id, snapshotIds: Id -> Id, now: Time)
    requires DifferentSnapshots(l, p, snapshotIds)
    ensures BuiltSnapshots(l, p, runId, snapshotIds, now) ==
            Image(RunWallets(l, p), SnapshotAt(l, p, runId, snapshotIds, now))
    ensures var wallets, at := RunWallets(l, p), SnapshotAt(l, p, runId, snapshotIds, now);
            forall a, b :: a in wallets && b in wallets && at(a) == at(b) ==> a == b
  {
    hide SnapshotOf, CoversWallet;
    var at := SnapshotAt(l, p, runId, snapshotIds, now);
    forall w | w in RunWallets(l, p)
      ensures w in l.wallets && at(w) == SnapshotOf(l, p, runId, w, snapshotIds(w), now) && at(w).id == snapshotIds(w)
    {
      SnapshotFields(l, p, runId, w, snapshotIds(w), now);
    }
    hide SnapshotAt, RunWallets;
  }

  lemma SnapshotFields(l: Ledger, p: Scope, runId: Id, w: Id, id: Id, now: Time)
    requires w in l.wallets
    ensures var x := SnapshotOf(l, p, runId, w, id, now);
            && x.id == id && x.transactionCount == |WalletTransactions(l, p, w)|
            && x.observedInbound == Print(WalletReceived(l, p)(w))
  {
    hide WalletTransactions, WalletReceived, Print;
  }

  ghost function CountOn(): Snapshot -> real {
    (x: Snapshot) => x.transactionCount as real
  }

  /** The transaction counts of the snapshots add up to the number of transactions. */
  lemma SnapshotsCountTransactions(l: Ledger, p: Scope, runId: Id, snapshotIds: Id -> Id, now: Time)
    requires Inv(l) && DifferentSnapshots(l, p, snapshotIds)
    ensures Sum(BuiltSnapshots(l, p, runId, snapshotIds, now), CountOn()) == |RunTransactions(l, p)| as real
  {
    var at := SnapshotAt(l, p, runId, snapshotIds, now);
    hide Inv, BuiltSnapshots, SnapshotOf, DifferentSnapshots, RunTransactions, CoversWallet, WalletTransactions;
    WalletsCountTransactions(l, p);
    SnapshotsAtWallets(l, p, runId, snapshotIds, now);
    forall w | w in RunWallets(l, p) ensures CountOn()(at(w)) == WalletCount(l, p)(w) {
      SnapshotFields(l, p, runId, w, snapshotIds(w), now);
    }
    hide SnapshotAt, RunWallets, CountOn, WalletCount;
    SumImage(RunWallets(l, p), at, WalletCount(l, p), CountOn());
  }

  // ---------- printed totals ----------

  /** Every amount of the run has at most six decimals. */
  ghost predicate SixDecimalAmounts(l: Ledger, p: Scope) {
    forall t :: t in RunTransactions(l, p) ==>
      SixDecimal(TransactionValue(l.transactions)(t)) && TransactionValue(l.transactions)(t) >= 0.0
  }

  lemma {:induction false} SixDecimalSums(s: set<Id>, f: Id -> real)
    requires forall x :: x in s ==> SixDecimal(f(x)) && f(x) >= 0.0
    ensures SixDecimal(Sum(s, f)) && Sum(s, f) >= 0.0
    decreases |s|
  {
    hide SixDecimal;
    if s == {} {
      ZeroIsSixDecimal();
    } else {
      var x :| x in s;
      SumRemove(s, x, f);
      SixDecimalSums(s - {x}, f);
      SixDecimalSum(f(x), Sum(s - {x}, f));
    }
  }

  lemma ZeroIsSixDecimal()
    ensures SixDecimal(0.0)
  {
  }

  /** With six-decimal amounts the printed totals, run and wallets alike, denote the exact sums. */
  lemma PrintedTotalsAreExact(l: Ledger, p: Scope)
    requires SixDecimalAmounts(l, p)
    ensures IsPlain(Totals(l, p).totalReceived) && Denotes(Totals(l, p).totalReceived) == TotalReceived(l, p)
    ensures forall w ::
              IsPlain(Print(WalletReceived(l, p)(w)))
              && Denotes(Print(WalletReceived(l, p)(w))) == WalletReceived(l, p)(w)
  {
    hide SixDecimal, IsPlain, Denotes, Print, RunTransactions, RunRequests, RunMatches, RunExceptions,
         MatchedTransactions;
    SixDecimalSums(RunTransactions(l, p), TransactionValue(l.transactions));
    PrintRoundTrip(TotalReceived(l, p));
    forall w
      ensures IsPlain(Print(WalletReceived(l, p)(w)))
              && Denotes(Print(WalletReceived(l, p)(w))) == WalletReceived(l, p)(w)
    {
      SixDecimalSums(WalletTransactions(l, p, w), TransactionValue(l.transactions));
      PrintRoundTrip(WalletReceived(l, p)(w));
    }
  }

  ghost function PrintedReceived(l: Ledger, p: Scope): Id -> real {
    w => if IsPlain(Print(WalletReceived(l, p)(w))) then Denotes(Print(WalletReceived(l, p)(w))) else 0.0
  }

  lemma {:induction false} SumCongruent(s: set<Id>, f: Id -> real, g: Id -> real)
    requires forall x :: x in s ==> f(x) == g(x)
    ensures Sum(s, f) == Sum(s, g)
    decreases |s|
  {
    if s != {} {
      var x :| x in s;
      SumRemove(s, x, f);
      SumRemove(s, x, g);
      SumCongruent(s - {x}, f, g);
    }
  }

  lemma PrintedWalletsAddUp(l: Ledger, p: Scope)
    requires Inv(l) && SixDecimalAmounts(l, p)
    ensures IsPlain(Totals(l, p).totalReceived)
    ensures Sum(RunWallets(l, p), PrintedReceived(l, p)) == Denotes(Totals(l, p).totalReceived)
  {
    hide Inv, SixDecimalAmounts, IsPlain, Denotes, Print, Totals, WalletReceived, RunWallets;
    PrintedTotalsAreExact(l, p);
    SnapshotsConserveMoney(l, p);
    SumCongruent(RunWallets(l, p), PrintedReceived(l, p), WalletReceived(l, p));
  }

  ghost function PrintedOn(): Snapshot -> real {
    (x: Snapshot) => if IsPlain(x.observedInbound) then Denotes(x.observedInbound) else 0.0
  }

  /** So the numbers printed on the wallet snapshots add up to the number printed on the run. */
  lemma PrintedSnapshotsAddUp(l: Ledger, p: Scope, runId: Id, snapshotIds: Id -> Id, now: Time)
    requires Inv(l) && SixDecimalAmounts(l, p) && DifferentSnapshots(l, p, snapshotIds)
    ensures forall x :: x in BuiltSnapshots(l, p, runId, snapshotIds, now) ==> IsPlain(x.observedInbound)
    ensures IsPlain(Totals(l, p).totalReceived)
    ensures Sum(BuiltSnapshots(l, p, runId, snapshotIds, now), PrintedOn()) == Denotes(Totals(l, p).totalReceived)
  {
    var at := SnapshotAt(l, p, runId, snapshotIds, now);
    hide Inv, BuiltSnapshots, SnapshotOf, DifferentSnapshots, SixDecimalAmounts, IsPlain, Denotes, Print, Totals,
         WalletReceived, CoversWallet;
    PrintedWalletsAddUp(l, p);
    PrintedTotalsAreExact(l, p);
    SnapshotsAtWallets(l, p, runId, snapshotIds, now);
    forall w | w in RunWallets(l, p)
      ensures IsPlain(at(w).observedInbound) && PrintedOn()(at(w)) == PrintedReceived(l, p)(w)
    {
      SnapshotFields(l, p, runId, w, snapshotIds(w), now);
    }
    hide SnapshotAt, RunWallets, PrintedOn, PrintedReceived;
    SumImage(RunWallets(l, p), at, PrintedReceived(l, p), PrintedOn());
  }

  lemma AmountsAreValid(l: Ledger, p: Scope)
    requires Inv(l)
    ensures forall t :: t in RunTransactions(l, p) ==> t in l.transactions && Valid(l.transactions[t].amount)
  {
    InvReportable(l);
    hide Inv;
    forall t | t in RunTransactions(l, p) ensures Valid(l.transactions[t].amount) {
      assert TransactionOk(l.wallets, t, l.transactions[t]);
    }
  }

  lemma {:induction false} SumNonnegative(s: set<Id>, f: Id -> real)
    requires forall x :: x in s ==> f(x) >= 0.0
    ensures Sum(s, f) >= 0.0
    decreases |s|
  {
    if s != {} {
      var x :| x in s;
      SumRemove(s, x, f);
      SumNonnegative(s - {x}, f);
    }
  }

  /** The total that a run prints denotes what the run received exactly when that sum has six decimals. */
  lemma PrintedTotalExactly(l: Ledger, p: Scope)
    requires Inv(l)
    ensures IsPlain(Totals(l, p).totalReceived)
    ensures Denotes(Totals(l, p).totalReceived) == TotalReceived(l, p) <==> SixDecimal(TotalReceived(l, p))
  {
    AmountsAreValid(l, p);
    hide Inv, SixDecimal, IsPlain, Denotes, Print, RunTransactions, RunRequests, RunMatches, RunExceptions,
         MatchedTransactions;
    SumNonnegative(RunTransactions(l, p), TransactionValue(l.transactions));
    PrintRoundTrip(TotalReceived(l, p));
  }

  ghost predicate PlainAmount(amount: Amount) {
    IsPlain(amount.text) && amount == Plain(amount.text)
  }

  /** Runs whose payments were stored with plain decimal amounts always meet that condition. */
  lemma PlainAmountsPrintExactly(l: Ledger, p: Scope)
    requires Inv(l)
    requires forall t :: t in RunTransactions(l, p) && t in l.transactions ==> PlainAmount(l.transactions[t].amount)
    ensures SixDecimalAmounts(l, p)
  {
    AmountsAreValid(l, p);
    hide Inv, SixDecimal, RunTransactions;
    forall t | t in RunTransactions(l, p)
      ensures SixDecimal(TransactionValue(l.transactions)(t)) && TransactionValue(l.transactions)(t) >= 0.0
    {
      PlainAmountsAreSixDecimal(l.transactions[t].amount.text);
    }
  }
}
