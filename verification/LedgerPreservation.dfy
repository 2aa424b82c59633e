/** Every operation keeps the ledger invariant. */
module LedgerPreservation {
  import opened Wrappers
  import opened Models
  import opened LedgerModel
  import opened LedgerInvariant

  lemma RegisterKeepsInv(l: Ledger, w: Wallet)
    requires Inv(l)
    requires WalletOk(w.id, w) && w.id !in l.wallets
    requires forall id :: id in l.wallets ==> !SameWallet(l.wallets[id], w.businessId, w.chain, w.address)
    ensures Inv(l.(wallets := l.wallets[w.id := w]))
  {
    hide SignaturesOk, MatchesOk, MatchesUnique, MatchesCover, ExceptionsOk, ExceptionsUnique, ExceptionsCover,
         EventsOk, EventsUnique, EventsCover, IdempotencyOk;
  }

  // ---------- a settlement ----------

  /** What a settlement is made of, before it is written. */
  ghost predicate Settling(rs: Requests, ts: Transactions, ms: Matches, r: PaymentRequest, t: StablecoinTransaction,
                           m: TransactionMatch)
  {
    && r.id in rs && rs[r.id] == r && r.status == AwaitingPayment
    && t.id !in ts && t.status == MatchedToRequest
    && m.id != "" && m.id !in ms
    && m.requestId == r.id && m.transactionId == t.id
    && m.businessId == r.businessId == t.businessId && r.walletId == t.walletId
    && m.expectedAmount == r.amount && m.receivedAmount == t.amount
    && m.createdAt == t.createdAt
  }

  function SettledRequest(r: PaymentRequest, m: TransactionMatch): PaymentRequest {
    r.(status := StatusOf(m.status), updatedAt := m.createdAt)
  }

  lemma SettleMatches(rs: Requests, ts: Transactions, ms: Matches, r: PaymentRequest, t: StablecoinTransaction,
                      m: TransactionMatch)
    requires MatchesOk(rs, ts, ms) && MatchesUnique(ms) && Settling(rs, ts, ms, r, t, m)
    ensures MatchesOk(rs[r.id := SettledRequest(r, m)], ts[t.id := t], ms[m.id := m])
    ensures MatchesUnique(ms[m.id := m])
  {
    var rs', ts', ms' := rs[r.id := SettledRequest(r, m)], ts[t.id := t], ms[m.id := m];
    forall id | id in ms ensures ms[id].requestId != r.id && ms[id].transactionId != t.id {
      assert MatchOk(rs, ts, id, ms[id]);
    }
    forall id | id in ms' ensures MatchOk(rs', ts', id, ms'[id]) {
      if id != m.id { assert MatchOk(rs, ts, id, ms[id]); }
    }
  }

  lemma SettleMatchesCover(rs: Requests, ts: Transactions, ms: Matches, r: PaymentRequest, t: StablecoinTransaction,
                           m: TransactionMatch)
    requires MatchesCover(rs, ts, ms) && Settling(rs, ts, ms, r, t, m)
    ensures MatchesCover(rs[r.id := SettledRequest(r, m)], ts[t.id := t], ms[m.id := m])
  {
    var rs', ts', ms' := rs[r.id := SettledRequest(r, m)], ts[t.id := t], ms[m.id := m];
    assert Ties(ms', m.id, r.id, t.id);
    forall i | i in rs' && rs'[i].status != AwaitingPayment ensures exists n, u :: Ties(ms', n, i, u) {
      if i != r.id {
        var n, u :| Ties(ms, n, i, u);
        assert Ties(ms', n, i, u);
      }
    }
    forall u | u in ts' && ts'[u].status == MatchedToRequest ensures exists n, i :: Ties(ms', n, i, u) {
      if u != t.id {
        var n, i :| Ties(ms, n, i, u);
        assert Ties(ms', n, i, u);
      }
    }
  }

  function WithException(xs: Exceptions, x: Option<PaymentException>): Exceptions {
    if x.None? then xs else xs[x.value.id := x.value]
  }

  /** The exception that an inexact settlement raises. */
  ghost predicate Raised(xs: Exceptions, r: PaymentRequest, t: StablecoinTransaction, m: TransactionMatch,
                         x: PaymentException)
  {
    && m.status != ExactMatch
    && x.id != "" && x.id !in xs
    && x.requestId == r.id && x.transactionId == t.id && x.businessId == t.businessId
    && x.kind == ExceptionOf(m.status) && x.status == Open && x.resolvedAt.None?
    && x.createdAt == t.createdAt
  }

  lemma SettleExceptions(rs: Requests, ts: Transactions, ms: Matches, xs: Exceptions, r: PaymentRequest,
                         t: StablecoinTransaction, m: TransactionMatch)
    requires ExceptionsOk(rs, ts, ms, xs) && Settling(rs, ts, ms, r, t, m)
    ensures ExceptionsOk(rs[r.id := SettledRequest(r, m)], ts[t.id := t], ms[m.id := m], xs)
    ensures forall id :: id in xs ==> xs[id].requestId != r.id || r.id == ""
    ensures forall id :: id in xs ==> xs[id].transactionId != t.id
  {
    var rs', ts', ms' := rs[r.id := SettledRequest(r, m)], ts[t.id := t], ms[m.id := m];
    forall id | id in xs
      ensures ExceptionOk(rs', ts', ms', id, xs[id])
      ensures xs[id].requestId != r.id || r.id == ""
      ensures xs[id].transactionId != t.id
    {
      var x := xs[id];
      assert ExceptionOk(rs, ts, ms, id, x);
      if x.requestId != "" {
        var n :| Ties(ms, n, x.requestId, x.transactionId) && StatusOf(ms[n].status) == Pends(x.kind);
        assert Ties(ms', n, x.requestId, x.transactionId);
      }
    }
  }

  lemma RaiseException(rs: Requests, ts: Transactions, ms: Matches, xs: Exceptions,
                       r: PaymentRequest, t: StablecoinTransaction, m: TransactionMatch, x: PaymentException)
    requires ExceptionsOk(rs, ts, ms, xs) && ExceptionsUnique(xs) && Settling(rs, ts, ms, r, t, m)
    requires Raised(xs, r, t, m, x)
    requires r.id != ""
    ensures ExceptionsOk(rs[r.id := SettledRequest(r, m)], ts[t.id := t], ms[m.id := m], xs[x.id := x])
    ensures ExceptionsUnique(xs[x.id := x])
  {
    SettleExceptions(rs, ts, ms, xs, r, t, m);
    var ms' := ms[m.id := m];
    assert Ties(ms', m.id, x.requestId, x.transactionId) && StatusOf(ms'[m.id].status) == Pends(x.kind);
  }

  lemma SettleExceptionsCover(rs: Requests, ts: Transactions, xs: Exceptions, xs': Exceptions, r: PaymentRequest,
                              t: StablecoinTransaction, m: TransactionMatch)
    requires ExceptionsCover(rs, ts, xs)
    requires r.id in rs && rs[r.id] == r && t.id !in ts && t.status == MatchedToRequest
    requires forall id :: id in xs ==> id in xs' && xs'[id] == xs[id]
    requires m.status == ExactMatch || exists x :: Explains(xs', x, r.id, t.id)
    ensures ExceptionsCover(rs[r.id := SettledRequest(r, m)], ts[t.id := t], xs')
  {
    var rs', ts' := rs[r.id := SettledRequest(r, m)], ts[t.id := t];
    forall i | i in rs' && rs'[i].status !in {AwaitingPayment, Confirmed}
      ensures exists x, u :: Explains(xs', x, i, u)
    {
      if i != r.id {
        var x, u :| Explains(xs, x, i, u);
        assert Explains(xs', x, i, u);
      }
    }
    forall u | u in ts' && ts'[u].status in {Orphaned, ConfirmedOnchain} ensures exists x :: Explains(xs', x, "", u) {
      var x :| Explains(xs, x, "", u);
      assert Explains(xs', x, "", u);
    }
  }

  /** The four receipt events of a settlement. */
  ghost predicate SettlementReceipt(es: Events, news: Events, r: PaymentRequest, m: TransactionMatch, ids: IngestIds) {
    && news.Keys == {ids.detected, ids.verified, ids.matched, ids.final}
    && news.Keys !! es.Keys
    && Distinct4(ids.detected, ids.verified, ids.matched, ids.final)
    && (forall id :: id in news ==>
          && news[id].id == id && news[id].requestId == r.id && news[id].businessId == r.businessId
          && news[id].transactionId == m.transactionId && news[id].createdAt == m.createdAt)
    && news[ids.detected].kind == PaymentDetected
    && news[ids.verified].kind == TransactionVerified
    && news[ids.matched].kind == TransactionMatched
    && news[ids.final].kind == (if m.status == ExactMatch then PaymentConfirmed else PaymentExceptioned)
  }

  lemma SettleEvents(rs: Requests, ts: Transactions, ms: Matches, es: Events, news: Events,
                     r: PaymentRequest, t: StablecoinTransaction, m: TransactionMatch, ids: IngestIds)
    requires EventsOk(rs, ms, es) && Settling(rs, ts, ms, r, t, m) && SettlementReceipt(es, news, r, m, ids)
    ensures EventsOk(rs[r.id := SettledRequest(r, m)], ms[m.id := m], es + news)
  {
    var rs', ms', es' := rs[r.id := SettledRequest(r, m)], ms[m.id := m], es + news;
    forall id | id in es' ensures EventOk(rs', ms', id, es'[id]) {
      if id in news {
        assert Ties(ms', m.id, r.id, m.transactionId);
      } else {
        assert EventOk(rs, ms, id, es[id]);
        if es[id].kind !in {RequestCreated, ExceptionResolved} {
          var n :| Ties(ms, n, es[id].requestId, es[id].transactionId) && es[id].createdAt == ms[n].createdAt;
          assert Ties(ms', n, es[id].requestId, es[id].transactionId);
        }
      }
    }
  }

  lemma SettleEventsUnique(rs: Requests, ts: Transactions, ms: Matches, es: Events, news: Events,
                           r: PaymentRequest, t: StablecoinTransaction, m: TransactionMatch, ids: IngestIds)
    requires EventsOk(rs, ms, es) && EventsUnique(es) && Settling(rs, ts, ms, r, t, m)
    requires SettlementReceipt(es, news, r, m, ids)
    ensures EventsUnique(es + news)
  {
    forall id | id in es && es[id].requestId == r.id ensures es[id].kind == RequestCreated {
      assert EventOk(rs, ms, id, es[id]);
    }
    forall id | id in news ensures news[id].kind != RequestCreated {
    }
    forall a, b | a in news && b in news && news[a].kind == news[b].kind ensures a == b {
    }
  }

  lemma SettleEventsCover(rs: Requests, es: Events, news: Events, r: PaymentRequest, m: TransactionMatch,
                          ids: IngestIds)
    requires EventsCover(rs, es) && r.id in rs && rs[r.id] == r && r.status == AwaitingPayment
    requires SettlementReceipt(es, news, r, m, ids)
    ensures EventsCover(rs[r.id := SettledRequest(r, m)], es + news)
  {
    var rs', es' := rs[r.id := SettledRequest(r, m)], es + news;
    forall i, kind | i in rs' && Expected(rs'[i].status, kind) ensures exists e :: Records(es', e, i, kind) {
      if i != r.id || kind == RequestCreated {
        assert Expected(rs[i].status, kind);
        var e :| Records(es, e, i, kind);
        assert Records(es', e, i, kind);
      } else {
        assert kind in {PaymentDetected, TransactionVerified, TransactionMatched, PaymentConfirmed, PaymentExceptioned};
        assert Records(es', ids.detected, r.id, PaymentDetected);
        assert Records(es', ids.verified, r.id, TransactionVerified);
        assert Records(es', ids.matched, r.id, TransactionMatched);
        assert Records(es', ids.final, r.id, news[ids.final].kind);
      }
    }
  }

  lemma SettleRecords(rs: Requests, records: map<string, IdempotencyRecord>, r: PaymentRequest, m: TransactionMatch)
    requires IdempotencyOk(rs, records) && r.id in rs && rs[r.id] == r
    ensures IdempotencyOk(rs[r.id := SettledRequest(r, m)], records)
  {
    forall s | s in records ensures RecordOk(rs[r.id := SettledRequest(r, m)], s, records[s]) {
      assert RecordOk(rs, s, records[s]);
    }
  }

  lemma AddTransaction(ws: Wallets, ts: Transactions, t: StablecoinTransaction)
    requires TransactionsOk(ws, ts) && TransactionOk(ws, t.id, t)
    ensures TransactionsOk(ws, ts[t.id := t])
  {
  }

  lemma SettleSignatures(ts: Transactions, index: map<string, Id>, t: StablecoinTransaction)
    requires SignaturesOk(ts, index) && t.id !in ts && ScopeOf(t) !in index
    ensures SignaturesOk(ts[t.id := t], index[ScopeOf(t) := t.id])
  {
  }

  lemma SettleRequests(ws: Wallets, rs: Requests, r: PaymentRequest, m: TransactionMatch)
    requires RequestsOk(ws, rs) && r.id in rs && rs[r.id] == r && m.createdAt > ZERO_TIME
    ensures RequestsOk(ws, rs[r.id := SettledRequest(r, m)])
  {
  }

  /** The tables after a settlement. */
  ghost function SettledLedger(l: Ledger, r: PaymentRequest, t: StablecoinTransaction, m: TransactionMatch,
                               xs: Exceptions, news: Events): Ledger
  {
    l.(requests := l.requests[r.id := SettledRequest(r, m)],
       transactions := l.transactions[t.id := t],
       signatures := l.signatures[ScopeOf(t) := t.id],
       matches := l.matches[m.id := m],
       exceptions := xs,
       events := l.events + news)
  }

  lemma SettleMain(ws: Wallets, rs: Requests, ts: Transactions, index: map<string, Id>, ms: Matches, r: PaymentRequest,
                   t: StablecoinTransaction, m: TransactionMatch)
    requires RequestsOk(ws, rs) && TransactionsOk(ws, ts) && SignaturesOk(ts, index)
    requires MatchesOk(rs, ts, ms) && MatchesUnique(ms) && MatchesCover(rs, ts, ms)
    requires Settling(rs, ts, ms, r, t, m) && TransactionOk(ws, t.id, t) && ScopeOf(t) !in index
    ensures var rs', ts', ms' := rs[r.id := SettledRequest(r, m)], ts[t.id := t], ms[m.id := m];
            && RequestsOk(ws, rs') && TransactionsOk(ws, ts') && SignaturesOk(ts', index[ScopeOf(t) := t.id])
            && MatchesOk(rs', ts', ms') && MatchesUnique(ms') && MatchesCover(rs', ts', ms')
  {
    hide RequestsOk, TransactionsOk, SignaturesOk, MatchesOk, MatchesUnique, MatchesCover;
    SettleRequests(ws, rs, r, m);
    AddTransaction(ws, ts, t);
    SettleSignatures(ts, index, t);
    SettleMatches(rs, ts, ms, r, t, m);
    SettleMatchesCover(rs, ts, ms, r, t, m);
  }

  lemma SettleFlags(rs: Requests, ts: Transactions, ms: Matches, xs: Exceptions, r: PaymentRequest,
                    t: StablecoinTransaction, m: TransactionMatch, x: Option<PaymentException>)
    requires ExceptionsOk(rs, ts, ms, xs) && ExceptionsUnique(xs) && ExceptionsCover(rs, ts, xs)
    requires Settling(rs, ts, ms, r, t, m) && r.id != ""
    requires if x.None? then m.status == ExactMatch else Raised(xs, r, t, m, x.value)
    ensures var rs', ts', ms', xs' := rs[r.id := SettledRequest(r, m)], ts[t.id := t], ms[m.id := m],
            WithException(xs, x);
            ExceptionsOk(rs', ts', ms', xs') && ExceptionsUnique(xs') && ExceptionsCover(rs', ts', xs')
  {
    hide ExceptionsOk, ExceptionsUnique, ExceptionsCover;
    var xs' := WithException(xs, x);
    if x.Some? {
      RaiseException(rs, ts, ms, xs, r, t, m, x.value);
      assert Explains(xs', x.value.id, r.id, t.id);
    } else {
      SettleExceptions(rs, ts, ms, xs, r, t, m);
    }
    SettleExceptionsCover(rs, ts, xs, xs', r, t, m);
  }

  lemma SettleReceipt(rs: Requests, ts: Transactions, ms: Matches, es: Events, news: Events,
                      r: PaymentRequest, t: StablecoinTransaction, m: TransactionMatch, ids: IngestIds)
    requires EventsOk(rs, ms, es) && EventsUnique(es) && EventsCover(rs, es)
    requires Settling(rs, ts, ms, r, t, m) && SettlementReceipt(es, news, r, m, ids)
    ensures var rs', ms', es' := rs[r.id := SettledRequest(r, m)], ms[m.id := m], es + news;
            EventsOk(rs', ms', es') && EventsUnique(es') && EventsCover(rs', es')
  {
    hide EventsOk, EventsUnique, EventsCover, SettlementReceipt;
    SettleEvents(rs, ts, ms, es, news, r, t, m, ids);
    SettleEventsUnique(rs, ts, ms, es, news, r, t, m, ids);
    SettleEventsCover(rs, es, news, r, m, ids);
  }

  lemma SettleKeepsInv(l: Ledger, r: PaymentRequest, t: StablecoinTransaction, m: TransactionMatch,
                       x: Option<PaymentException>, news: Events, ids: IngestIds)
    requires Inv(l)
    requires Settling(l.requests, l.transactions, l.matches, r, t, m)
    requires TransactionOk(l.wallets, t.id, t) && ScopeOf(t) !in l.signatures
    requires if x.None? then m.status == ExactMatch else Raised(l.exceptions, r, t, m, x.value)
    requires SettlementReceipt(l.events, news, r, m, ids)
    ensures Inv(SettledLedger(l, r, t, m, WithException(l.exceptions, x), news))
  {
    assert RequestOk(l.wallets, r.id, r);
    hide WalletsOk, RequestsOk, TransactionsOk, SignaturesOk, MatchesOk, MatchesUnique, MatchesCover, ExceptionsOk,
         ExceptionsUnique, ExceptionsCover, EventsOk, EventsUnique, EventsCover, IdempotencyOk;
    SettleMain(l.wallets, l.requests, l.transactions, l.signatures, l.matches, r, t, m);
    SettleFlags(l.requests, l.transactions, l.matches, l.exceptions, r, t, m, x);
    SettleReceipt(l.requests, l.transactions, l.matches, l.events, news, r, t, m, ids);
    SettleRecords(l.requests, l.idempotency, r, m);
  }

  // ---------- a transaction that settles nothing ----------

  lemma FlagMatches(rs: Requests, ts: Transactions, ms: Matches, t: StablecoinTransaction)
    requires MatchesOk(rs, ts, ms) && MatchesCover(rs, ts, ms) && t.id !in ts && t.status != MatchedToRequest
    ensures MatchesOk(rs, ts[t.id := t], ms) && MatchesCover(rs, ts[t.id := t], ms)
  {
    forall id | id in ms ensures MatchOk(rs, ts[t.id := t], id, ms[id]) {
      assert MatchOk(rs, ts, id, ms[id]);
    }
  }

  /** An exception on a transaction alone, or none while the transaction is not final. */
  ghost predicate Flagging(xs: Exceptions, t: StablecoinTransaction, x: Option<PaymentException>) {
    if x.None? then t.status == PendingFinality
    else
      && x.value.id != "" && x.value.id !in xs
      && x.value.requestId == "" && x.value.transactionId == t.id && x.value.businessId == t.businessId
      && FlagsTransaction(t.status, x.value.kind) && x.value.status == Open && x.value.resolvedAt.None?
      && x.value.createdAt == t.createdAt
  }

  lemma FlagExceptions(rs: Requests, ts: Transactions, ms: Matches, xs: Exceptions, t: StablecoinTransaction,
                       x: Option<PaymentException>)
    requires ExceptionsOk(rs, ts, ms, xs) && ExceptionsUnique(xs) && t.id !in ts && Flagging(xs, t, x)
    ensures ExceptionsOk(rs, ts[t.id := t], ms, WithException(xs, x)) && ExceptionsUnique(WithException(xs, x))
  {
    forall id | id in xs ensures ExceptionOk(rs, ts[t.id := t], ms, id, xs[id]) && xs[id].transactionId != t.id {
      assert ExceptionOk(rs, ts, ms, id, xs[id]);
    }
  }

  lemma FlagExceptionsCover(rs: Requests, ts: Transactions, xs: Exceptions, t: StablecoinTransaction,
                            x: Option<PaymentException>)
    requires ExceptionsCover(rs, ts, xs) && t.id !in ts && Flagging(xs, t, x)
    ensures ExceptionsCover(rs, ts[t.id := t], WithException(xs, x))
  {
    var ts', xs' := ts[t.id := t], WithException(xs, x);
    forall i | i in rs && rs[i].status !in {AwaitingPayment, Confirmed} ensures exists y, u :: Explains(xs', y, i, u) {
      var y, u :| Explains(xs, y, i, u);
      assert Explains(xs', y, i, u);
    }
    forall u | u in ts' && ts'[u].status in {Orphaned, ConfirmedOnchain} ensures exists y :: Explains(xs', y, "", u) {
      if u == t.id {
        assert Explains(xs', x.value.id, "", u);
      } else {
        var y :| Explains(xs, y, "", u);
        assert Explains(xs', y, "", u);
      }
    }
  }

  lemma FlagKeepsInv(l: Ledger, t: StablecoinTransaction, x: Option<PaymentException>)
    requires Inv(l)
    requires TransactionOk(l.wallets, t.id, t) && t.id !in l.transactions && ScopeOf(t) !in l.signatures
    requires t.status != MatchedToRequest
    requires Flagging(l.exceptions, t, x)
    ensures Inv(l.(transactions := l.transactions[t.id := t], signatures := l.signatures[ScopeOf(t) := t.id],
                   exceptions := WithException(l.exceptions, x)))
  {
    SettleSignatures(l.transactions, l.signatures, t);
    FlagMatches(l.requests, l.transactions, l.matches, t);
    FlagExceptions(l.requests, l.transactions, l.matches, l.exceptions, t, x);
    FlagExceptionsCover(l.requests, l.transactions, l.exceptions, t, x);
  }

  // ---------- a new request ----------

  lemma CreateMatches(rs: Requests, ts: Transactions, ms: Matches, r: PaymentRequest)
    requires MatchesOk(rs, ts, ms) && MatchesCover(rs, ts, ms) && r.id !in rs && r.status == AwaitingPayment
    ensures MatchesOk(rs[r.id := r], ts, ms) && MatchesCover(rs[r.id := r], ts, ms)
  {
    forall id | id in ms ensures MatchOk(rs[r.id := r], ts, id, ms[id]) {
      assert MatchOk(rs, ts, id, ms[id]);
    }
  }

  lemma CreateExceptions(rs: Requests, ts: Transactions, ms: Matches, xs: Exceptions, r: PaymentRequest)
    requires r.id !in rs && r.status == AwaitingPayment
    requires ExceptionsOk(rs, ts, ms, xs) && ExceptionsCover(rs, ts, xs)
    ensures ExceptionsOk(rs[r.id := r], ts, ms, xs) && ExceptionsCover(rs[r.id := r], ts, xs)
  {
    forall id | id in xs ensures ExceptionOk(rs[r.id := r], ts, ms, id, xs[id]) {
      assert ExceptionOk(rs, ts, ms, id, xs[id]);
    }
  }

  lemma CreateEvents(rs: Requests, ms: Matches, es: Events, r: PaymentRequest, e: ReceiptEvent)
    requires EventsOk(rs, ms, es) && EventsUnique(es) && EventsCover(rs, es)
    requires r.id !in rs && r.status == AwaitingPayment && e.id !in es && e == CreatedEvent(r, e.id)
    ensures EventsOk(rs[r.id := r], ms, es[e.id := e]) && EventsUnique(es[e.id := e])
    ensures EventsCover(rs[r.id := r], es[e.id := e])
  {
    var rs', es' := rs[r.id := r], es[e.id := e];
    forall id | id in es ensures EventOk(rs', ms, id, es[id]) && es[id].requestId != r.id {
      assert EventOk(rs, ms, id, es[id]);
    }
    forall i, kind | i in rs' && Expected(rs'[i].status, kind) ensures exists f :: Records(es', f, i, kind) {
      if i == r.id {
        assert Records(es', e.id, i, kind);
      } else {
        assert Expected(rs[i].status, kind);
        var f :| Records(es, f, i, kind);
        assert Records(es', f, i, kind);
      }
    }
  }

  lemma CreateRecords(rs: Requests, records: map<string, IdempotencyRecord>, r: PaymentRequest, key: string)
    requires IdempotencyOk(rs, records) && r.id !in rs && ValidTerms(BodyOf(r))
    ensures IdempotencyOk(rs[r.id := r],
                          records[IdempotencyScope(r.businessId, key) := IdempotencyRecord(BodyOf(r), r.id)])
  {
    forall s | s in records ensures RecordOk(rs[r.id := r], s, records[s]) {
      assert RecordOk(rs, s, records[s]);
    }
    assert r.businessId + "|" <= IdempotencyScope(r.businessId, key);
  }

  lemma CreateKeepsInv(l: Ledger, r: PaymentRequest, e: ReceiptEvent, key: string)
    requires Inv(l)
    requires RequestOk(l.wallets, r.id, r) && r.id !in l.requests && r.status == AwaitingPayment
    requires ValidTerms(BodyOf(r))
    requires e.id !in l.events && e == CreatedEvent(r, e.id)
    ensures Inv(l.(requests := l.requests[r.id := r],
                   idempotency := l.idempotency[IdempotencyScope(r.businessId, key) := IdempotencyRecord(BodyOf(r),
                       r.id)],
                   events := l.events[e.id := e]))
  {
    CreateMatches(l.requests, l.transactions, l.matches, r);
    CreateExceptions(l.requests, l.transactions, l.matches, l.exceptions, r);
    CreateEvents(l.requests, l.matches, l.events, r, e);
    CreateRecords(l.requests, l.idempotency, r, key);
  }

  // ---------- resolving an exception ----------

  function Closed(x: PaymentException, actorId: Id, reason: string, now: Clock): PaymentException {
    x.(status := Resolved, resolutionReason := reason, resolvedBy := actorId, resolvedAt := Some(now))
  }

  lemma CloseFlagExceptions(rs: Requests, ts: Transactions, ms: Matches, xs: Exceptions, x: PaymentException,
                            actorId: Id, reason: string, now: Clock)
    requires ExceptionsOk(rs, ts, ms, xs) && ExceptionsUnique(xs)
    requires x.id in xs && xs[x.id] == x && x.requestId == "" && x.status == Open
    ensures ExceptionsOk(rs, ts, ms, xs[x.id := Closed(x, actorId, reason, now)])
    ensures ExceptionsUnique(xs[x.id := Closed(x, actorId, reason, now)])
  {
    var xs' := xs[x.id := Closed(x, actorId, reason, now)];
    forall id | id in xs ensures ExceptionOk(rs, ts, ms, id, xs'[id]) {
      assert ExceptionOk(rs, ts, ms, id, xs[id]);
    }
  }

  lemma CloseFlagKeepsInv(l: Ledger, x: PaymentException, actorId: Id, reason: string, now: Clock)
    requires Inv(l) && x.id in l.exceptions && l.exceptions[x.id] == x && x.requestId == "" && x.status == Open
    ensures Inv(l.(exceptions := l.exceptions[x.id := Closed(x, actorId, reason, now)]))
  {
    hide WalletsOk, RequestsOk, TransactionsOk, SignaturesOk, MatchesOk, MatchesUnique, MatchesCover, ExceptionsOk,
         ExceptionsUnique, ExceptionsCover, EventsOk, EventsUnique, EventsCover, IdempotencyOk;
    CloseFlagExceptions(l.requests, l.transactions, l.matches, l.exceptions, x, actorId, reason, now);
    CloseCover(l.requests, l.transactions, l.exceptions, x, actorId, reason, now);
  }

  lemma CloseCover(rs: Requests, ts: Transactions, xs: Exceptions, x: PaymentException, actorId: Id, reason: string,
                   now: Clock)
    requires ExceptionsCover(rs, ts, xs) && x.id in xs && xs[x.id] == x
    ensures ExceptionsCover(rs, ts, xs[x.id := Closed(x, actorId, reason, now)])
  {
    var xs' := xs[x.id := Closed(x, actorId, reason, now)];
    forall i | i in rs && rs[i].status !in {AwaitingPayment, Confirmed} ensures exists y, u :: Explains(xs', y, i, u) {
      var y, u :| Explains(xs, y, i, u);
      assert Explains(xs', y, i, u);
    }
    forall u | u in ts && ts[u].status in {Orphaned, ConfirmedOnchain} ensures exists y :: Explains(xs', y, "", u) {
      var y :| Explains(xs, y, "", u);
      assert Explains(xs', y, "", u);
    }
  }

  function ResolvedRequest(r: PaymentRequest, now: Clock): PaymentRequest {
    r.(status := ManuallyResolved, updatedAt := now)
  }

  lemma CloseMatches(rs: Requests, ts: Transactions, ms: Matches, xs: Exceptions, x: PaymentException, now: Clock)
    requires MatchesOk(rs, ts, ms) && MatchesUnique(ms) && MatchesCover(rs, ts, ms) && ExceptionsOk(rs, ts, ms, xs)
    requires x.id in xs && xs[x.id] == x && x.requestId in rs && x.requestId != "" && x.status == Open
    ensures MatchesOk(rs[x.requestId := ResolvedRequest(rs[x.requestId], now)], ts, ms)
    ensures MatchesCover(rs[x.requestId := ResolvedRequest(rs[x.requestId], now)], ts, ms)
  {
    var rs' := rs[x.requestId := ResolvedRequest(rs[x.requestId], now)];
    assert ExceptionOk(rs, ts, ms, x.id, x);
    forall id | id in ms ensures MatchOk(rs', ts, id, ms[id]) {
      assert MatchOk(rs, ts, id, ms[id]);
    }
  }

  lemma CloseExceptions(rs: Requests, ts: Transactions, ms: Matches, xs: Exceptions, x: PaymentException, actorId: Id,
                        reason: string, now: Clock)
    requires ExceptionsOk(rs, ts, ms, xs) && ExceptionsUnique(xs) && ExceptionsCover(rs, ts, xs)
    requires x.id in xs && xs[x.id] == x && x.requestId in rs && x.requestId != "" && x.status == Open
    ensures ExceptionsOk(rs[x.requestId := ResolvedRequest(rs[x.requestId], now)], ts, ms,
                         xs[x.id := Closed(x, actorId, reason, now)])
    ensures ExceptionsUnique(xs[x.id := Closed(x, actorId, reason, now)])
    ensures ExceptionsCover(rs[x.requestId := ResolvedRequest(rs[x.requestId], now)], ts,
                            xs[x.id := Closed(x, actorId, reason, now)])
  {
    var rs' := rs[x.requestId := ResolvedRequest(rs[x.requestId], now)];
    var xs' := xs[x.id := Closed(x, actorId, reason, now)];
    forall id | id in xs ensures ExceptionOk(rs', ts, ms, id, xs'[id]) {
      assert ExceptionOk(rs, ts, ms, id, xs[id]);
    }
    CloseCover(rs, ts, xs, x, actorId, reason, now);
    assert Explains(xs', x.id, x.requestId, x.transactionId);
  }

  lemma CloseEvents(rs: Requests, ts: Transactions, ms: Matches, es: Events, x: PaymentException, now: Clock,
                    e: ReceiptEvent)
    requires EventsOk(rs, ms, es) && EventsUnique(es) && EventsCover(rs, es)
    requires ExceptionOk(rs, ts, ms, x.id, x) && x.requestId in rs && x.requestId != "" && x.status == Open
    requires x.businessId == rs[x.requestId].businessId
    requires e.id !in es && e == ResolvedEvent(x, now, e.id)
    ensures EventsOk(rs[x.requestId := ResolvedRequest(rs[x.requestId], now)], ms, es[e.id := e])
    ensures EventsUnique(es[e.id := e])
    ensures EventsCover(rs[x.requestId := ResolvedRequest(rs[x.requestId], now)], es[e.id := e])
  {
    var rs', es' := rs[x.requestId := ResolvedRequest(rs[x.requestId], now)], es[e.id := e];
    forall id | id in es
      ensures EventOk(rs', ms, id, es[id])
      ensures es[id].requestId == x.requestId ==> es[id].kind != ExceptionResolved
    {
      assert EventOk(rs, ms, id, es[id]);
    }
    forall i, kind | i in rs' && Expected(rs'[i].status, kind) ensures exists f :: Records(es', f, i, kind) {
      if i == x.requestId && kind == ExceptionResolved {
        assert Records(es', e.id, i, kind);
      } else {
        assert Expected(rs[i].status, kind);
        var f :| Records(es, f, i, kind);
        assert Records(es', f, i, kind);
      }
    }
  }

  lemma CloseRecords(rs: Requests, records: map<string, IdempotencyRecord>, id: Id, now: Clock)
    requires IdempotencyOk(rs, records) && id in rs
    ensures IdempotencyOk(rs[id := ResolvedRequest(rs[id], now)], records)
  {
    forall s | s in records ensures RecordOk(rs[id := ResolvedRequest(rs[id], now)], s, records[s]) {
      assert RecordOk(rs, s, records[s]);
    }
  }

  /** The request that an exception names exists and belongs to the exception's business. */
  lemma ExceptionOwner(l: Ledger, x: PaymentException)
    requires Inv(l) && x.id in l.exceptions && l.exceptions[x.id] == x && x.requestId != ""
    ensures ExceptionOk(l.requests, l.transactions, l.matches, x.id, x)
    ensures x.requestId in l.requests && l.requests[x.requestId].businessId == x.businessId
  {
    assert ExceptionOk(l.requests, l.transactions, l.matches, x.id, x);
    var m :| Ties(l.matches, m, x.requestId, x.transactionId);
    assert MatchOk(l.requests, l.transactions, m, l.matches[m]);
  }

  lemma CloseRequests(ws: Wallets, rs: Requests, ts: Transactions, ms: Matches, x: PaymentException, now: Clock)
    requires RequestsOk(ws, rs) && ExceptionOk(rs, ts, ms, x.id, x) && x.requestId in rs
    ensures RequestsOk(ws, rs[x.requestId := ResolvedRequest(rs[x.requestId], now)])
  {
  }

  lemma CloseKeepsInv(l: Ledger, x: PaymentException, actorId: Id, reason: string, now: Clock, e: ReceiptEvent)
    requires Inv(l) && x.id in l.exceptions && l.exceptions[x.id] == x && x.requestId != "" && x.status == Open
    requires e.id !in l.events && e == ResolvedEvent(x, now, e.id)
    ensures x.requestId in l.requests
    ensures Inv(l.(exceptions := l.exceptions[x.id := Closed(x, actorId, reason, now)],
                   requests := l.requests[x.requestId := ResolvedRequest(l.requests[x.requestId], now)],
                   events := l.events[e.id := e]))
  {
    hide WalletsOk, RequestsOk, TransactionsOk, SignaturesOk, MatchesOk, MatchesUnique, MatchesCover, ExceptionsOk,
         ExceptionsUnique, ExceptionsCover, EventsOk, EventsUnique, EventsCover, IdempotencyOk;
    ExceptionOwner(l, x);
    hide ExceptionOk;
    var rs, ts, ms, xs := l.requests, l.transactions, l.matches, l.exceptions;
    CloseRequests(l.wallets, rs, ts, ms, x, now);
    CloseMatches(rs, ts, ms, xs, x, now);
    CloseExceptions(rs, ts, ms, xs, x, actorId, reason, now);
    CloseEvents(rs, ts, ms, l.events, x, now, e);
    CloseRecords(rs, l.idempotency, x.requestId, now);
  }
}
