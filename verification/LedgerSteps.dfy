/** Steps and runs of the ledger: the invariant holds in every reachable state. */
module LedgerSteps {
  import opened Wrappers
  import opened Amounts
  import opened Models
  import opened LedgerModel
  import opened LedgerInvariant
  import opened LedgerPreservation

  lemma MergeEmpty<V>(m: map<string, V>, d: map<string, V>)
    ensures d == map[] ==> m + d == m
  {
  }

  lemma MergeOne<V>(m: map<string, V>, key: string, v: V)
    ensures m + map[key := v] == m[key := v]
  {
  }

  /** Tables that a change leaves empty are untouched. */
  lemma PlusUntouched(l: Ledger, d: Ledger)
    ensures d.wallets == map[] ==> l.Plus(d).wallets == l.wallets
    ensures d.requests == map[] ==> l.Plus(d).requests == l.requests
    ensures d.transactions == map[] ==> l.Plus(d).transactions == l.transactions
    ensures d.signatures == map[] ==> l.Plus(d).signatures == l.signatures
    ensures d.matches == map[] ==> l.Plus(d).matches == l.matches
    ensures d.exceptions == map[] ==> l.Plus(d).exceptions == l.exceptions
    ensures d.events == map[] ==> l.Plus(d).events == l.events
    ensures d.idempotency == map[] ==> l.Plus(d).idempotency == l.idempotency
  {
    MergeEmpty(l.wallets, d.wallets);
    MergeEmpty(l.requests, d.requests);
    MergeEmpty(l.transactions, d.transactions);
    MergeEmpty(l.signatures, d.signatures);
    MergeEmpty(l.matches, d.matches);
    MergeEmpty(l.exceptions, d.exceptions);
    MergeEmpty(l.events, d.events);
    MergeEmpty(l.idempotency, d.idempotency);
  }

  lemma PlusEmpty(l: Ledger)
    ensures l.Plus(EMPTY) == l
  {
    PlusUntouched(l, EMPTY);
  }

  lemma RegisterStep(l: Ledger, businessId: Id, name: string, chain: string, address: string, now: Clock, id: Id)
    requires Inv(l) && IsBusiness(businessId) && id != "" && id !in l.wallets
    ensures Inv(l.Plus(RegisterWalletChange(l, businessId, name, chain, address, now, id).delta))
  {
    hide Inv, WalletsOk, ValidAddress;
    var c := RegisterWalletChange(l, businessId, name, chain, address, now, id);
    PlusEmpty(l);
    if c.result.Success? {
      var w := Wallet(id, businessId, name, chain, address, now, None);
      RegisterKeepsInv(l, w);
      PlusUntouched(l, c.delta);
      MergeOne(l.wallets, w.id, w);
      assert l.Plus(c.delta) == l.(wallets := l.wallets[w.id := w]);
    }
  }

  lemma CreateWrite(l: Ledger, r: PaymentRequest, e: ReceiptEvent, key: string)
    requires Inv(l)
    requires RequestOk(l.wallets, r.id, r) && r.id !in l.requests && r.status == AwaitingPayment
    requires ValidTerms(BodyOf(r))
    requires e.id !in l.events && e == CreatedEvent(r, e.id)
    ensures Inv(l.Plus(EMPTY.(requests := map[r.id := r],
                              idempotency := map[IdempotencyScope(r.businessId, key) := IdempotencyRecord(BodyOf(r),
                                  r.id)],
                              events := map[e.id := e])))
  {
    hide Inv, RequestOk, ValidTerms;
    var scope, record := IdempotencyScope(r.businessId, key), IdempotencyRecord(BodyOf(r), r.id);
    var d := EMPTY.(requests := map[r.id := r], idempotency := map[scope := record], events := map[e.id := e]);
    CreateKeepsInv(l, r, e, key);
    PlusUntouched(l, d);
    MergeOne(l.requests, r.id, r);
    MergeOne(l.idempotency, scope, record);
    MergeOne(l.events, e.id, e);
    assert l.Plus(d) == l.(requests := l.requests[r.id := r], idempotency := l.idempotency[scope := record],
                           events := l.events[e.id := e]);
  }

  lemma WalletIsOk(l: Ledger, w: Id)
    requires Inv(l) && w in l.wallets
    ensures WalletOk(w, l.wallets[w])
  {
  }

  lemma CreateStep(l: Ledger, businessId: Id, key: string, body: RequestBody, readAt: Clock, now: Clock, id: Id,
                   eventId: Id)
    requires Inv(l) && IsBusiness(businessId) && id != "" && id !in l.requests && eventId !in l.events
    ensures Inv(l.Plus(CreateRequestChange(l, businessId, key, body, readAt, now, id, eventId).delta))
  {
    hide Inv, Valid, Ledger.Plus, IdempotencyScope;
    PlusEmpty(l);
    var c := CreateRequestChange(l, businessId, key, body, readAt, now, id, eventId);
    if c.delta != EMPTY {
      var w := l.wallets[body.walletId];
      WalletIsOk(l, body.walletId);
      var r := NewRequest(businessId, w, body, now, id);
      assert BodyOf(r) == body;
      CreateWrite(l, r, CreatedEvent(r, eventId), key);
    }
  }

  lemma CloseFlagWrite(l: Ledger, x: PaymentException, actorId: Id, reason: string, now: Clock)
    requires Inv(l) && x.id in l.exceptions && l.exceptions[x.id] == x && x.requestId == "" && x.status == Open
    ensures Inv(l.Plus(EMPTY.(exceptions := map[x.id := Closed(x, actorId, reason, now)])))
  {
    hide Inv;
    var d := EMPTY.(exceptions := map[x.id := Closed(x, actorId, reason, now)]);
    CloseFlagKeepsInv(l, x, actorId, reason, now);
    PlusUntouched(l, d);
    MergeOne(l.exceptions, x.id, Closed(x, actorId, reason, now));
    assert l.Plus(d) == l.(exceptions := l.exceptions[x.id := Closed(x, actorId, reason, now)]);
  }

  lemma CloseWrite(l: Ledger, x: PaymentException, actorId: Id, reason: string, now: Clock, e: ReceiptEvent)
    requires Inv(l) && x.id in l.exceptions && l.exceptions[x.id] == x && x.requestId != "" && x.status == Open
    requires e.id !in l.events && e == ResolvedEvent(x, now, e.id)
    ensures x.requestId in l.requests
    ensures Inv(l.Plus(EMPTY.(exceptions := map[x.id := Closed(x, actorId, reason, now)],
                              requests := map[x.requestId := ResolvedRequest(l.requests[x.requestId], now)],
                              events := map[e.id := e])))
  {
    hide Inv;
    CloseKeepsInv(l, x, actorId, reason, now, e);
    var closed, r := Closed(x, actorId, reason, now), ResolvedRequest(l.requests[x.requestId], now);
    hide Closed, ResolvedRequest, ResolvedEvent;
    var d := EMPTY.(exceptions := map[x.id := closed], requests := map[x.requestId := r], events := map[e.id := e]);
    PlusUntouched(l, d);
    MergeOne(l.exceptions, x.id, closed);
    MergeOne(l.requests, x.requestId, r);
    MergeOne(l.events, e.id, e);
    assert l.Plus(d) == l.(exceptions := l.exceptions[x.id := closed], requests := l.requests[x.requestId := r],
                           events := l.events[e.id := e]);
  }

  lemma ExceptionNamed(l: Ledger, x: Id)
    requires Inv(l) && x in l.exceptions
    ensures l.exceptions[x].id == x && (l.exceptions[x].requestId != "" ==> l.exceptions[x].requestId in l.requests)
  {
    assert ExceptionOk(l.requests, l.transactions, l.matches, x, l.exceptions[x]);
  }

  lemma ClosedIs(x: PaymentException, actorId: Id, reason: string, now: Clock)
    ensures Closed(x, actorId, reason, now)
         == x.(status := Resolved, resolutionReason := reason, resolvedBy := actorId, resolvedAt := Some(now))
    ensures forall r: PaymentRequest :: ResolvedRequest(r, now) == r.(status := ManuallyResolved, updatedAt := now)
    ensures forall id :: ResolvedEvent(x, now, id).id == id
  {
  }

  lemma ResolveStep(l: Ledger, businessId: Id, actorId: Id, exceptionId: Id, reason: string, now: Clock, eventId: Id)
    requires Inv(l) && eventId !in l.events
    ensures Inv(l.Plus(ResolveChange(l, businessId, actorId, exceptionId, reason, now, eventId).delta))
  {
    hide Inv, Ledger.Plus, Closed, ResolvedRequest, ResolvedEvent;
    PlusEmpty(l);
    var c := ResolveChange(l, businessId, actorId, exceptionId, reason, now, eventId);
    if c.delta != EMPTY {
      var x := l.exceptions[exceptionId];
      ExceptionNamed(l, exceptionId);
      ClosedIs(x, actorId, reason, now);
      if x.requestId == "" {
        CloseFlagWrite(l, x, actorId, reason, now);
      } else {
        CloseWrite(l, x, actorId, reason, now, ResolvedEvent(x, now, eventId));
      }
    }
  }

  // ---------- ingestion ----------

  /** A newly built transaction record is well formed and its scope is its index key. */
  lemma NewTransactionOk(l: Ledger, businessId: Id, e: Evidence, pick: Id, now: Clock, id: Id)
    requires WalletsOk(l.wallets) && IsBusiness(businessId) && id != "" && ValidEvidence(e)
    requires pick in l.wallets && Receives(l.wallets[pick], businessId, e)
    ensures TransactionOk(l.wallets, id, NewTransaction(businessId, e, pick, now, id))
    ensures ScopeOf(NewTransaction(businessId, e, pick, now, id)) == SignatureScope(businessId, e.chain, e.signature)
  {
    hide Valid, ValidAddress, Base10;
    assert WalletOk(pick, l.wallets[pick]);
  }

  /** The four events of a settlement, as a table. */
  lemma SettlementTable(es: Events, r: PaymentRequest, t: StablecoinTransaction, m: TransactionMatch, exceptionId: Id,
                        now: Clock, ids: IngestIds)
    requires m.transactionId == t.id && m.createdAt == now
    requires ids.detected !in es && ids.verified !in es && ids.matched !in es && ids.final !in es
    requires Distinct4(ids.detected, ids.verified, ids.matched, ids.final)
    ensures var events := SettlementEvents(r, t, m, exceptionId, now, ids);
            && EventTable(events) ==
               map[ids.detected := events[0], ids.verified := events[1], ids.matched := events[2],
                   ids.final := events[3]]
            && SettlementReceipt(es, EventTable(events), r, m, ids)
  {
    var events := SettlementEvents(r, t, m, exceptionId, now, ids);
    FourEvents(events[0], events[1], events[2], events[3]);
  }

  lemma FourEvents(a: ReceiptEvent, b: ReceiptEvent, c: ReceiptEvent, d: ReceiptEvent)
    ensures EventTable([a, b, c, d]) == map[a.id := a, b.id := b, c.id := c, d.id := d]
  {
    assert [a, b, c, d][..3] == [a, b, c];
    assert [a, b, c][..2] == [a, b];
    assert [a, b][..1] == [a];
    assert [a][..0] == [];
    assert EventTable([a]) == map[a.id := a];
    assert EventTable([a, b]) == map[a.id := a, b.id := b];
    assert EventTable([a, b, c]) == map[a.id := a, b.id := b, c.id := c];
  }

  lemma SettleStep(l: Ledger, r: PaymentRequest, t: StablecoinTransaction, status: MatchStatus, now: Clock,
                   ids: IngestIds)
    requires Inv(l)
    requires r.id in l.requests && l.requests[r.id] == r && IsCandidate(r, t)
    requires TransactionOk(l.wallets, t.id, t) && t.id !in l.transactions && t.status != PendingFinality
    requires t.createdAt == now
    requires ScopeOf(t) !in l.signatures
    requires ids.settlement != "" && ids.settlement !in l.matches && ids.exception != ""
    requires ids.exception !in l.exceptions
    requires ids.detected !in l.events && ids.verified !in l.events && ids.matched !in l.events
    requires ids.final !in l.events
    requires Distinct4(ids.detected, ids.verified, ids.matched, ids.final)
    ensures Inv(l.Plus(SettleChange(r, t, status, now, ids).delta))
  {
    hide Inv, Compare, Valid;
    var m := NewMatch(r, t, status, now, ids.settlement);
    var done := t.(status := MatchedToRequest);
    var x := if status == ExactMatch then None
             else Some(NewException(t.businessId, r.id, t.id, ExceptionOf(status), SeverityOf(status), now,
                                    ids.exception));
    SettlementTable(l.events, r, t, m, if x.Some? then ids.exception else "", now, ids);
    var news := EventTable(SettlementEvents(r, t, m, if x.Some? then ids.exception else "", now, ids));
    hide EventTable, SettlementEvents, SettlementReceipt;
    assert ScopeOf(done) == ScopeOf(t);
    SettleKeepsInv(l, r, done, m, x, news, ids);
    var d := SettleChange(r, t, status, now, ids).delta;
    PlusUntouched(l, d);
    MergeOne(l.requests, r.id, SettledRequest(r, m));
    MergeOne(l.transactions, t.id, done);
    MergeOne(l.signatures, ScopeOf(t), t.id);
    MergeOne(l.matches, m.id, m);
    if x.Some? { MergeOne(l.exceptions, ids.exception, x.value); }
    assert l.Plus(d) == SettledLedger(l, r, done, m, WithException(l.exceptions, x), news);
  }

  lemma FlagStep(l: Ledger, t: StablecoinTransaction, kind: Option<ExceptionType>, severity: Severity, now: Clock,
                 ids: IngestIds)
    requires Inv(l)
    requires TransactionOk(l.wallets, t.id, t) && t.id !in l.transactions && t.createdAt == now
    requires ScopeOf(t) !in l.signatures
    requires ids.exception != "" && ids.exception !in l.exceptions
    requires kind.None? ==> t.status == PendingFinality
    requires kind.Some? ==> t.status == ConfirmedOnchain && kind.value in {OrphanType, AmbiguousType}
    ensures Inv(l.Plus(UnsettledChange(t, kind, severity, now, ids).delta))
  {
    hide Inv, Valid;
    var done := if kind == Some(OrphanType) then t.(status := Orphaned) else t;
    var x := if kind.None? then None
             else Some(NewException(t.businessId, "", t.id, kind.value, severity, now, ids.exception));
    assert ScopeOf(done) == ScopeOf(t);
    FlagKeepsInv(l, done, x);
    var d := UnsettledChange(t, kind, severity, now, ids).delta;
    PlusUntouched(l, d);
    MergeOne(l.transactions, t.id, done);
    MergeOne(l.signatures, ScopeOf(t), t.id);
    if x.Some? { MergeOne(l.exceptions, ids.exception, x.value); }
    assert l.Plus(d)
        == l.(transactions := l.transactions[t.id := done], signatures := l.signatures[ScopeOf(t) := t.id],
              exceptions := WithException(l.exceptions, x));
  }

  lemma DecideCandidate(requests: Requests, t: StablecoinTransaction)
    ensures Decide(requests, t).Settle? ==> IsCandidate(requests[Decide(requests, t).requestId], t)
  {
  }

  lemma RecordStep(l: Ledger, t: StablecoinTransaction, now: Clock, ids: IngestIds)
    requires Inv(l)
    requires TransactionOk(l.wallets, t.id, t) && t.id !in l.transactions && t.createdAt == now
    requires t.status in {PendingFinality, ConfirmedOnchain}
    requires ScopeOf(t) !in l.signatures
    requires ids.settlement != "" && ids.settlement !in l.matches && ids.exception != ""
    requires ids.exception !in l.exceptions
    requires ids.detected !in l.events && ids.verified !in l.events && ids.matched !in l.events
    requires ids.final !in l.events
    requires Distinct4(ids.detected, ids.verified, ids.matched, ids.final)
    ensures Inv(l.Plus(RecordChange(l, t, now, ids).delta))
  {
    if t.status == PendingFinality {
      FlagStep(l, t, None, Medium, now, ids);
    } else {
      DecideCandidate(l.requests, t);
      match Decide(l.requests, t)
      case Settle(r, status) =>
        assert RequestOk(l.wallets, r, l.requests[r]);
        SettleStep(l, l.requests[r], t, status, now, ids);
      case Ambiguous(severity) => FlagStep(l, t, Some(AmbiguousType), severity, now, ids);
      case Unclaimed => FlagStep(l, t, Some(OrphanType), Medium, now, ids);
    }
  }

  lemma WalletsAreOk(l: Ledger)
    requires Inv(l)
    ensures WalletsOk(l.wallets)
  {
  }

  lemma IngestStep(l: Ledger, businessId: Id, e: Evidence, pick: Id, now: Clock, ids: IngestIds)
    requires Inv(l) && Admissible(l, Ingest(businessId, e, pick, now, ids))
    ensures Inv(l.Plus(IngestChange(l, businessId, e, pick, now, ids).delta))
  {
    hide Inv, ValidEvidence, RecordChange, TransactionOk, ScopeOf, SignatureScope, SameEvidence, Ledger.Plus, Receives;
    PlusEmpty(l);
    var c := IngestChange(l, businessId, e, pick, now, ids);
    if c.delta != EMPTY {
      var t := NewTransaction(businessId, e, pick, now, ids.transaction);
      WalletsAreOk(l);
      NewTransactionOk(l, businessId, e, pick, now, ids.transaction);
      RecordStep(l, t, now, ids);
    }
  }

  /** Every operation keeps the ledger invariant. */
  lemma StepKeepsInv(l: Ledger, op: LedgerOp)
    requires Inv(l) && Admissible(l, op)
    ensures Inv(Step(l, op))
  {
    hide Inv, Ledger.Plus, RegisterWalletChange, CreateRequestChange, IngestChange, ResolveChange;
    match op {
      case RegisterWallet(b, name, chain, address, now, id) => RegisterStep(l, b, name, chain, address, now, id);
      case CreateRequest(b, key, body, readAt, now, id, eventId) =>
        CreateStep(l, b, key, body, readAt, now, id, eventId);
      case Ingest(b, e, pick, now, ids) => IngestStep(l, b, e, pick, now, ids);
      case ResolveException(b, actor, x, reason, now, eventId) => ResolveStep(l, b, actor, x, reason, now, eventId);
    }
  }

  lemma EmptyInv()
    ensures Inv(EMPTY)
  {
  }

  /** The ledger invariant holds in every reachable state. */
  lemma {:induction false} RunKeepsInv(l: Ledger, ops: seq<LedgerOp>)
    requires Inv(l) && AdmissibleRun(l, ops)
    ensures Inv(Run(l, ops))
    decreases |ops|
  {
    hide Inv, Admissible, Step;
    if ops != [] {
      RunKeepsInv(l, ops[..|ops| - 1]);
      StepKeepsInv(Run(l, ops[..|ops| - 1]), ops[|ops| - 1]);
    }
  }
}
