/** What can happen to a record once it is stored: over any run, history is only added to. */
module History {
  import opened Wrappers
  import opened Models
  import opened LedgerModel
  import opened LedgerInvariant
  import opened LedgerSteps

  /** Every entry of m is still there, unchanged. */
  ghost predicate Kept<V(!new)>(m: map<string, V>, m': map<string, V>) {
    forall k :: k in m ==> k in m' && m'[k] == m[k]
  }

  /** A request may settle once, and an inexactly settled one may be resolved once. */
  predicate MayBecome(before: PaymentStatus, after: PaymentStatus) {
    || after == before
    || (before == AwaitingPayment && after != ExceptionHold)
    || (before in {Underpaid, Overpaid, Expired} && after == ManuallyResolved)
  }

  predicate RequestEvolves(r: PaymentRequest, r': PaymentRequest) {
    && MayBecome(r.status, r'.status)
    && (r'.status == r.status ==> r' == r)
    && r' == r.(status := r'.status, updatedAt := r'.updatedAt)
  }

  predicate ExceptionEvolves(x: PaymentException, x': PaymentException) {
    || x' == x
    || (x.status == Open && x'.status == Resolved
        && x' == x.(status := Resolved, resolutionReason := x'.resolutionReason, resolvedBy := x'.resolvedBy,
                    resolvedAt := x'.resolvedAt))
  }

  ghost predicate RequestsEvolve(rs: Requests, rs': Requests) {
    forall r :: r in rs ==> r in rs' && RequestEvolves(rs[r], rs'[r])
  }

  ghost predicate ExceptionsEvolve(xs: Exceptions, xs': Exceptions) {
    forall x :: x in xs ==> x in xs' && ExceptionEvolves(xs[x], xs'[x])
  }

  /** l' is a later state of l: no record is lost, and only requests and exceptions move on. */
  ghost predicate Evolves(l: Ledger, l': Ledger) {
    && Kept(l.wallets, l'.wallets)
    && Kept(l.transactions, l'.transactions)
    && Kept(l.signatures, l'.signatures)
    && Kept(l.matches, l'.matches)
    && Kept(l.events, l'.events)
    && Kept(l.idempotency, l'.idempotency)
    && RequestsEvolve(l.requests, l'.requests)
    && ExceptionsEvolve(l.exceptions, l'.exceptions)
  }

  lemma EvolvesTransitive(a: Ledger, b: Ledger, c: Ledger)
    requires Evolves(a, b) && Evolves(b, c)
    ensures Evolves(a, c)
  {
    forall r | r in a.requests ensures r in c.requests && RequestEvolves(a.requests[r], c.requests[r]) {
      assert RequestEvolves(a.requests[r], b.requests[r]) && RequestEvolves(b.requests[r], c.requests[r]);
    }
    forall x | x in a.exceptions ensures x in c.exceptions && ExceptionEvolves(a.exceptions[x], c.exceptions[x]) {
      assert ExceptionEvolves(a.exceptions[x], b.exceptions[x]) && ExceptionEvolves(b.exceptions[x], c.exceptions[x]);
    }
  }

  /** The entries of d are new, or move a request or an exception on. */
  ghost predicate Lawful(l: Ledger, d: Ledger) {
    && l.wallets.Keys !! d.wallets.Keys
    && l.transactions.Keys !! d.transactions.Keys
    && l.signatures.Keys !! d.signatures.Keys
    && l.matches.Keys !! d.matches.Keys
    && l.events.Keys !! d.events.Keys
    && l.idempotency.Keys !! d.idempotency.Keys
    && (forall r :: r in l.requests && r in d.requests ==> RequestEvolves(l.requests[r], d.requests[r]))
    && (forall x :: x in l.exceptions && x in d.exceptions ==> ExceptionEvolves(l.exceptions[x], d.exceptions[x]))
  }

  lemma LawfulEvolves(l: Ledger, d: Ledger)
    requires Lawful(l, d)
    ensures Evolves(l, l.Plus(d))
  {
  }

  lemma SettleLawful(l: Ledger, r: PaymentRequest, t: StablecoinTransaction, status: MatchStatus, now: Clock,
                     ids: IngestIds)
    requires r.id in l.requests && l.requests[r.id] == r && r.status == AwaitingPayment
    requires t.id !in l.transactions && ScopeOf(t) !in l.signatures
    requires ids.settlement !in l.matches && ids.exception !in l.exceptions
    requires ids.detected !in l.events && ids.verified !in l.events && ids.matched !in l.events
    requires ids.final !in l.events
    requires Distinct4(ids.detected, ids.verified, ids.matched, ids.final)
    ensures Lawful(l, SettleChange(r, t, status, now, ids).delta)
  {
    var m := NewMatch(r, t, status, now, ids.settlement);
    SettlementTable(l.events, r, t, m, if status != ExactMatch then ids.exception else "", now, ids);
    hide EventTable, SettlementEvents, ScopeOf;
  }

  /** The request that a payment settles is a stored one that awaits it. */
  lemma DecidedRequest(l: Ledger, t: StablecoinTransaction)
    requires RequestsOk(l.wallets, l.requests)
    ensures var v := Decide(l.requests, t);
            v.Settle? ==> v.requestId in l.requests && l.requests[v.requestId].id == v.requestId
                          && l.requests[v.requestId].status == AwaitingPayment
  {
    DecideCandidate(l.requests, t);
    if Decide(l.requests, t).Settle? {
      var r := Decide(l.requests, t).requestId;
      assert RequestOk(l.wallets, r, l.requests[r]);
    }
    hide RequestsOk, Decide;
  }

  lemma RecordLawful(l: Ledger, t: StablecoinTransaction, now: Clock, ids: IngestIds)
    requires RequestsOk(l.wallets, l.requests)
    requires t.id !in l.transactions && ScopeOf(t) !in l.signatures
    requires ids.settlement !in l.matches && ids.exception !in l.exceptions
    requires ids.detected !in l.events && ids.verified !in l.events && ids.matched !in l.events
    requires ids.final !in l.events
    requires Distinct4(ids.detected, ids.verified, ids.matched, ids.final)
    ensures Lawful(l, RecordChange(l, t, now, ids).delta)
  {
    hide RequestsOk, Decide, ScopeOf, SettleChange, RequestOk;
    if t.status != PendingFinality && Decide(l.requests, t).Settle? {
      var v := Decide(l.requests, t);
      DecidedRequest(l, t);
      hide Lawful;
      SettleLawful(l, l.requests[v.requestId], t, v.status, now, ids);
    }
  }

  lemma IngestLawful(l: Ledger, businessId: Id, e: Evidence, pick: Id, now: Clock, ids: IngestIds)
    requires RequestsOk(l.wallets, l.requests) && Admissible(l, Ingest(businessId, e, pick, now, ids))
    ensures Lawful(l, IngestChange(l, businessId, e, pick, now, ids).delta)
  {
    hide RecordChange, RequestsOk, ValidEvidence;
    var t := NewTransaction(businessId, e, pick, now, ids.transaction);
    if SignatureScope(businessId, e.chain, e.signature) !in l.signatures {
      RecordLawful(l, t, now, ids);
    }
  }

  lemma ResolveLawful(l: Ledger, businessId: Id, actorId: Id, exceptionId: Id, reason: string, now: Clock, eventId: Id)
    requires ExceptionsOk(l.requests, l.transactions, l.matches, l.exceptions) && eventId !in l.events
    ensures Lawful(l, ResolveChange(l, businessId, actorId, exceptionId, reason, now, eventId).delta)
  {
    hide ExceptionsOk, Evolves, RequestsEvolve, ExceptionsEvolve;
    if exceptionId in l.exceptions {
      ResolvedRequestFits(l, exceptionId);
      var x := l.exceptions[exceptionId];
      var closed := x.(status := Resolved, resolutionReason := reason, resolvedBy := actorId, resolvedAt := Some(now));
      assert x.status == Open ==> ExceptionEvolves(x, closed);
      if x.requestId != "" && x.status == Open {
        var r := l.requests[x.requestId];
        assert RequestEvolves(r, r.(status := ManuallyResolved, updatedAt := now));
      }
      hide ExceptionEvolves, RequestEvolves;
    }
  }

  lemma ResolvedRequestFits(l: Ledger, x: Id)
    requires ExceptionsOk(l.requests, l.transactions, l.matches, l.exceptions) && x in l.exceptions
    ensures var e := l.exceptions[x];
            e.id == x && (e.requestId != "" && e.status == Open ==>
              e.requestId in l.requests && l.requests[e.requestId].status in {Underpaid, Overpaid, Expired})
  {
    assert ExceptionOk(l.requests, l.transactions, l.matches, x, l.exceptions[x]);
    hide ExceptionsOk;
  }

  lemma RegisterLawful(l: Ledger, op: LedgerOp)
    requires op.RegisterWallet? && Admissible(l, op)
    ensures Lawful(l, Perform(l, op).delta)
  {
    hide ValidAddress, SameWallet;
  }

  lemma CreateLawful(l: Ledger, op: LedgerOp)
    requires op.CreateRequest? && Admissible(l, op)
    ensures Lawful(l, Perform(l, op).delta)
  {
    hide ValidBody, IdempotencyScope;
  }

  lemma StepLawful(l: Ledger, op: LedgerOp)
    requires Inv(l) && Admissible(l, op)
    ensures Lawful(l, Perform(l, op).delta)
  {
    hide WalletsOk, RequestsOk, TransactionsOk, SignaturesOk, MatchesOk, MatchesUnique, MatchesCover, ExceptionsOk,
         ExceptionsUnique, ExceptionsCover, EventsOk, EventsUnique, EventsCover, IdempotencyOk;
    hide Lawful, IngestChange, ResolveChange, RegisterWalletChange, CreateRequestChange;
    match op {
      case Ingest(b, e, pick, now, ids) => IngestLawful(l, b, e, pick, now, ids);
      case ResolveException(b, actor, id, reason, now, eventId) => ResolveLawful(l, b, actor, id, reason, now, eventId);
      case RegisterWallet(_, _, _, _, _, _) => RegisterLawful(l, op);
      case CreateRequest(_, _, _, _, _, _, _) => CreateLawful(l, op);
    }
  }

  /**
   Over any run nothing recorded is lost: transactions (a pending one too), matches,
   receipt events and index entries stay as they were, requests only settle and are
   then resolved, and exceptions are only closed.
   */
  lemma {:induction false} RunEvolves(l: Ledger, ops: seq<LedgerOp>)
    requires Inv(l) && AdmissibleRun(l, ops)
    ensures Evolves(l, Run(l, ops))
    decreases |ops|
  {
    hide Inv, Admissible, Perform, Lawful, Ledger.Plus, Evolves;
    if ops == [] {
      EvolvesRefl(l);
    } else {
      var before, op := ops[..|ops| - 1], ops[|ops| - 1];
      RunEvolves(l, before);
      RunKeepsInv(l, before);
      var mid := Run(l, before);
      StepLawful(mid, op);
      LawfulEvolves(mid, Perform(mid, op).delta);
      EvolvesTransitive(l, mid, Step(mid, op));
    }
  }

  lemma StepEvolves(l: Ledger, op: LedgerOp)
    requires Inv(l) && Admissible(l, op)
    ensures Evolves(l, Step(l, op))
  {
    StepLawful(l, op);
    hide Inv, Admissible, Lawful, Evolves, Perform, Ledger.Plus;
    LawfulEvolves(l, Perform(l, op).delta);
  }

  lemma EvolvesRefl(l: Ledger)
    ensures Evolves(l, l)
  {
  }

  /** A confirmed request and a manually resolved one never change again, and neither does any transaction. */
  lemma FinalStatesAreFrozen(l: Ledger, ops: seq<LedgerOp>, r: Id, t: Id)
    requires Inv(l) && AdmissibleRun(l, ops)
    ensures r in l.requests && l.requests[r].status in {Confirmed, ManuallyResolved} ==>
              r in Run(l, ops).requests && Run(l, ops).requests[r] == l.requests[r]
    ensures t in l.transactions ==> t in Run(l, ops).transactions && Run(l, ops).transactions[t] == l.transactions[t]
  {
    hide Inv, AdmissibleRun, Run;
    RunEvolves(l, ops);
    FrozenRecords(l, Run(l, ops), r, t);
  }

  lemma FrozenRecords(l: Ledger, l': Ledger, r: Id, t: Id)
    requires Evolves(l, l')
    ensures r in l.requests && l.requests[r].status in {Confirmed, ManuallyResolved} ==>
            r in l'.requests && l'.requests[r] == l.requests[r]
    ensures t in l.transactions ==> t in l'.transactions && l'.transactions[t] == l.transactions[t]
  {
  }
}
