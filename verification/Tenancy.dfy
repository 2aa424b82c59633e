/**
 Tenant isolation: what a business sees of the ledger evolves exactly as if it were the
 only business on the store.
 */
module Tenancy {
  import opened Amounts
  import opened Models
  import opened LedgerModel
  import opened LedgerInvariant
  import opened LedgerSteps
  import opened History

  // ---------- projections ----------

  /** Index keys start with the identifier of the business they belong to. */
  predicate KeyOfBusiness(b: Id, key: string) {
    b + "|" <= key
  }

  /** Separators do not occur in identifiers, so a key belongs to one business only. */
  lemma KeysAreSeparate(a: Id, b: Id, key: string)
    requires IsBusiness(a) && IsBusiness(b) && KeyOfBusiness(a, key) && KeyOfBusiness(b, key)
    ensures a == b
  {
    assert key[..|a|] == a && key[..|b|] == b;
    assert key[|a|] == '|' && key[|b|] == '|';
    assert forall i :: 0 <= i < |a| ==> key[i] == a[i];
    assert forall i :: 0 <= i < |b| ==> key[i] == b[i];
  }

  /** The entries of a table that belong to b. */
  ghost function Own<V(!new)>(m: map<string, V>, owner: V -> Id, b: Id): map<string, V> {
    map k | k in m && owner(m[k]) == b :: m[k]
  }

  /** The entries of an index whose keys belong to b. */
  ghost function OwnKeys<V(!new)>(m: map<string, V>, b: Id): map<string, V> {
    map k | k in m && KeyOfBusiness(b, k) :: m[k]
  }

  function WalletOwner(w: Wallet): Id { w.businessId }
  function RequestOwner(r: PaymentRequest): Id { r.businessId }
  function TransactionOwner(t: StablecoinTransaction): Id { t.businessId }
  function MatchOwner(m: TransactionMatch): Id { m.businessId }
  function ExceptionOwner(x: PaymentException): Id { x.businessId }
  function EventOwner(e: ReceiptEvent): Id { e.businessId }

  /** What business b sees of the ledger. */
  ghost function Project(l: Ledger, b: Id): Ledger {
    Ledger(Own(l.wallets, WalletOwner, b), Own(l.requests, RequestOwner, b), Own(l.transactions, TransactionOwner, b),
           OwnKeys(l.signatures, b), Own(l.matches, MatchOwner, b), Own(l.exceptions, ExceptionOwner, b),
           Own(l.events, EventOwner, b), OwnKeys(l.idempotency, b))
  }

  // ---------- writes stay within the business ----------

  /** Every entry of d belongs to b. */
  ghost predicate Within(d: Ledger, b: Id) {
    && (forall id :: id in d.wallets ==> d.wallets[id].businessId == b)
    && (forall id :: id in d.requests ==> d.requests[id].businessId == b)
    && (forall id :: id in d.transactions ==> d.transactions[id].businessId == b)
    && (forall s :: s in d.signatures ==> KeyOfBusiness(b, s))
    && (forall id :: id in d.matches ==> d.matches[id].businessId == b)
    && (forall id :: id in d.exceptions ==> d.exceptions[id].businessId == b)
    && (forall id :: id in d.events ==> d.events[id].businessId == b)
    && (forall s :: s in d.idempotency ==> KeyOfBusiness(b, s))
  }

  lemma ScopeWithin(b: Id, chain: string, signature: string, key: string)
    ensures KeyOfBusiness(b, SignatureScope(b, chain, signature))
    ensures KeyOfBusiness(b, IdempotencyScope(b, key))
  {
    assert SignatureScope(b, chain, signature) == b + "|" + (chain + "|" + signature);
    assert IdempotencyScope(b, key) == b + "|" + ("payment_request.create|" + key);
  }

  lemma SettleWithin(l: Ledger, r: PaymentRequest, t: StablecoinTransaction, status: MatchStatus, now: Clock,
                     ids: IngestIds)
    requires r.businessId == t.businessId
    requires Distinct4(ids.detected, ids.verified, ids.matched, ids.final)
    ensures Within(SettleChange(r, t, status, now, ids).delta, t.businessId)
  {
    ScopeWithin(t.businessId, t.chain, t.signature, "");
    var m := NewMatch(r, t, status, now, ids.settlement);
    SettlementTable(map[], r, t, m, if status != ExactMatch then ids.exception else "", now, ids);
    hide EventTable, SettlementEvents, SignatureScope, KeyOfBusiness;
  }

  lemma RecordWithin(l: Ledger, t: StablecoinTransaction, now: Clock, ids: IngestIds)
    requires Distinct4(ids.detected, ids.verified, ids.matched, ids.final)
    ensures Within(RecordChange(l, t, now, ids).delta, t.businessId)
  {
    ScopeWithin(t.businessId, t.chain, t.signature, "");
    DecideCandidate(l.requests, t);
    hide Decide, SettleChange, SignatureScope, KeyOfBusiness;
    if t.status != PendingFinality && Decide(l.requests, t).Settle? {
      var v := Decide(l.requests, t);
      SettleWithin(l, l.requests[v.requestId], t, v.status, now, ids);
      hide Within;
    }
  }

  /** The request an exception names is there and belongs to the same business. */
  lemma OwnerOf(l: Ledger, id: Id)
    requires Inv(l) && id in l.exceptions
    ensures var x := l.exceptions[id];
            x.id == id && (x.requestId != "" ==>
                           x.requestId in l.requests && l.requests[x.requestId].businessId == x.businessId)
  {
    assert ExceptionOk(l.requests, l.transactions, l.matches, id, l.exceptions[id]);
    hide ExceptionOk;
    if l.exceptions[id].requestId != "" { LedgerPreservation.ExceptionOwner(l, l.exceptions[id]); }
  }

  lemma ResolveWithin(l: Ledger, businessId: Id, actorId: Id, exceptionId: Id, reason: string, now: Clock, eventId: Id)
    requires Inv(l)
    ensures Within(ResolveChange(l, businessId, actorId, exceptionId, reason, now, eventId).delta, businessId)
  {
    hide Inv;
    if exceptionId in l.exceptions { OwnerOf(l, exceptionId); }
  }

  lemma OtherWithin(l: Ledger, op: LedgerOp)
    requires op.RegisterWallet? || op.CreateRequest?
    ensures Within(Perform(l, op).delta, op.businessId)
  {
    hide ValidBody, ValidAddress, SameWallet, IdempotencyScope, KeyOfBusiness, IngestChange, ResolveChange;
    ScopeWithin(op.businessId, "", "", if op.CreateRequest? then op.key else "");
  }

  lemma StepWithin(l: Ledger, op: LedgerOp)
    requires Inv(l) && Admissible(l, op)
    ensures Within(Perform(l, op).delta, op.businessId)
  {
    match op {
      case Ingest(b, e, pick, now, ids) =>
        hide Inv, RecordChange, ValidEvidence, Within;
        RecordWithin(l, NewTransaction(b, e, pick, now, ids.transaction), now, ids);
        assert Within(EMPTY, b) by { EmptyWithin(b); }
      case ResolveException(b, actor, id, reason, now, eventId) =>
        hide Inv, ResolveChange, Within;
        ResolveWithin(l, b, actor, id, reason, now, eventId);
      case RegisterWallet(_, _, _, _, _, _) => hide *; OtherWithin(l, op);
      case CreateRequest(_, _, _, _, _, _, _) => hide *; OtherWithin(l, op);
    }
  }

  lemma EmptyWithin(b: Id)
    ensures Within(EMPTY, b)
  {
  }

  // ---------- the two squares ----------

  lemma OwnMerge<V(!new)>(m: map<string, V>, d: map<string, V>, owner: V -> Id, b: Id)
    requires forall k :: k in d ==> owner(d[k]) == b
    ensures Own(m + d, owner, b) == Own(m, owner, b) + d
  {
  }

  lemma OwnKeysMerge<V(!new)>(m: map<string, V>, d: map<string, V>, b: Id)
    requires forall k :: k in d ==> KeyOfBusiness(b, k)
    ensures OwnKeys(m + d, b) == OwnKeys(m, b) + d
  {
  }

  lemma OtherMerge<V(!new)>(m: map<string, V>, d: map<string, V>, owner: V -> Id, a: Id, b: Id)
    requires a != b
    requires forall k :: k in d ==> owner(d[k]) == a
    requires forall k :: k in d && k in m ==> owner(m[k]) == a
    ensures Own(m + d, owner, b) == Own(m, owner, b)
  {
  }

  lemma OtherKeysMerge<V(!new)>(m: map<string, V>, d: map<string, V>, a: Id, b: Id)
    requires a != b && IsBusiness(a) && IsBusiness(b)
    requires forall k :: k in d ==> KeyOfBusiness(a, k)
    ensures OwnKeys(m + d, b) == OwnKeys(m, b)
  {
    forall k | k in d ensures !KeyOfBusiness(b, k) {
      if KeyOfBusiness(b, k) { KeysAreSeparate(a, b, k); }
    }
  }

  /** Entries of b written into the ledger are written into b's projection. */
  lemma ProjectPlusOwn(l: Ledger, d: Ledger, b: Id)
    requires Within(d, b)
    ensures Project(l.Plus(d), b) == Project(l, b).Plus(d)
  {
    hide Own, OwnKeys, KeyOfBusiness;
    OwnMerge(l.wallets, d.wallets, WalletOwner, b);
    OwnMerge(l.requests, d.requests, RequestOwner, b);
    OwnMerge(l.transactions, d.transactions, TransactionOwner, b);
    OwnKeysMerge(l.signatures, d.signatures, b);
    OwnMerge(l.matches, d.matches, MatchOwner, b);
    OwnMerge(l.exceptions, d.exceptions, ExceptionOwner, b);
    OwnMerge(l.events, d.events, EventOwner, b);
    OwnKeysMerge(l.idempotency, d.idempotency, b);
  }

  /** Entries that d writes over already belonged to a. */
  ghost predicate Overwrites(l: Ledger, d: Ledger, a: Id) {
    && (forall k :: k in d.wallets && k in l.wallets ==> l.wallets[k].businessId == a)
    && (forall k :: k in d.requests && k in l.requests ==> l.requests[k].businessId == a)
    && (forall k :: k in d.transactions && k in l.transactions ==> l.transactions[k].businessId == a)
    && (forall k :: k in d.matches && k in l.matches ==> l.matches[k].businessId == a)
    && (forall k :: k in d.exceptions && k in l.exceptions ==> l.exceptions[k].businessId == a)
    && (forall k :: k in d.events && k in l.events ==> l.events[k].businessId == a)
  }

  lemma LawfulOverwrites(l: Ledger, d: Ledger, a: Id)
    requires Within(d, a) && Lawful(l, d)
    ensures Overwrites(l, d, a)
  {
  }

  lemma OtherPayments(l: Ledger, d: Ledger, a: Id, b: Id)
    requires Within(d, a) && Overwrites(l, d, a) && a != b && IsBusiness(a) && IsBusiness(b)
    ensures var p, q := Project(l.Plus(d), b), Project(l, b);
            p.wallets == q.wallets && p.requests == q.requests && p.transactions == q.transactions
              && p.signatures == q.signatures
  {
    hide Own, OwnKeys, KeyOfBusiness, IsBusiness;
    OtherMerge(l.wallets, d.wallets, WalletOwner, a, b);
    OtherMerge(l.requests, d.requests, RequestOwner, a, b);
    OtherMerge(l.transactions, d.transactions, TransactionOwner, a, b);
    OtherKeysMerge(l.signatures, d.signatures, a, b);
  }

  lemma OtherOutcomes(l: Ledger, d: Ledger, a: Id, b: Id)
    requires Within(d, a) && Overwrites(l, d, a) && a != b && IsBusiness(a) && IsBusiness(b)
    ensures var p, q := Project(l.Plus(d), b), Project(l, b);
            p.matches == q.matches && p.exceptions == q.exceptions && p.events == q.events
              && p.idempotency == q.idempotency
  {
    hide Own, OwnKeys, KeyOfBusiness, IsBusiness;
    OtherMerge(l.matches, d.matches, MatchOwner, a, b);
    OtherMerge(l.exceptions, d.exceptions, ExceptionOwner, a, b);
    OtherMerge(l.events, d.events, EventOwner, a, b);
    OtherKeysMerge(l.idempotency, d.idempotency, a, b);
  }

  /** Entries of another business leave b's projection alone. */
  lemma ProjectPlusOther(l: Ledger, d: Ledger, a: Id, b: Id)
    requires Within(d, a) && Lawful(l, d) && a != b && IsBusiness(a) && IsBusiness(b)
    ensures Project(l.Plus(d), b) == Project(l, b)
  {
    LawfulOverwrites(l, d, a);
    hide Within, Overwrites, Lawful, Project, Ledger.Plus;
    OtherPayments(l, d, a, b);
    OtherOutcomes(l, d, a, b);
  }

  /** The requests a payment can settle are all visible to its business. */
  lemma CandidatesVisible(rs: Requests, qs: Requests, t: StablecoinTransaction)
    requires forall id :: id in qs <==> id in rs && rs[id].businessId == t.businessId
    requires forall id :: id in qs ==> qs[id] == rs[id]
    ensures Decide(qs, t) == Decide(rs, t)
    ensures Decide(rs, t).Settle? ==> qs[Decide(rs, t).requestId] == rs[Decide(rs, t).requestId]
  {
    assert Candidates(qs, t, false) == Candidates(rs, t, false);
    assert Candidates(qs, t, true) == Candidates(rs, t, true);
    assert ExactCandidates(qs, t, false) == ExactCandidates(rs, t, false);
    assert ExactCandidates(qs, t, true) == ExactCandidates(rs, t, true);
    hide Candidates, ExactCandidates, IsCandidate, Late, Exact, Compare;
  }

  /** The business's own part of the signature index gives the same answers about its own scopes. */
  lemma IndexLocal(l: Ledger, b: Id, scope: string)
    requires SignaturesOk(l.transactions, l.signatures) && TransactionsOk(l.wallets, l.transactions) && IsBusiness(b)
    requires KeyOfBusiness(b, scope)
    ensures var p := Project(l, b);
            && (scope in p.signatures <==> scope in l.signatures)
            && (scope in l.signatures ==>
                  && p.signatures[scope] == l.signatures[scope] && l.signatures[scope] in l.transactions
                  && l.signatures[scope] in p.transactions
                     && p.transactions[l.signatures[scope]] == l.transactions[l.signatures[scope]])
  {
    if scope in l.signatures {
      var t := l.transactions[l.signatures[scope]];
      assert TransactionOk(l.wallets, l.signatures[scope], t);
      ScopeWithin(t.businessId, t.chain, t.signature, "");
      KeysAreSeparate(t.businessId, b, scope);
    }
    hide TransactionsOk, SignaturesOk, KeyOfBusiness, ScopeOf;
  }

  lemma IngestLocal(l: Ledger, businessId: Id, e: Evidence, pick: Id, now: Clock, ids: IngestIds)
    requires SignaturesOk(l.transactions, l.signatures) && TransactionsOk(l.wallets, l.transactions)
    requires IsBusiness(businessId)
    ensures IngestChange(Project(l, businessId), businessId, e, pick, now, ids) ==
            IngestChange(l, businessId, e, pick, now, ids)
  {
    hide TransactionsOk, SignaturesOk, ValidEvidence, KeyOfBusiness, SignatureScope, RecordChange, SameEvidence,
         Project, NewTransaction;
    ScopeWithin(businessId, e.chain, e.signature, "");
    IndexLocal(l, businessId, SignatureScope(businessId, e.chain, e.signature));
    WalletsVisible(l, businessId);
    RecordLocal(l, NewTransaction(businessId, e, pick, now, ids.transaction), businessId, now, ids) by {
      OwnPayment(businessId, e, pick, now, ids.transaction);
    }
  }

  lemma OwnPayment(businessId: Id, e: Evidence, pick: Id, now: Clock, id: Id)
    ensures NewTransaction(businessId, e, pick, now, id).businessId == businessId
  {
  }

  lemma WalletsVisible(l: Ledger, b: Id)
    ensures var ws := Project(l, b).wallets;
            && (forall w :: w in ws <==> w in l.wallets && l.wallets[w].businessId == b)
            && (forall w :: w in ws ==> ws[w] == l.wallets[w])
  {
  }

  /** Recording a payment of the business looks at its own requests only. */
  lemma RecordLocal(l: Ledger, t: StablecoinTransaction, b: Id, now: Clock, ids: IngestIds)
    requires t.businessId == b
    ensures RecordChange(Project(l, b), t, now, ids) == RecordChange(l, t, now, ids)
  {
    CandidatesVisible(l.requests, Project(l, b).requests, t);
    hide Decide, SettleChange, UnsettledChange;
  }

  lemma CreateLocal(l: Ledger, businessId: Id, key: string, body: RequestBody, readAt: Clock, now: Clock,
                    requestId: Id, eventId: Id)
    requires RequestsOk(l.wallets, l.requests) && IdempotencyOk(l.requests, l.idempotency) && IsBusiness(businessId)
    ensures CreateRequestChange(Project(l, businessId), businessId, key, body, readAt, now, requestId, eventId)
         == CreateRequestChange(l, businessId, key, body, readAt, now, requestId, eventId)
  {
    var scope := IdempotencyScope(businessId, key);
    ScopeWithin(businessId, "", "", key);
    if scope in l.idempotency {
      var record := l.idempotency[scope];
      assert RecordOk(l.requests, scope, record);
      assert RequestOk(l.wallets, record.requestId, l.requests[record.requestId]);
      KeysAreSeparate(l.requests[record.requestId].businessId, businessId, scope);
    }
    hide RequestsOk, IdempotencyOk, ValidBody, KeyOfBusiness, IdempotencyScope;
  }

  lemma RegisterLocal(l: Ledger, b: Id, name: string, chain: string, address: string, now: Clock, id: Id)
    ensures RegisterWalletChange(Project(l, b), b, name, chain, address, now, id) ==
            RegisterWalletChange(l, b, name, chain, address, now, id)
  {
    var p := Project(l, b);
    assert (exists w | w in l.wallets :: SameWallet(l.wallets[w], b, chain, address)) <==>
           (exists w | w in p.wallets :: SameWallet(p.wallets[w], b, chain, address)) by {
      if w :| w in l.wallets && SameWallet(l.wallets[w], b, chain, address) { assert w in p.wallets; }
    }
    hide ValidAddress;
  }

  /** An operation of b does on b's projection what it does on the whole ledger, and answers the same. */
  lemma PerformLocal(l: Ledger, op: LedgerOp)
    requires Inv(l) && Admissible(l, op)
    ensures Perform(Project(l, op.businessId), op) == Perform(l, op)
  {
    hide WalletsOk, RequestsOk, TransactionsOk, SignaturesOk, MatchesOk, MatchesUnique, MatchesCover, ExceptionsOk,
         ExceptionsUnique, ExceptionsCover, EventsOk, EventsUnique, EventsCover, IdempotencyOk;
    hide Project, IngestChange, ResolveChange, RegisterWalletChange, CreateRequestChange;
    match op {
      case RegisterWallet(b, name, chain, address, now, id) => RegisterLocal(l, b, name, chain, address, now, id);
      case CreateRequest(b, key, body, readAt, now, id, eventId) =>
        CreateLocal(l, b, key, body, readAt, now, id, eventId);
      case Ingest(b, e, pick, now, ids) => IngestLocal(l, b, e, pick, now, ids);
      case ResolveException(b, actor, x, reason, now, eventId) => ResolveLocal(l, b, actor, x, reason, now, eventId);
    }
  }

  lemma ResolveLocal(l: Ledger, businessId: Id, actorId: Id, exceptionId: Id, reason: string, now: Clock, eventId: Id)
    requires Inv(l)
    ensures ResolveChange(Project(l, businessId), businessId, actorId, exceptionId, reason, now, eventId)
         == ResolveChange(l, businessId, actorId, exceptionId, reason, now, eventId)
  {
    hide Inv;
    if exceptionId in l.exceptions { OwnerOf(l, exceptionId); }
  }

  lemma AdmissibleLocal(l: Ledger, op: LedgerOp)
    requires Admissible(l, op)
    ensures Admissible(Project(l, op.businessId), op)
  {
    match op {
      case Ingest(b, e, pick, now, ids) =>
        var p := Project(l, b);
        if exists w :: w in p.wallets && Receives(p.wallets[w], b, e) {
          var w :| w in p.wallets && Receives(p.wallets[w], b, e);
          assert w in l.wallets && Receives(l.wallets[w], b, e);
        }
      case _ =>
    }
  }

  /** A step of a business either happens on a projection as it happens on the ledger, or not at all. */
  lemma StepProjects(l: Ledger, op: LedgerOp, b: Id)
    requires Inv(l) && Admissible(l, op) && IsBusiness(b)
    ensures Project(Step(l, op), b) == if op.businessId == b then Step(Project(l, b), op) else Project(l, b)
  {
    StepWithin(l, op);
    if op.businessId == b {
      PerformLocal(l, op);
      hide Inv, Admissible, Within, Project, Perform, Ledger.Plus;
      ProjectPlusOwn(l, Perform(l, op).delta, b);
    } else {
      StepLawful(l, op);
      hide Inv, Within, Lawful, Project, Perform, Ledger.Plus;
      ProjectPlusOther(l, Perform(l, op).delta, op.businessId, b);
    }
  }

  // ---------- whole runs ----------

  /** The operations of business b. */
  function OpsOf(ops: seq<LedgerOp>, b: Id): seq<LedgerOp>
    decreases |ops|
  {
    if ops == [] then []
    else OpsOf(ops[..|ops| - 1], b) + (if ops[|ops| - 1].businessId == b then [ops[|ops| - 1]] else [])
  }

  /**
   Noninterference over whole runs: what b sees after any interleaving is what it would
   have seen with nobody else on the store.
   */
  lemma {:induction false} BusinessesAreIsolated(l: Ledger, ops: seq<LedgerOp>, b: Id)
    requires Inv(l) && AdmissibleRun(l, ops) && IsBusiness(b)
    ensures Project(Run(l, ops), b) == Run(Project(l, b), OpsOf(ops, b))
    ensures AdmissibleRun(Project(l, b), OpsOf(ops, b))
    decreases |ops|
  {
    hide Inv, Admissible, Step, Project;
    if ops != [] {
      var n := |ops| - 1;
      BusinessesAreIsolated(l, ops[..n], b);
      RunKeepsInv(l, ops[..n]);
      StepProjects(Run(l, ops[..n]), ops[n], b);
      var mine := OpsOf(ops[..n], b);
      if ops[n].businessId == b {
        AdmissibleLocal(Run(l, ops[..n]), ops[n]);
        assert (mine + [ops[n]])[..|mine|] == mine;
      } else {
        assert mine + [] == mine;
      }
    }
  }

  /** Two histories that agree on b's own operations are indistinguishable to b. */
  lemma IndistinguishableHistories(l1: Ledger, ops1: seq<LedgerOp>, l2: Ledger, ops2: seq<LedgerOp>, op: LedgerOp)
    requires Inv(l1) && AdmissibleRun(l1, ops1) && Inv(l2) && AdmissibleRun(l2, ops2)
    requires IsBusiness(op.businessId)
    requires Project(l1, op.businessId) == Project(l2, op.businessId)
    requires OpsOf(ops1, op.businessId) == OpsOf(ops2, op.businessId)
    requires Admissible(Run(l1, ops1), op) && Admissible(Run(l2, ops2), op)
    ensures Project(Run(l1, ops1), op.businessId) == Project(Run(l2, ops2), op.businessId)
    ensures Perform(Run(l1, ops1), op).result == Perform(Run(l2, ops2), op).result
  {
    hide Inv, Admissible, AdmissibleRun, Run, Project, Perform, OpsOf;
    BusinessesAreIsolated(l1, ops1, op.businessId);
    BusinessesAreIsolated(l2, ops2, op.businessId);
    RunKeepsInv(l1, ops1);
    RunKeepsInv(l2, ops2);
    PerformLocal(Run(l1, ops1), op);
    PerformLocal(Run(l2, ops2), op);
  }
}
