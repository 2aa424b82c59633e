/** Payments into different wallets may be ingested in any order. */
module Commutation {
  import opened Amounts
  import opened Models
  import opened LedgerModel
  import opened LedgerInvariant
  import opened LedgerSteps

  /** Two ingestions into different wallets, of different signatures, with identifiers of their own. */
  ghost predicate Independent(a: LedgerOp, b: LedgerOp) {
    && a.Ingest? && b.Ingest?
    && a.pick != b.pick
    && SignatureScope(a.businessId, a.evidence.chain, a.evidence.signature) != SignatureScope(b.businessId,
         b.evidence.chain, b.evidence.signature)
    && a.ids.transaction != b.ids.transaction
    && a.ids.settlement != b.ids.settlement
    && a.ids.exception != b.ids.exception
    && EventIds(a.ids) !! EventIds(b.ids)
  }

  function EventIds(ids: IngestIds): set<Id> {
    {ids.detected, ids.verified, ids.matched, ids.final}
  }

  /** Everything an ingestion writes lies in its own wallet, under its own identifiers. */
  ghost predicate Footprint(l: Ledger, d: Ledger, wallet: Id, scope: string, ids: IngestIds) {
    && d.wallets == map[] && d.idempotency == map[]
    && (forall r :: r in d.requests ==>
        r in l.requests && l.requests[r].walletId == wallet && d.requests[r].walletId == wallet)
    && d.transactions.Keys <= {ids.transaction}
    && d.signatures.Keys <= {scope}
    && d.matches.Keys <= {ids.settlement}
    && d.exceptions.Keys <= {ids.exception}
    && d.events.Keys <= EventIds(ids)
  }

  lemma SettleFootprint(l: Ledger, r: PaymentRequest, t: StablecoinTransaction, status: MatchStatus, now: Clock,
                        ids: IngestIds)
    requires r.id in l.requests && l.requests[r.id] == r && r.walletId == t.walletId && t.id == ids.transaction
    requires Distinct4(ids.detected, ids.verified, ids.matched, ids.final)
    ensures Footprint(l, SettleChange(r, t, status, now, ids).delta, t.walletId, ScopeOf(t), ids)
  {
    var m := NewMatch(r, t, status, now, ids.settlement);
    SettlementTable(map[], r, t, m, if status != ExactMatch then ids.exception else "", now, ids);
    hide EventTable, SettlementEvents, ScopeOf;
  }

  lemma RecordFootprint(l: Ledger, t: StablecoinTransaction, now: Clock, ids: IngestIds)
    requires RequestsOk(l.wallets, l.requests) && t.id == ids.transaction
    requires Distinct4(ids.detected, ids.verified, ids.matched, ids.final)
    ensures Footprint(l, RecordChange(l, t, now, ids).delta, t.walletId, ScopeOf(t), ids)
  {
    if t.status != PendingFinality && Decide(l.requests, t).Settle? {
      var v := Decide(l.requests, t);
      DecideCandidate(l.requests, t);
      assert RequestOk(l.wallets, v.requestId, l.requests[v.requestId]);
      hide RequestsOk, Decide, ScopeOf, SettleChange, Footprint;
      SettleFootprint(l, l.requests[v.requestId], t, v.status, now, ids);
    } else {
      hide RequestsOk, Decide, ScopeOf;
    }
  }

  lemma IngestFootprint(l: Ledger, businessId: Id, e: Evidence, pick: Id, now: Clock, ids: IngestIds)
    requires RequestsOk(l.wallets, l.requests)
    requires Distinct4(ids.detected, ids.verified, ids.matched, ids.final)
    ensures Footprint(l, IngestChange(l, businessId, e, pick, now, ids).delta, pick,
                      SignatureScope(businessId, e.chain, e.signature), ids)
  {
    var t := NewTransaction(businessId, e, pick, now, ids.transaction);
    assert ScopeOf(t) == SignatureScope(businessId, e.chain, e.signature);
    EmptyFootprint(l, pick, ScopeOf(t), ids);
    hide RequestsOk, RecordChange, ValidEvidence, Footprint, SignatureScope, ScopeOf;
    RecordFootprint(l, t, now, ids);
  }

  lemma EmptyFootprint(l: Ledger, wallet: Id, scope: string, ids: IngestIds)
    ensures Footprint(l, EMPTY, wallet, scope, ids)
  {
  }

  /** The matching engine looks only at the requests of the wallet that was paid. */
  lemma DecideLooksAtWallet(rs: Requests, d: Requests, t: StablecoinTransaction)
    requires forall r :: r in d ==> r in rs && rs[r].walletId != t.walletId && d[r].walletId != t.walletId
    ensures Decide(rs + d, t) == Decide(rs, t)
    ensures Decide(rs, t).Settle? ==> (rs + d)[Decide(rs, t).requestId] == rs[Decide(rs, t).requestId]
  {
    assert Candidates(rs + d, t, false) == Candidates(rs, t, false);
    assert Candidates(rs + d, t, true) == Candidates(rs, t, true);
    assert ExactCandidates(rs + d, t, false) == ExactCandidates(rs, t, false);
    assert ExactCandidates(rs + d, t, true) == ExactCandidates(rs, t, true);
    DecideCandidate(rs, t);
    hide Candidates, ExactCandidates, Late, Exact, Compare;
  }

  /** What one ingestion does is not affected by the other having happened first. */
  lemma IngestUnaffected(l: Ledger, d: Ledger, wallet: Id, scope: string, other: IngestIds,
                         businessId: Id, e: Evidence, pick: Id, now: Clock, ids: IngestIds)
    requires SignaturesOk(l.transactions, l.signatures)
    requires Footprint(l, d, wallet, scope, other) && wallet != pick
    requires scope != SignatureScope(businessId, e.chain, e.signature)
    requires other.transaction !in l.transactions
    ensures IngestChange(l.Plus(d), businessId, e, pick, now, ids) == IngestChange(l, businessId, e, pick, now, ids)
  {
    hide SignaturesOk, Footprint, ValidEvidence, SignatureScope, RecordChange, SameEvidence, Receives, NewTransaction;
    var t := NewTransaction(businessId, e, pick, now, ids.transaction);
    RecordUnaffected(l, d, wallet, scope, other, t, now, ids) by {
      WalletIs(businessId, e, pick, now, ids.transaction);
    }
    IndexUnaffected(l, d, wallet, scope, other, SignatureScope(businessId, e.chain, e.signature));
  }

  lemma WalletIs(businessId: Id, e: Evidence, pick: Id, now: Clock, id: Id)
    ensures NewTransaction(businessId, e, pick, now, id).walletId == pick
  {
  }

  /** What the other ingestion wrote does not touch the lookups of this one. */
  lemma IndexUnaffected(l: Ledger, d: Ledger, wallet: Id, scope: string, other: IngestIds, own: string)
    requires SignaturesOk(l.transactions, l.signatures)
    requires Footprint(l, d, wallet, scope, other) && scope != own
    requires other.transaction !in l.transactions
    ensures var after := l.Plus(d);
            && after.wallets == l.wallets
            && (own in after.signatures <==> own in l.signatures)
            && (own in l.signatures ==> after.signatures[own] == l.signatures[own])
            && (own in l.signatures ==> l.signatures[own] in l.transactions && l.signatures[own] in after.transactions
                                        && after.transactions[l.signatures[own]] == l.transactions[l.signatures[own]])
  {
    PlusUntouched(l, d);
    if own in l.signatures {
      assert l.signatures[own] in l.transactions && l.signatures[own] !in d.transactions;
    }
    hide SignaturesOk, Footprint;
  }

  lemma RecordUnaffected(l: Ledger, d: Ledger, wallet: Id, scope: string, other: IngestIds, t: StablecoinTransaction,
                         now: Clock, ids: IngestIds)
    requires Footprint(l, d, wallet, scope, other) && wallet != t.walletId
    ensures RecordChange(l.Plus(d), t, now, ids) == RecordChange(l, t, now, ids)
  {
    DecideLooksAtWallet(l.requests, d.requests, t);
    hide Footprint, Decide, SettleChange, UnsettledChange;
  }

  lemma SwapMerge<V>(m: map<string, V>, a: map<string, V>, b: map<string, V>)
    requires a.Keys !! b.Keys
    ensures m + a + b == m + b + a
  {
  }

  lemma SwapPlus(l: Ledger, a: Ledger, b: Ledger)
    requires a.wallets.Keys !! b.wallets.Keys && a.requests.Keys !! b.requests.Keys
    requires a.transactions.Keys !! b.transactions.Keys && a.signatures.Keys !! b.signatures.Keys
    requires a.matches.Keys !! b.matches.Keys && a.exceptions.Keys !! b.exceptions.Keys
    requires a.events.Keys !! b.events.Keys && a.idempotency.Keys !! b.idempotency.Keys
    ensures l.Plus(a).Plus(b) == l.Plus(b).Plus(a)
  {
    SwapMerge(l.wallets, a.wallets, b.wallets);
    SwapMerge(l.requests, a.requests, b.requests);
    SwapMerge(l.transactions, a.transactions, b.transactions);
    SwapMerge(l.signatures, a.signatures, b.signatures);
    SwapMerge(l.matches, a.matches, b.matches);
    SwapMerge(l.exceptions, a.exceptions, b.exceptions);
    SwapMerge(l.events, a.events, b.events);
    SwapMerge(l.idempotency, a.idempotency, b.idempotency);
  }

  lemma FootprintsDisjoint(l: Ledger, da: Ledger, db: Ledger, a: LedgerOp, b: LedgerOp)
    requires Independent(a, b)
    requires Footprint(l, da, a.pick, SignatureScope(a.businessId, a.evidence.chain, a.evidence.signature), a.ids)
    requires Footprint(l, db, b.pick, SignatureScope(b.businessId, b.evidence.chain, b.evidence.signature), b.ids)
    ensures l.Plus(da).Plus(db) == l.Plus(db).Plus(da)
  {
    hide SignatureScope, Ledger.Plus;
    SwapPlus(l, da, db);
  }

  /** Either order leads to the same tables, and each ingestion answers the same in both. */
  lemma IngestionsCommute(l: Ledger, a: LedgerOp, b: LedgerOp)
    requires Inv(l) && Admissible(l, a) && Admissible(l, b) && Independent(a, b)
    ensures Step(Step(l, a), b) == Step(Step(l, b), a)
    ensures Perform(Step(l, a), b) == Perform(l, b) && Perform(Step(l, b), a) == Perform(l, a)
  {
    var sa := SignatureScope(a.businessId, a.evidence.chain, a.evidence.signature);
    var sb := SignatureScope(b.businessId, b.evidence.chain, b.evidence.signature);
    var da := IngestChange(l, a.businessId, a.evidence, a.pick, a.now, a.ids).delta;
    var db := IngestChange(l, b.businessId, b.evidence, b.pick, b.now, b.ids).delta;
    hide RequestsOk, SignaturesOk, IngestChange, Footprint, SignatureScope, Ledger.Plus, EventIds;
    hide WalletsOk, TransactionsOk, MatchesOk, MatchesUnique, MatchesCover, ExceptionsOk, ExceptionsUnique,
         ExceptionsCover, EventsOk, EventsUnique, EventsCover, IdempotencyOk;
    IngestFootprint(l, a.businessId, a.evidence, a.pick, a.now, a.ids);
    IngestFootprint(l, b.businessId, b.evidence, b.pick, b.now, b.ids);
    IngestUnaffected(l, da, a.pick, sa, a.ids, b.businessId, b.evidence, b.pick, b.now, b.ids);
    IngestUnaffected(l, db, b.pick, sb, b.ids, a.businessId, a.evidence, a.pick, a.now, a.ids);
    FootprintsDisjoint(l, da, db, a, b);
  }
}
