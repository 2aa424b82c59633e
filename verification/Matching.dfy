/**
 The matching engine decides by a rule that mentions neither loops nor lists: which
 open requests of the receiving wallet fit the payment.
 */
module Matching {
  import opened Amounts
  import opened Models
  import opened LedgerModel
  import opened LedgerInvariant
  import opened LedgerSteps

  // ---------- the rule ----------

  /** r waits for a payment of this business, wallet, chain and token. */
  predicate Waits(r: PaymentRequest, t: StablecoinTransaction) {
    && r.businessId == t.businessId && r.walletId == t.walletId && r.chain == t.chain && r.token == t.token
    && r.status == AwaitingPayment
  }

  predicate InTime(r: PaymentRequest, t: StablecoinTransaction) {
    Waits(r, t) && PaymentTime(t) <= r.expiresAt
  }

  predicate TooLate(r: PaymentRequest, t: StablecoinTransaction) {
    Waits(r, t) && PaymentTime(t) > r.expiresAt
  }

  predicate SameAmount(r: PaymentRequest, t: StablecoinTransaction) {
    t.amount.Value() == r.amount.Value()
  }

  ghost predicate Readable(rs: Requests, t: StablecoinTransaction) {
    t.amount.reading.Some? && forall r :: r in rs ==> rs[r].amount.reading.Some?
  }

  /** With readable amounts the loop's filter is exactly the rule's. */
  lemma CandidatesAre(rs: Requests, t: StablecoinTransaction)
    requires Readable(rs, t)
    ensures forall r :: r in Candidates(rs, t, false) <==> r in rs && InTime(rs[r], t)
    ensures forall r :: r in Candidates(rs, t, true) <==> r in rs && TooLate(rs[r], t)
    ensures forall r :: r in ExactCandidates(rs, t, false) <==> r in rs && InTime(rs[r], t) && SameAmount(rs[r], t)
    ensures forall r :: r in ExactCandidates(rs, t, true) <==> r in rs && TooLate(rs[r], t) && SameAmount(rs[r], t)
  {
  }

  /** A set has exactly one element, namely x. */
  lemma SingleIs(s: set<Id>, x: Id)
    ensures |s| == 1 && Only(s) == x <==> x in s && forall y :: y in s ==> y == x
    ensures |s| == 0 <==> s == {}
  {
    if x in s && forall y :: y in s ==> y == x {
      assert s == {x};
    }
    if |s| == 1 && s != {} {
      var y := Only(s);
      assert |s - {y}| == 0;
      assert s == {y};
    }
  }

  lemma ManyMeansTwo(s: set<Id>)
    ensures |s| > 1 <==> exists x, y :: x in s && y in s && x != y
  {
    if |s| > 1 {
      var x := Only(s);
      assert |s - {x}| >= 1;
      var y := Only(s - {x});
      assert y in s && x != y;
    } else if s != {} {
      SingleIs(s, Only(s));
    }
  }

  /** r, and no other request still in time, asks for the amount of t. */
  ghost predicate OnlyEqual(rs: Requests, t: StablecoinTransaction, r: Id) {
    && r in rs && InTime(rs[r], t) && SameAmount(rs[r], t)
    && forall q :: q in rs && InTime(rs[q], t) && SameAmount(rs[q], t) ==> q == r
  }

  /** A payment is confirmed exactly when it equals one and only one request still in time. */
  lemma ConfirmsExactly(rs: Requests, t: StablecoinTransaction, r: Id)
    requires Readable(rs, t)
    ensures Decide(rs, t) == Settle(r, ExactMatch) <==> OnlyEqual(rs, t, r)
  {
    CandidatesAre(rs, t);
    SingleIs(ExactCandidates(rs, t, false), r);
    hide Candidates, ExactCandidates, InTime, SameAmount, Compare;
  }

  /** It is under- or overpaid exactly when a single request is still in time and the amounts differ. */
  lemma MismatchesExactly(rs: Requests, t: StablecoinTransaction, r: Id, status: MatchStatus)
    requires Readable(rs, t) && status in {UnderpaidMatch, OverpaidMatch}
    ensures Decide(rs, t) == Settle(r, status) <==>
            && r in rs && InTime(rs[r], t)
            && (forall q :: q in rs && InTime(rs[q], t) ==> q == r)
            && (if status == UnderpaidMatch
                then t.amount.Value() < rs[r].amount.Value() else t.amount.Value() > rs[r].amount.Value())
  {
    CandidatesAre(rs, t);
    var exact, active := ExactCandidates(rs, t, false), Candidates(rs, t, false);
    SingleIs(active, r);
    SingleIs(exact, r);
    if r in exact && (forall q :: q in active ==> q == r) { assert exact == {r}; }
    hide Candidates, ExactCandidates, InTime;
    assert exact <= active;
    if |exact| == 1 { SingleIs(exact, Only(exact)); }
    if |exact| > 1 { ManyMeansTwo(exact); }
  }

  /** An expired request is used only when none is in time, and then by amount before uniqueness. */
  lemma ExpiresExactly(rs: Requests, t: StablecoinTransaction, r: Id)
    requires Readable(rs, t)
    ensures Decide(rs, t) == Settle(r, ExpiredMatch) <==>
            && (forall q :: q in rs ==> !InTime(rs[q], t))
            && r in rs && TooLate(rs[r], t)
            && if exists q :: q in rs && TooLate(rs[q], t) && SameAmount(rs[q], t)
               then SameAmount(rs[r], t) && forall q :: q in rs && TooLate(rs[q], t) && SameAmount(rs[q], t) ==> q == r
               else forall q :: q in rs && TooLate(rs[q], t) ==> q == r
  {
    CandidatesAre(rs, t);
    var active, late, exact := Candidates(rs, t, false), Candidates(rs, t, true), ExactCandidates(rs, t, true);
    assert ExactCandidates(rs, t, false) <= active;
    SingleIs(active, r);
    SingleIs(late, r);
    SingleIs(exact, r);
    NoSubset(ExactCandidates(rs, t, false), active);
    hide Candidates, ExactCandidates, InTime, TooLate, SameAmount, Compare;
  }

  lemma NoSubset(a: set<Id>, b: set<Id>)
    requires a <= b
    ensures |b| == 0 ==> |a| == 0
  {
  }

  /** A payment is orphaned exactly when no request waits for it at all. */
  lemma OrphansExactly(rs: Requests, t: StablecoinTransaction)
    requires Readable(rs, t)
    ensures Decide(rs, t) == Unclaimed <==> forall q :: q in rs ==> !Waits(rs[q], t)
  {
    CandidatesAre(rs, t);
    var active, late := Candidates(rs, t, false), Candidates(rs, t, true);
    assert forall q :: q in rs && Waits(rs[q], t) ==> q in active || q in late;
    NoSubset(ExactCandidates(rs, t, false), active);
    NoSubset(ExactCandidates(rs, t, true), late);
    hide Candidates, ExactCandidates;
  }

  // ---------- consequences for the ledger ----------

  lemma InvReadable(l: Ledger, t: StablecoinTransaction)
    requires Inv(l) && Valid(t.amount)
    ensures Readable(l.requests, t)
  {
    forall r | r in l.requests ensures l.requests[r].amount.reading.Some? {
      assert RequestOk(l.wallets, r, l.requests[r]);
    }
  }

  /**
   Every accepted new payment ends in one of three ways: not final and untouched; or
   final with a match; or final with an exception and no match. The source's error
   branch and its trailing `return nil, nil` are never taken.
   */
  lemma EveryPaymentIsExplained(l: Ledger, op: LedgerOp)
    requires op.Ingest? && Perform(l, op).result.Success? && !Perform(l, op).result.value.replayed
    requires Inv(l)
    ensures var r := Perform(l, op).result.value;
            && r.Ingested? && r.transaction.id == op.ids.transaction
            && (op.evidence.confirmationStatus != "finalized" <==> r.settlement.None? && r.exception.None?)
            && (r.settlement.Some? <==> r.transaction.status == MatchedToRequest)
            && (r.settlement.Some? ==> (r.exception.None? <==> r.settlement.value.status == ExactMatch))
            && (r.transaction.status == Orphaned <==> r.exception.Some? && r.exception.value.kind == OrphanType)
  {
    hide Inv, ValidEvidence;
  }

  /** The call records a new and finalized payment. */
  ghost predicate RecordsFinal(l: Ledger, op: LedgerOp) {
    op.Ingest? && Perform(l, op).result.Success? && !Perform(l, op).result.value.replayed
      && op.evidence.confirmationStatus == "finalized"
  }

  /** Through the ledger: a finalized payment confirms r exactly under the rule of ConfirmsExactly. */
  lemma IngestConfirmsExactly(l: Ledger, op: LedgerOp, r: Id)
    requires RecordsFinal(l, op) && r in l.requests
    requires Inv(l)
    ensures var t := NewTransaction(op.businessId, op.evidence, op.pick, op.now, op.ids.transaction);
            && r in Step(l, op).requests
            && (l.requests[r].status != Confirmed && Step(l, op).requests[r].status == Confirmed <==>
                OnlyEqual(l.requests, t, r))
  {
    hide *;
    AcceptedAmount(l, op);
    var t := NewTransaction(op.businessId, op.evidence, op.pick, op.now, op.ids.transaction);
    InvReadable(l, t);
    ConfirmsExactly(l.requests, t, r);
    IngestStatus(l, op, r);
    ConfirmedOnlyByExact();
  }

  lemma AcceptedAmount(l: Ledger, op: LedgerOp)
    requires RecordsFinal(l, op)
    ensures op.Ingest? && Valid(NewTransaction(op.businessId, op.evidence, op.pick, op.now, op.ids.transaction).amount)
  {
    hide RecordChange;
  }

  lemma ConfirmedOnlyByExact()
    ensures forall m: MatchStatus :: StatusOf(m) == Confirmed <==> m == ExactMatch
  {
  }

  /** A finalized ingest changes at most the status of the request it settles. */
  lemma IngestStatus(l: Ledger, op: LedgerOp, r: Id)
    requires RecordsFinal(l, op) && r in l.requests
    requires Inv(l)
    ensures var v := Decide(l.requests,
                            NewTransaction(op.businessId, op.evidence, op.pick, op.now, op.ids.transaction));
            && r in Step(l, op).requests
            && Step(l, op).requests[r].status ==
               (if v.Settle? && v.requestId == r then StatusOf(v.status) else l.requests[r].status)
            && (v.Settle? && v.requestId == r ==> l.requests[r].status == AwaitingPayment)
  {
    hide *;
    FinalRecords(l, op);
    RequestsHold(l);
    var t := NewTransaction(op.businessId, op.evidence, op.pick, op.now, op.ids.transaction);
    RecordStatus(l, t, op.now, op.ids, r);
  }

  lemma FinalRecords(l: Ledger, op: LedgerOp)
    requires RecordsFinal(l, op)
    ensures op.Ingest?
    ensures var t := NewTransaction(op.businessId, op.evidence, op.pick, op.now, op.ids.transaction);
            t.status != PendingFinality && Step(l, op) == l.Plus(RecordChange(l, t, op.now, op.ids).delta)
  {
    hide RecordChange, Ledger.Plus, ValidEvidence, SameEvidence, Receives, SignatureScope;
  }

  lemma RequestsHold(l: Ledger)
    requires Inv(l)
    ensures RequestsOk(l.wallets, l.requests)
  {
  }

  lemma RecordStatus(l: Ledger, t: StablecoinTransaction, now: Clock, ids: IngestIds, r: Id)
    requires RequestsOk(l.wallets, l.requests) && t.status != PendingFinality && r in l.requests
    ensures var v, rs := Decide(l.requests, t), l.Plus(RecordChange(l, t, now, ids).delta).requests;
            && r in rs
            && rs[r].status == (if v.Settle? && v.requestId == r then StatusOf(v.status) else l.requests[r].status)
            && (v.Settle? && v.requestId == r ==> l.requests[r].status == AwaitingPayment)
  {
    var v := Decide(l.requests, t);
    DecideCandidate(l.requests, t);
    if v.Settle? { assert RequestOk(l.wallets, v.requestId, l.requests[v.requestId]); }
    hide RequestsOk, Decide, EventTable, SettlementEvents;
  }
}
