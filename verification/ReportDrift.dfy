/**
 What a stored report does not keep: the exceptions it shows are looked up again at every
 read. Which operations change them, exactly, and when a whole run leaves them alone.
 */
module ReportDrift {
  import opened Wrappers
  import opened Amounts
  import opened Models
  import opened LedgerModel
  import opened LedgerInvariant
  import opened LedgerPreservation
  import opened LedgerSteps
  import opened Matching
  import opened History
  import opened Reconciliation
  import opened StoreModel
  import opened ReportGlue

  // ---------- the condition ----------

  /** The call closes an open exception of its business. */
  predicate Closes(l: Ledger, op: LedgerOp) {
    && op.ResolveException? && op.reason != ""
    && op.exceptionId in l.exceptions && l.exceptions[op.exceptionId].businessId == op.businessId
    && l.exceptions[op.exceptionId].status == Open
  }

  /** The exception is one that a run over p may show once it is closed at this time. */
  predicate MayShow(p: Scope, l: Ledger, x: PaymentException, closedAt: Time) {
    && x.businessId == p.businessId && ExceptionInWallet(p, l.requests, l.transactions, x)
    && (InPeriod(p, x.createdAt) || InPeriod(p, closedAt))
  }

  /** The transaction that an ingestion stores. */
  function Payment(op: LedgerOp): StablecoinTransaction
    requires op.Ingest?
  {
    NewTransaction(op.businessId, op.evidence, op.pick, op.now, op.ids.transaction)
  }

  /** The call records a new payment: the evidence is valid, a wallet receives it, its signature is unused. */
  predicate Stores(l: Ledger, op: LedgerOp) {
    && op.Ingest? && ValidEvidence(op.evidence)
    && op.pick in l.wallets && Receives(l.wallets[op.pick], op.businessId, op.evidence)
    && SignatureScope(op.businessId, op.evidence.chain, op.evidence.signature) !in l.signatures
  }

  /** The call records a new, finalized payment that no request in time equals alone. */
  ghost predicate Raises(l: Ledger, op: LedgerOp) {
    && Stores(l, op) && op.evidence.confirmationStatus == "finalized"
    && forall r :: r in l.requests ==> !OnlyEqual(l.requests, Payment(op), r)
  }

  /** What the call would have to be to change the exceptions that a report of p shows. */
  ghost predicate Disturbs(l: Ledger, op: LedgerOp, p: Scope) {
    || (Closes(l, op) && MayShow(p, l, l.exceptions[op.exceptionId], op.now))
    || (Raises(l, op) && op.businessId == p.businessId && Includes(p, op.pick) && InPeriod(p, op.now))
  }

  // ---------- coverage does not change under an exception ----------

  /** The records an exception names are stored. */
  predicate Grounded(l: Ledger, x: PaymentException) {
    && x.transactionId in l.transactions
    && (x.requestId != "" ==> x.requestId in l.requests)
  }

  lemma ExceptionsGrounded(l: Ledger)
    requires Inv(l)
    ensures forall e :: e in l.exceptions ==> l.exceptions[e].id == e && Grounded(l, l.exceptions[e])
    ensures forall e :: e in l.exceptions ==> (l.exceptions[e].status == Resolved <==> l.exceptions[e].resolvedAt.Some?)
  {
    assert ExceptionsOk(l.requests, l.transactions, l.matches, l.exceptions);
    hide Inv;
    forall e | e in l.exceptions
      ensures l.exceptions[e].id == e && Grounded(l, l.exceptions[e])
      ensures l.exceptions[e].status == Resolved <==> l.exceptions[e].resolvedAt.Some?
    {
      assert ExceptionOk(l.requests, l.transactions, l.matches, e, l.exceptions[e]);
    }
  }

  ghost predicate Covered(p: Scope, l: Ledger, x: PaymentException) {
    CoversException(p, l.requests, l.transactions, x)
  }

  /** Records never change wallets, so a run covers an exception as long as it stays as it is. */
  lemma CoverageIsKept(p: Scope, l: Ledger, l': Ledger, x: PaymentException)
    requires Evolves(l, l') && Grounded(l, x)
    ensures Covered(p, l, x) <==> Covered(p, l', x)
  {
    assert x.transactionId in l'.transactions && l'.transactions[x.transactionId] == l.transactions[x.transactionId];
    if x.requestId != "" {
      assert RequestEvolves(l.requests[x.requestId], l'.requests[x.requestId]);
    }
    hide Evolves, InPeriod;
  }

  lemma ShownIs(l: Ledger, p: Scope, x: PaymentException)
    requires forall e :: e in l.exceptions ==> l.exceptions[e].id == e
    ensures x in ShownExceptions(l, p) <==> x.id in l.exceptions && l.exceptions[x.id] == x && Covered(p, l, x)
  {
    hide CoversException;
  }

  // ---------- one step ----------

  /** Exceptions left alone are shown as before. */
  lemma QuietStep(l: Ledger, l': Ledger, p: Scope)
    requires Inv(l) && Evolves(l, l') && l'.exceptions == l.exceptions
    ensures ShownExceptions(l', p) == ShownExceptions(l, p)
  {
    hide *;
    ExceptionsGrounded(l);
    forall x ensures x in ShownExceptions(l', p) <==> x in ShownExceptions(l, p) {
      ShownIs(l, p, x);
      ShownIs(l', p, x);
      if x.id in l.exceptions && l.exceptions[x.id] == x { CoverageIsKept(p, l, l', x); }
    }
  }

  /** An exception added is shown if and only if the run covers it; the others are shown as before. */
  lemma AddingStep(l: Ledger, l': Ledger, p: Scope, x: PaymentException)
    requires Inv(l) && Evolves(l, l') && l'.exceptions == l.exceptions[x.id := x] && x.id !in l.exceptions
    ensures ShownExceptions(l', p) != ShownExceptions(l, p) <==> Covered(p, l', x)
  {
    hide *;
    ExceptionsGrounded(l);
    forall y | y != x ensures y in ShownExceptions(l', p) <==> y in ShownExceptions(l, p) {
      ShownIs(l, p, y);
      ShownIs(l', p, y);
      if y.id in l.exceptions && l.exceptions[y.id] == y { CoverageIsKept(p, l, l', y); }
    }
    ShownIs(l, p, x);
    ShownIs(l', p, x);
  }

  /** An exception replaced changes what is shown if and only if the run covers it before or after. */
  lemma ReplacingStep(l: Ledger, l': Ledger, p: Scope, x: PaymentException)
    requires Inv(l) && Evolves(l, l') && l'.exceptions == l.exceptions[x.id := x]
    requires x.id in l.exceptions && l.exceptions[x.id] != x
    ensures ShownExceptions(l', p) != ShownExceptions(l, p) <==> Covered(p, l', x) || Covered(p, l, l.exceptions[x.id])
  {
    hide *;
    ExceptionsGrounded(l);
    var before := l.exceptions[x.id];
    forall y | y != x && y != before ensures y in ShownExceptions(l', p) <==> y in ShownExceptions(l, p) {
      ShownIs(l, p, y);
      ShownIs(l', p, y);
      if y.id in l.exceptions && l.exceptions[y.id] == y { CoverageIsKept(p, l, l', y); }
    }
    ShownIs(l, p, x);
    ShownIs(l', p, x);
    ShownIs(l, p, before);
    ShownIs(l', p, before);
  }

  // ---------- what each operation does to the exceptions ----------

  lemma OtherCallsAreQuiet(l: Ledger, op: LedgerOp)
    requires !Closes(l, op) && !Stores(l, op)
    ensures Step(l, op).exceptions == l.exceptions
  {
    MergeEmpty(l.exceptions, Perform(l, op).delta.exceptions);
    hide ValidEvidence, ValidBody, ValidAddress, RecordChange, SameEvidence;
  }

  lemma ClosingTables(l: Ledger, op: LedgerOp)
    requires Closes(l, op)
    ensures Step(l, op).exceptions
         == l.exceptions[op.exceptionId := Closed(l.exceptions[op.exceptionId], op.actorId, op.reason, op.now)]
  {
    MergeOne(l.exceptions, op.exceptionId, Closed(l.exceptions[op.exceptionId], op.actorId, op.reason, op.now));
  }

  /** Closed, an exception is covered exactly when it may show; before, it is covered only then. */
  lemma ClosedIsCovered(p: Scope, l: Ledger, l': Ledger, x: PaymentException, op: LedgerOp)
    requires op.ResolveException? && x.resolvedAt == None && Evolves(l, l') && Grounded(l, x)
    ensures Covered(p, l', Closed(x, op.actorId, op.reason, op.now)) <==> MayShow(p, l, x, op.now)
    ensures Covered(p, l, x) ==> MayShow(p, l, x, op.now)
  {
    CoverageIsKept(p, l, l', Closed(x, op.actorId, op.reason, op.now));
    hide InPeriod, Evolves;
  }

  lemma ClosingChangesReports(l: Ledger, op: LedgerOp, p: Scope)
    requires Inv(l) && Admissible(l, op) && Closes(l, op)
    ensures ShownExceptions(Step(l, op), p) != ShownExceptions(l, p) <==>
            MayShow(p, l, l.exceptions[op.exceptionId], op.now)
  {
    hide Inv, Admissible, Step, Evolves, Covered, MayShow, ShownExceptions, Grounded;
    ClosingTables(l, op);
    ExceptionsGrounded(l);
    StepEvolves(l, op);
    var x := l.exceptions[op.exceptionId];
    ClosedIsCovered(p, l, Step(l, op), x, op);
    ReplacingStep(l, Step(l, op), p, Closed(x, op.actorId, op.reason, op.now));
  }

  /** The exception that recording a payment raises, if any, is the one its answer names. */
  lemma RecordRaises(l: Ledger, t: StablecoinTransaction, now: Clock, ids: IngestIds)
    requires RequestsOk(l.wallets, l.requests)
    ensures var c := RecordChange(l, t, now, ids);
            && c.result.Success? && c.result.value.Ingested?
            && var x := c.result.value.exception;
               && c.delta.exceptions == (if x.Some? then map[ids.exception := x.value] else map[])
               && (x.None? <==> t.status == PendingFinality
                                || (Decide(l.requests, t).Settle? && Decide(l.requests, t).status == ExactMatch))
               && (x.Some? ==> x.value.id == ids.exception && x.value.businessId == t.businessId
                               && x.value.transactionId == t.id && x.value.createdAt == now
                                  && x.value.resolvedAt == None
                               && (x.value.requestId != "" ==> x.value.requestId in l.requests
                                                               && l.requests[x.value.requestId].walletId == t.walletId))
  {
    DecideCandidate(l.requests, t);
    if Decide(l.requests, t).Settle? {
      var r := Decide(l.requests, t).requestId;
      assert RequestOk(l.wallets, r, l.requests[r]);
    }
    hide RequestsOk, Decide, EventTable, SettlementEvents, Compare;
  }

  /** No request equals the payment alone exactly when the verdict is not an exact match. */
  lemma ExactOrNot(l: Ledger, t: StablecoinTransaction)
    requires Inv(l) && Valid(t.amount)
    ensures Decide(l.requests, t).Settle? && Decide(l.requests, t).status == ExactMatch <==>
            exists r :: r in l.requests && OnlyEqual(l.requests, t, r)
  {
    hide Inv, Decide, OnlyEqual, Readable;
    InvReadable(l, t);
    forall r | r in l.requests ensures Decide(l.requests, t) == Settle(r, ExactMatch) <==> OnlyEqual(l.requests, t, r) {
      ConfirmsExactly(l.requests, t, r);
    }
  }

  lemma StoringRecords(l: Ledger, op: LedgerOp)
    requires Stores(l, op)
    ensures Perform(l, op) == RecordChange(l, Payment(op), op.now, op.ids)
    ensures Valid(Payment(op).amount)
    ensures (Payment(op).status == PendingFinality <==> op.evidence.confirmationStatus != "finalized")
    ensures Payment(op).walletId == op.pick && Payment(op).id == op.ids.transaction
    ensures Payment(op).businessId == op.businessId
  {
    hide RecordChange;
  }

  /** A stored payment keeps its wallet through the step that stores it. */
  lemma StoredWallet(l: Ledger, op: LedgerOp)
    requires Stores(l, op)
    ensures op.ids.transaction in Step(l, op).transactions
    ensures Step(l, op).transactions[op.ids.transaction].walletId == op.pick
  {
    hide ValidEvidence, Decide, EventTable, SettlementEvents, SignatureScope, Receives;
  }

  /** A raised exception is covered by the runs that cover its wallet and time. */
  lemma RaisedIsCovered(p: Scope, l: Ledger, l': Ledger, x: PaymentException, wallet: Id)
    requires Evolves(l, l') && x.transactionId != "" && x.resolvedAt == None
    requires x.transactionId in l'.transactions && l'.transactions[x.transactionId].walletId == wallet
    requires x.requestId != "" ==> x.requestId in l.requests && l.requests[x.requestId].walletId == wallet
    ensures Covered(p, l', x) <==> x.businessId == p.businessId && Includes(p, wallet) && InPeriod(p, x.createdAt)
  {
    if x.requestId != "" { assert RequestEvolves(l.requests[x.requestId], l'.requests[x.requestId]); }
    hide Evolves, InPeriod;
  }

  lemma StoringRaises(l: Ledger, op: LedgerOp)
    requires Inv(l) && Stores(l, op)
    ensures var r := Perform(l, op).result;
            && r.Success? && r.value.Ingested?
            && var x := r.value.exception;
               && (x.Some? <==> Raises(l, op))
               && Step(l, op).exceptions ==
                  (if x.Some? then l.exceptions[op.ids.exception := x.value] else l.exceptions)
               && (x.Some? ==> x.value.id == op.ids.exception && x.value.businessId == op.businessId
                               && x.value.transactionId == op.ids.transaction && x.value.createdAt == op.now
                               && x.value.resolvedAt == None
                               && (x.value.requestId != "" ==> x.value.requestId in l.requests
                                                               && l.requests[x.value.requestId].walletId == op.pick))
  {
    RequestsAreOk(l);
    hide Inv, RecordChange, Decide, OnlyEqual, Stores, RequestsOk, Payment, Perform;
    StoringRecords(l, op);
    RecordRaises(l, Payment(op), op.now, op.ids);
    ExactOrNot(l, Payment(op));
    var x := Perform(l, op).result.value.exception;
    if x.Some? { MergeOne(l.exceptions, op.ids.exception, x.value); } else { MergeEmpty(l.exceptions, map[]); }
  }

  lemma RequestsAreOk(l: Ledger)
    requires Inv(l)
    ensures RequestsOk(l.wallets, l.requests)
  {
  }

  lemma StoringChangesReports(l: Ledger, op: LedgerOp, p: Scope)
    requires Inv(l) && Admissible(l, op) && Stores(l, op)
    ensures ShownExceptions(Step(l, op), p) != ShownExceptions(l, p) <==>
            Raises(l, op) && op.businessId == p.businessId && Includes(p, op.pick) && InPeriod(p, op.now)
  {
    var l' := Step(l, op);
    FreshIds(l, op);
    hide *;
    StoringRaises(l, op);
    StepEvolves(l, op);
    StoredWallet(l, op);
    var x := Perform(l, op).result.value.exception;
    if x.Some? {
      RaisedIsCovered(p, l, l', x.value, op.pick);
      AddingStep(l, l', p, x.value);
    } else {
      QuietStep(l, l', p);
    }
  }

  lemma FreshIds(l: Ledger, op: LedgerOp)
    requires Admissible(l, op) && Stores(l, op)
    ensures op.Ingest? && op.ids.exception !in l.exceptions && op.ids.transaction != ""
  {
  }

  /**
   The exceptions that a report of p shows change in a step exactly when the step closes
   an exception the report may show, or records a finalized payment in the report's
   business, wallet and period that no request in time equals alone.
   */
  lemma ReportsChangeExactly(l: Ledger, op: LedgerOp, p: Scope)
    requires Inv(l) && Admissible(l, op)
    ensures ShownExceptions(Step(l, op), p) != ShownExceptions(l, p) <==> Disturbs(l, op, p)
  {
    hide Inv, Admissible, Step, ShownExceptions, MayShow, Includes, InPeriod;
    if Closes(l, op) {
      ClosingChangesReports(l, op, p);
    } else if Stores(l, op) {
      StoringChangesReports(l, op, p);
    } else {
      OtherCallsAreQuiet(l, op);
      StepEvolves(l, op);
      QuietStep(l, Step(l, op), p);
    }
  }

  // ---------- whole runs ----------

  /** An exception that is back as it was has never moved. */
  lemma NoReturn(l: Ledger, l1: Ledger, l2: Ledger, e: Id)
    requires Evolves(l, l1) && Evolves(l1, l2) && e in l.exceptions
    ensures e in l1.exceptions && e in l2.exceptions
    ensures l2.exceptions[e] == l.exceptions[e] ==> l1.exceptions[e] == l.exceptions[e]
  {
    assert ExceptionEvolves(l.exceptions[e], l1.exceptions[e]) && ExceptionEvolves(l1.exceptions[e], l2.exceptions[e]);
  }

  /** A covered exception stays covered, open or closed. */
  lemma StaysCovered(l: Ledger, l': Ledger, p: Scope, e: Id)
    requires Inv(l) && Evolves(l, l') && e in l.exceptions && Covered(p, l, l.exceptions[e])
    ensures e in l'.exceptions && Covered(p, l', l'.exceptions[e])
  {
    ExceptionsGrounded(l);
    assert ExceptionEvolves(l.exceptions[e], l'.exceptions[e]);
    CoverageIsKept(p, l, l', l.exceptions[e]);
    CoverageIsKept(p, l, l', l'.exceptions[e]);
    hide Inv, Evolves, ExceptionInWallet, InPeriod;
  }

  /** Once the exceptions a report shows have changed, they never come back to what they were. */
  lemma ChangesStay(l: Ledger, l1: Ledger, l2: Ledger, p: Scope)
    requires Inv(l) && Inv(l1) && Inv(l2) && Evolves(l, l1) && Evolves(l1, l2)
    requires ShownExceptions(l2, p) == ShownExceptions(l, p)
    ensures ShownExceptions(l1, p) == ShownExceptions(l, p)
  {
    hide *;
    ExceptionsGrounded(l);
    ExceptionsGrounded(l1);
    ExceptionsGrounded(l2);
    forall x ensures x in ShownExceptions(l1, p) <==> x in ShownExceptions(l, p) {
      ShownIs(l, p, x);
      ShownIs(l1, p, x);
      ShownIs(l2, p, x);
      if x in ShownExceptions(l, p) {
        NoReturn(l, l1, l2, x.id);
        CoverageIsKept(p, l, l1, x);
      }
      if x in ShownExceptions(l1, p) {
        StaysCovered(l1, l2, p, x.id);
        var z := l2.exceptions[x.id];
        ShownIs(l2, p, z);
        ShownIs(l, p, z);
        NoReturn(l, l1, l2, x.id);
      }
    }
  }

  /** Some call of the run disturbs the report at the time it is made. */
  ghost predicate DisturbsRun(l: Ledger, ops: seq<LedgerOp>, p: Scope) {
    exists i :: 0 <= i < |ops| && Disturbs(Run(l, ops[..i]), ops[i], p)
  }

  lemma DisturbsPrefix(l: Ledger, ops: seq<LedgerOp>, p: Scope)
    requires ops != []
    ensures var n := |ops| - 1;
            DisturbsRun(l, ops, p) <==> DisturbsRun(l, ops[..n], p) || Disturbs(Run(l, ops[..n]), ops[n], p)
  {
    hide Disturbs, Run;
    var n := |ops| - 1;
    forall i | 0 <= i < n ensures ops[..n][..i] == ops[..i] && ops[..n][i] == ops[i] {
    }
    if i :| 0 <= i < |ops| && Disturbs(Run(l, ops[..i]), ops[i], p) {
      assert i == n || Disturbs(Run(l, ops[..n][..i]), ops[..n][i], p);
    }
    if i :| 0 <= i < n && Disturbs(Run(l, ops[..n][..i]), ops[..n][i], p) {
      assert Disturbs(Run(l, ops[..i]), ops[i], p);
    }
  }

  /** Over whole runs: a report shows other exceptions than before exactly when some call of the run disturbed it. */
  lemma {:induction false} RunsChangeExactly(l: Ledger, ops: seq<LedgerOp>, p: Scope)
    requires Inv(l) && AdmissibleRun(l, ops)
    ensures ShownExceptions(Run(l, ops), p) != ShownExceptions(l, p) <==> DisturbsRun(l, ops, p)
    decreases |ops|
  {
    hide Inv, Admissible, Step, ShownExceptions, Disturbs, DisturbsRun, Evolves;
    if ops == [] {
      NothingDisturbs(l, p);
    } else {
      var n := |ops| - 1;
      var mid := Run(l, ops[..n]);
      RunsChangeExactly(l, ops[..n], p);
      DisturbsPrefix(l, ops, p);
      RunEvolves(l, ops[..n]);
      RunKeepsInv(l, ops[..n]);
      ReportsChangeExactly(mid, ops[n], p);
      RunKeepsInv(l, ops);
      StepEvolves(mid, ops[n]);
      if ShownExceptions(Run(l, ops), p) == ShownExceptions(l, p) {
        ChangesStay(l, mid, Run(l, ops), p);
      }
    }
  }

  lemma NothingDisturbs(l: Ledger, p: Scope)
    ensures !DisturbsRun(l, [], p)
  {
    hide Disturbs;
  }

  /**
   Reading a stored run back shows the exceptions it showed at first exactly when no
   payment call since has disturbed it, whatever else the store did in between.
   */
  lemma StoredExceptionsDriftExactly(s: Store, ops: seq<StoreOp>, p: Scope)
    requires Inv(s.ledger) && PossibleRun(s, ops)
    ensures ShownExceptions(RunStore(s, ops).ledger, p) == ShownExceptions(s.ledger, p) <==>
            !DisturbsRun(s.ledger, LedgerOps(ops), p)
  {
    hide Inv, ShownExceptions, DisturbsRun, Run, AdmissibleRun, RunStore, PossibleRun;
    LedgerIgnoresWebhooks(s, ops);
    RunsChangeExactly(s.ledger, LedgerOps(ops), p);
  }
}
