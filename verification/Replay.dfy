/** Repeated calls: idempotency keys and transaction signatures are used once. */
module Replay {
  import opened Wrappers
  import opened Amounts
  import opened Models
  import opened LedgerModel
  import opened LedgerInvariant
  import opened LedgerSteps
  import opened History

  // ---------- runs ----------

  lemma {:induction false} RunConcat(l: Ledger, a: seq<LedgerOp>, b: seq<LedgerOp>)
    ensures Run(l, a + b) == Run(Run(l, a), b)
    ensures AdmissibleRun(l, a + b) <==> AdmissibleRun(l, a) && AdmissibleRun(Run(l, a), b)
    decreases |b|
  {
    hide Step, Admissible;
    if b == [] {
      assert a + b == a;
    } else {
      var n := |b| - 1;
      assert (a + b)[..|a + b| - 1] == a + b[..n];
      RunConcat(l, a, b[..n]);
    }
  }

  lemma RunOne(l: Ledger, op: LedgerOp)
    ensures Run(l, [op]) == Step(l, op)
    ensures AdmissibleRun(l, [op]) <==> Admissible(l, op)
  {
    hide Step, Admissible;
    assert [op][..0] == [];
    assert Run(l, []) == l;
  }

  // ---------- keys ----------

  /** What makes a later call a repetition of an earlier one. */
  datatype Key = NoKey | IdempotencyKey(scope: string) | SignatureKey(scope: string)

  function KeyOf(op: LedgerOp): Key {
    match op
    case CreateRequest(b, key, _, _, _, _, _) => IdempotencyKey(IdempotencyScope(b, key))
    case Ingest(b, e, _, _, _) => SignatureKey(SignatureScope(b, e.chain, e.signature))
    case _ => NoKey
  }

  predicate Used(l: Ledger, key: Key) {
    match key
    case NoKey => false
    case IdempotencyKey(s) => s in l.idempotency
    case SignatureKey(s) => s in l.signatures
  }

  /** The call was carried out rather than refused or answered from an earlier one. */
  ghost predicate Accepted(l: Ledger, op: LedgerOp) {
    KeyOf(op) != NoKey && Perform(l, op).result.Success? && !Perform(l, op).result.value.replayed
  }

  lemma AcceptedUsesKey(l: Ledger, op: LedgerOp)
    requires Accepted(l, op)
    ensures !Used(l, KeyOf(op)) && Used(Step(l, op), KeyOf(op))
  {
    match op {
      case Ingest(b, e, pick, now, ids) =>
        var t := NewTransaction(b, e, pick, now, ids.transaction);
        assert Perform(l, op) == RecordChange(l, t, now, ids);
        hide Perform, ValidEvidence, SignatureScope;
        RecordUsesScope(l, t, now, ids);
      case CreateRequest(_, _, _, _, _, _, _) =>
    }
  }

  lemma RecordUsesScope(l: Ledger, t: StablecoinTransaction, now: Clock, ids: IngestIds)
    ensures ScopeOf(t) in RecordChange(l, t, now, ids).delta.signatures
  {
    hide Decide;
  }

  /** A call whose key is in use writes nothing. */
  lemma UsedKeyChangesNothing(l: Ledger, op: LedgerOp)
    requires Used(l, KeyOf(op))
    ensures Step(l, op) == l && Perform(l, op).emitted == []
  {
    PlusEmpty(l);
    hide Ledger.Plus, ValidEvidence, ValidBody;
  }

  lemma UsedKeysStayUsed(l: Ledger, ops: seq<LedgerOp>, key: Key)
    requires Inv(l) && AdmissibleRun(l, ops) && Used(l, key)
    ensures Used(Run(l, ops), key)
  {
    RunEvolves(l, ops);
    hide Inv, AdmissibleRun, Run;
    EvolvesIndexes(l, Run(l, ops));
  }

  lemma EvolvesIndexes(l: Ledger, l': Ledger)
    requires Evolves(l, l')
    ensures Kept(l.idempotency, l'.idempotency) && Kept(l.signatures, l'.signatures)
  {
  }

  // ---------- repeated creates ----------

  /**
   What a repeated create returns after an accepted one, at any later time. The
   documentation promises the original request for the same key and body; the code
   returns it exactly until the request's expiry, because the body is validated against
   the clock before the key is looked up.
   */
  lemma RepeatedCreate(l: Ledger, first: LedgerOp, ops: seq<LedgerOp>, again: LedgerOp)
    requires Inv(l) && Admissible(l, first) && first.CreateRequest? && Accepted(l, first)
    requires AdmissibleRun(Step(l, first), ops)
    requires again.CreateRequest? && again.businessId == first.businessId && again.key == first.key
    ensures var l' := Run(Step(l, first), ops);
            && Step(l', again) == l'
            && first.requestId in l'.requests
            && (Perform(l', again).result == Success(RequestStored(l'.requests[first.requestId], true))
                <==> again.body == first.body && again.readAt < first.body.expiresAt)
            && (again.body == first.body && again.readAt >= first.body.expiresAt ==>
                Perform(l', again).result == Failure(InvalidArgument))
            && (again.body != first.body && ValidBody(again.body, again.readAt) ==>
                Perform(l', again).result == Failure(Conflict))
  {
    StepKeepsInv(l, first);
    var mid := Step(l, first);
    var l' := Run(mid, ops);
    var scope := IdempotencyScope(first.businessId, first.key);
    assert scope in mid.idempotency && mid.idempotency[scope] == IdempotencyRecord(first.body, first.requestId)
           && ValidTerms(first.body) by {
      CreateWrites(l, first);
    }
    RunEvolves(mid, ops);
    EvolvesIndexes(mid, l');
    RunKeepsInv(mid, ops);
    RecordInInv(l', scope);
    hide Inv, Step, Run, AdmissibleRun, Admissible, Accepted, Evolves, ValidTerms, IdempotencyScope;
    PlusEmpty(l');
    RepeatedLookup(l', first.body, first.requestId, again);
  }

  lemma CreateWrites(l: Ledger, op: LedgerOp)
    requires op.CreateRequest? && Accepted(l, op)
    ensures var scope := IdempotencyScope(op.businessId, op.key);
            && scope in Step(l, op).idempotency
            && Step(l, op).idempotency[scope] == IdempotencyRecord(op.body, op.requestId)
            && ValidTerms(op.body) && op.key != "" && |op.key| <= 160
  {
    hide Valid;
  }

  lemma RecordInInv(l: Ledger, scope: string)
    requires Inv(l) && scope in l.idempotency
    ensures l.idempotency[scope].requestId in l.requests
  {
    assert RecordOk(l.requests, scope, l.idempotency[scope]);
  }

  lemma RepeatedLookup(l: Ledger, body: RequestBody, requestId: Id, again: LedgerOp)
    requires again.CreateRequest? && again.key != "" && |again.key| <= 160 && ValidTerms(body)
    requires var scope := IdempotencyScope(again.businessId, again.key);
             scope in l.idempotency && l.idempotency[scope] == IdempotencyRecord(body, requestId)
    requires requestId in l.requests
    ensures Step(l, again) == l
    ensures Perform(l, again).result == Success(RequestStored(l.requests[requestId], true)) <==>
            again.body == body && again.readAt < body.expiresAt
    ensures again.body == body && again.readAt >= body.expiresAt ==>
            Perform(l, again).result == Failure(InvalidArgument)
    ensures again.body != body && ValidBody(again.body, again.readAt) ==> Perform(l, again).result == Failure(Conflict)
  {
    PlusEmpty(l);
    hide ValidTerms, Ledger.Plus;
  }

  // ---------- repeated ingests ----------

  /** Some wallet receives the payment. */
  ghost predicate Received(l: Ledger, op: LedgerOp)
    requires op.Ingest?
  {
    exists w | w in l.wallets :: Receives(l.wallets[w], op.businessId, op.evidence)
  }

  /**
   Ingesting an accepted signature again, at any later time, changes nothing. It returns
   the stored transaction exactly when the evidence is valid and agrees with it on the
   atomic amount, the destination and the mint; other valid evidence is a conflict, or
   is not found when no wallet receives it.
   */
  lemma RepeatedIngest(l: Ledger, first: LedgerOp, ops: seq<LedgerOp>, again: LedgerOp)
    requires Inv(l) && Admissible(l, first) && first.Ingest? && Accepted(l, first)
    requires AdmissibleRun(Step(l, first), ops)
    requires again.Ingest? && again.businessId == first.businessId
    requires again.evidence.chain == first.evidence.chain && again.evidence.signature == first.evidence.signature
    requires Admissible(Run(Step(l, first), ops), again)
    ensures var l' := Run(Step(l, first), ops);
            && Step(l', again) == l'
            && first.ids.transaction in l'.transactions
            && first.ids.transaction in Step(l, first).transactions
            && l'.transactions[first.ids.transaction] == Step(l, first).transactions[first.ids.transaction]
            && var stored := l'.transactions[first.ids.transaction];
               && SameEvidence(stored, first.evidence)
               && (Perform(l', again).result == Success(Ingested(stored, None, None, true))
                   <==> ValidEvidence(again.evidence) && SameEvidence(stored, again.evidence))
               && (!ValidEvidence(again.evidence) ==> Perform(l', again).result == Failure(InvalidArgument))
               && (ValidEvidence(again.evidence) && !SameEvidence(stored, again.evidence) ==>
                     Perform(l', again).result == Failure(if Received(l', again) then Conflict else NotFound))
  {
    assert KeyOf(again) == KeyOf(first);
    hide Inv, Admissible, AdmissibleRun, Run, Step, Accepted, Evolves, KeyOf, Used, Perform, ValidEvidence,
         SameEvidence, Receives;
    var mid := Step(l, first);
    var l' := Run(mid, ops);
    var t := NewTransaction(first.businessId, first.evidence, first.pick, first.now, first.ids.transaction);
    IngestWrites(l, first);
    AcceptedUsesKey(l, first);
    StepKeepsInv(l, first);
    RunEvolves(mid, ops);
    StepEvolves(l, first);
    EvolvesTransitive(l, mid, l');
    UsedKeysStayUsed(mid, ops, KeyOf(first));
    UsedKeyChangesNothing(l', again);
    StoredEvidence(l, mid, l', first, again, t);
  }

  lemma IngestWrites(l: Ledger, op: LedgerOp)
    requires op.Ingest? && Accepted(l, op)
    ensures var t, mid := NewTransaction(op.businessId, op.evidence, op.pick, op.now, op.ids.transaction), Step(l, op);
            && t.id in mid.transactions && SameEvidence(mid.transactions[t.id], op.evidence)
            && ScopeOf(t) in mid.signatures && mid.signatures[ScopeOf(t)] == t.id
            && ScopeOf(t) == SignatureScope(op.businessId, op.evidence.chain, op.evidence.signature)
            && ValidEvidence(op.evidence)
            && op.pick in l.wallets && Receives(l.wallets[op.pick], op.businessId, op.evidence)
  {
    var t := NewTransaction(op.businessId, op.evidence, op.pick, op.now, op.ids.transaction);
    assert Perform(l, op) == RecordChange(l, t, op.now, op.ids);
    hide Perform, ValidEvidence, SignatureScope;
    RecordWrites(l, t, op.now, op.ids);
    hide RecordChange;
  }

  lemma RecordWrites(l: Ledger, t: StablecoinTransaction, now: Clock, ids: IngestIds)
    ensures var d := RecordChange(l, t, now, ids).delta;
            && t.id in d.transactions && d.transactions[t.id] == t.(status := d.transactions[t.id].status)
            && ScopeOf(t) in d.signatures && d.signatures[ScopeOf(t)] == t.id
  {
    hide Decide, EventTable, SettlementEvents, ScopeOf;
  }

  lemma StoredEvidence(l: Ledger, mid: Ledger, l': Ledger, first: LedgerOp, again: LedgerOp, t: StablecoinTransaction)
    requires Evolves(mid, l') && Evolves(l, l')
    requires first.Ingest? && again.Ingest? && again.businessId == first.businessId
    requires again.evidence.chain == first.evidence.chain && again.evidence.signature == first.evidence.signature
    requires t.id in mid.transactions && SameEvidence(mid.transactions[t.id], first.evidence)
    requires ScopeOf(t) == SignatureScope(first.businessId, first.evidence.chain, first.evidence.signature)
    requires ScopeOf(t) in mid.signatures && mid.signatures[ScopeOf(t)] == t.id
    requires ValidEvidence(first.evidence)
    requires first.pick in l.wallets && Receives(l.wallets[first.pick], first.businessId, first.evidence)
    requires Admissible(l', again)
    ensures t.id in l'.transactions && l'.transactions[t.id] == mid.transactions[t.id]
    ensures var stored, result := l'.transactions[t.id], Perform(l', again).result;
            && (result == Success(Ingested(stored, None, None, true))
                <==> ValidEvidence(again.evidence) && SameEvidence(stored, again.evidence))
            && (!ValidEvidence(again.evidence) ==> result == Failure(InvalidArgument))
            && (ValidEvidence(again.evidence) && !SameEvidence(stored, again.evidence) ==>
                  result == Failure(if Received(l', again) then Conflict else NotFound))
  {
    assert l'.wallets[first.pick] == l.wallets[first.pick];
    assert l'.signatures[ScopeOf(t)] == t.id && l'.transactions[t.id] == mid.transactions[t.id];
    hide Evolves, ValidEvidence, SignatureScope;
    if SameEvidence(l'.transactions[t.id], again.evidence) {
      assert Receives(l'.wallets[first.pick], again.businessId, again.evidence);
    }
  }

  // ---------- whole traces ----------

  /** Some earlier accepted call of the trace had the same key. */
  ghost predicate Repeats(l: Ledger, ops: seq<LedgerOp>, i: nat)
    requires i < |ops|
  {
    exists j :: 0 <= j < i && KeyOf(ops[j]) == KeyOf(ops[i]) && Accepted(Run(l, ops[..j]), ops[j])
  }

  /** The trace without its repetitions. */
  ghost function WithoutRepeats(l: Ledger, ops: seq<LedgerOp>): seq<LedgerOp>
    decreases |ops|
  {
    if ops == [] then []
    else WithoutRepeats(l, ops[..|ops| - 1]) + (if Repeats(l, ops, |ops| - 1) then [] else [ops[|ops| - 1]])
  }

  lemma CutAt<T>(s: seq<T>, j: nat, i: nat)
    requires j < i <= |s|
    ensures s == s[..i] + s[i..]
    ensures s[..i] == s[..j] + ([s[j]] + s[j + 1..i])
  {
  }

  lemma RepeatIsUsed(l: Ledger, ops: seq<LedgerOp>, i: nat)
    requires Inv(l) && AdmissibleRun(l, ops) && i < |ops| && Repeats(l, ops, i)
    ensures Used(Run(l, ops[..i]), KeyOf(ops[i]))
  {
    var j :| 0 <= j < i && KeyOf(ops[j]) == KeyOf(ops[i]) && Accepted(Run(l, ops[..j]), ops[j]);
    var head := ops[..j];
    CutAt(ops, j, i);
    RunConcat(l, ops[..i], ops[i..]);
    hide Inv, Accepted, Step, Run, AdmissibleRun, Used, KeyOf, Repeats, Admissible;
    var rest := ops[j + 1..i];
    RunConcat(l, head, [ops[j]] + rest);
    var at := Run(l, head);
    RunConcat(at, [ops[j]], rest);
    RunOne(at, ops[j]);
    RunKeepsInv(l, head);
    AcceptedUsesKey(at, ops[j]);
    StepKeepsInv(at, ops[j]);
    UsedKeysStayUsed(Step(at, ops[j]), rest, KeyOf(ops[i]));
  }

  /** Removing every repetition from a trace leaves it possible and leads to the same ledger. */
  lemma {:induction false} RepeatsCanBeRemoved(l: Ledger, ops: seq<LedgerOp>)
    requires Inv(l) && AdmissibleRun(l, ops)
    ensures AdmissibleRun(l, WithoutRepeats(l, ops)) && Run(l, WithoutRepeats(l, ops)) == Run(l, ops)
    decreases |ops|
  {
    hide Inv, Admissible, Step, Repeats;
    if ops != [] {
      var n := |ops| - 1;
      var kept := WithoutRepeats(l, ops[..n]);
      RepeatsCanBeRemoved(l, ops[..n]);
      if Repeats(l, ops, n) {
        RepeatIsUsed(l, ops, n);
        UsedKeyChangesNothing(Run(l, ops[..n]), ops[n]);
        assert kept + [] == kept;
      } else {
        RunConcat(l, kept, [ops[n]]);
        RunOne(Run(l, kept), ops[n]);
      }
    }
  }
}
