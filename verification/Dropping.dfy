/** Which calls of a history can be left out: exactly those that were not carried out. */
module Dropping {
  import opened Wrappers
  import opened Models
  import opened LedgerModel
  import opened LedgerInvariant
  import opened LedgerSteps
  import opened History
  import opened Replay

  // ---------- when a call is carried out ----------

  /** The call would be carried out if its key were unused. */
  ghost predicate Presentable(l: Ledger, op: LedgerOp) {
    match op
    case Ingest(b, e, _, _, _) => ValidEvidence(e) && exists w | w in l.wallets :: Receives(l.wallets[w], b, e)
    case CreateRequest(b, key, body, readAt, _, _, _) =>
      && key != "" && |key| <= 160 && ValidBody(body, readAt)
      && body.walletId in l.wallets && OpenWallet(l.wallets[body.walletId], b, body.chain)
    case _ => false
  }

  predicate OpenWallet(w: Wallet, businessId: Id, chain: string) {
    w.businessId == businessId && w.archivedAt.None? && w.chain == chain
  }

  /** A keyed call is carried out exactly when it is presentable and its key is unused; otherwise it changes nothing. */
  lemma AcceptedExactly(l: Ledger, op: LedgerOp)
    requires KeyOf(op) != NoKey && Admissible(l, op)
    ensures Accepted(l, op) <==> Presentable(l, op) && !Used(l, KeyOf(op))
    ensures Step(l, op) == l <==> !Presentable(l, op) || Used(l, KeyOf(op))
  {
    hide *;
    KeyedCalls(op);
    if op.Ingest? { IngestAccepted(l, op); } else { CreateAccepted(l, op); }
    if Accepted(l, op) { AcceptedUsesKey(l, op); }
  }

  lemma KeyedCalls(op: LedgerOp)
    ensures KeyOf(op) != NoKey <==> op.Ingest? || op.CreateRequest?
  {
  }

  lemma IngestAccepted(l: Ledger, op: LedgerOp)
    requires op.Ingest? && Admissible(l, op)
    ensures Accepted(l, op) <==> Presentable(l, op) && !Used(l, KeyOf(op))
    ensures !Accepted(l, op) ==> Step(l, op) == l
  {
    hide ValidEvidence, Receives, SignatureScope, RecordChange, SameEvidence, NewTransaction, Ledger.Plus, Distinct4;
    PlusEmpty(l);
    RecordAnswers(l, NewTransaction(op.businessId, op.evidence, op.pick, op.now, op.ids.transaction), op.now, op.ids);
  }

  lemma RecordAnswers(l: Ledger, t: StablecoinTransaction, now: Clock, ids: IngestIds)
    ensures var r := RecordChange(l, t, now, ids).result; r.Success? && r.value.Ingested? && !r.value.replayed
  {
    hide Decide;
  }

  lemma CreateAccepted(l: Ledger, op: LedgerOp)
    requires op.CreateRequest?
    ensures Accepted(l, op) <==> Presentable(l, op) && !Used(l, KeyOf(op))
    ensures !Accepted(l, op) ==> Step(l, op) == l
  {
    PlusEmpty(l);
    hide ValidBody, IdempotencyScope, NewRequest, Ledger.Plus;
  }

  // ---------- who holds a key ----------

  /** The record that the index finds under a key. */
  function HolderOf(l: Ledger, key: Key): Option<Id> {
    match key
    case NoKey => None
    case IdempotencyKey(s) => if s in l.idempotency then Some(l.idempotency[s].requestId) else None
    case SignatureKey(s) => if s in l.signatures then Some(l.signatures[s]) else None
  }

  /** The identifier of the record that a keyed call would make. */
  function NewId(op: LedgerOp): Id {
    match op
    case CreateRequest(_, _, _, _, _, id, _) => id
    case Ingest(_, _, _, _, ids) => ids.transaction
    case _ => ""
  }

  predicate Holds(l: Ledger, key: Key, id: Id) {
    match key
    case NoKey => false
    case IdempotencyKey(_) => id in l.requests
    case SignatureKey(_) => id in l.transactions
  }

  /** A call gives a key to its own record or leaves the key's holder alone. */
  lemma StepHolder(l: Ledger, op: LedgerOp, key: Key)
    ensures HolderOf(Step(l, op), key) == HolderOf(l, key)
            || (KeyOf(op) == key && HolderOf(Step(l, op), key) == Some(NewId(op)))
  {
    hide *;
    match op {
      case Ingest(_, _, _, _, _) => IngestIndexes(l, op);
      case CreateRequest(_, _, _, _, _, _, _) => CreateIndexes(l, op);
      case RegisterWallet(_, _, _, _, _, _) => OtherIndexes(l, op);
      case ResolveException(_, _, _, _, _, _) => OtherIndexes(l, op);
    }
    HolderIs(l, op, key);
  }

  lemma HolderIs(l: Ledger, op: LedgerOp, key: Key)
    requires IndexesMove(l, op)
    ensures HolderOf(Step(l, op), key) == HolderOf(l, key)
            || (KeyOf(op) == key && HolderOf(Step(l, op), key) == Some(NewId(op)))
  {
    hide Step, IdempotencyScope, SignatureScope;
  }

  /** An operation enters at most its own record, under its own key. */
  ghost predicate IndexesMove(l: Ledger, op: LedgerOp) {
    && (Step(l, op).idempotency == l.idempotency
        || (op.CreateRequest?
            && Step(l, op).idempotency
               == l.idempotency[IdempotencyScope(op.businessId, op.key) := IdempotencyRecord(op.body, op.requestId)]))
    && (Step(l, op).signatures == l.signatures
        || (op.Ingest?
            && Step(l, op).signatures
               == l.signatures[SignatureScope(op.businessId, op.evidence.chain,
                                              op.evidence.signature) := op.ids.transaction]))
  }

  lemma StepIndexes(l: Ledger, op: LedgerOp)
    ensures Step(l, op).idempotency == l.idempotency + Perform(l, op).delta.idempotency
    ensures Step(l, op).signatures == l.signatures + Perform(l, op).delta.signatures
  {
    hide Perform;
  }

  lemma IngestIndexes(l: Ledger, op: LedgerOp)
    requires op.Ingest?
    ensures IndexesMove(l, op)
  {
    hide ValidEvidence, Receives, RecordChange, SameEvidence, SignatureScope;
    var t := NewTransaction(op.businessId, op.evidence, op.pick, op.now, op.ids.transaction);
    RecordIndexes(l, t, op.now, op.ids);
    StepIndexes(l, op);
    MergeEmpty(l.idempotency, map[]);
    MergeEmpty(l.signatures, map[]);
    MergeOne(l.signatures, ScopeOf(t), t.id);
    hide Step;
  }

  lemma CreateIndexes(l: Ledger, op: LedgerOp)
    requires op.CreateRequest?
    ensures IndexesMove(l, op)
  {
    hide ValidBody, NewRequest, CreatedEvent, IdempotencyScope;
    StepIndexes(l, op);
    MergeEmpty(l.idempotency, map[]);
    MergeEmpty(l.signatures, map[]);
    MergeOne(l.idempotency, IdempotencyScope(op.businessId, op.key), IdempotencyRecord(op.body, op.requestId));
    hide Step;
  }

  lemma OtherIndexes(l: Ledger, op: LedgerOp)
    requires op.RegisterWallet? || op.ResolveException?
    ensures IndexesMove(l, op)
  {
    MergeEmpty(l.idempotency, map[]);
    MergeEmpty(l.signatures, map[]);
    hide ValidAddress, SameWallet;
  }

  lemma RecordIndexes(l: Ledger, t: StablecoinTransaction, now: Clock, ids: IngestIds)
    ensures var d := RecordChange(l, t, now, ids).delta;
            d.signatures == map[ScopeOf(t) := t.id] && d.idempotency == map[]
  {
    hide Decide, EventTable, SettlementEvents, ScopeOf;
  }

  /** Over a run, a key is held by whoever held it before or by the record of a call with that key. */
  lemma {:induction false} RunHolder(l: Ledger, ops: seq<LedgerOp>, key: Key)
    ensures HolderOf(Run(l, ops), key) == HolderOf(l, key)
            || exists i :: 0 <= i < |ops| && KeyOf(ops[i]) == key && HolderOf(Run(l, ops), key) == Some(NewId(ops[i]))
    decreases |ops|
  {
    hide Step, HolderOf, KeyOf, NewId;
    if ops != [] {
      var n := |ops| - 1;
      RunHolder(l, ops[..n], key);
      StepHolder(Run(l, ops[..n]), ops[n], key);
      if i :| 0 <= i < n && KeyOf(ops[..n][i]) == key && HolderOf(Run(l, ops[..n]), key) == Some(NewId(ops[..n][i])) {
        assert ops[..n][i] == ops[i];
      }
    }
  }

  /** A call that is carried out holds its key afterwards. */
  lemma AcceptedHolds(l: Ledger, op: LedgerOp)
    requires Accepted(l, op)
    ensures HolderOf(Step(l, op), KeyOf(op)) == Some(NewId(op)) && Holds(Step(l, op), KeyOf(op), NewId(op))
  {
    match op {
      case Ingest(_, _, _, _, _) =>
        IngestWrites(l, op);
        hide Perform, ValidEvidence, Step, Accepted, SameEvidence, Receives, SignatureScope;
      case CreateRequest(_, _, _, _, _, _, _) => hide ValidBody, CreatedEvent;
    }
  }

  /** And for ever. */
  lemma HoldersStay(l: Ledger, l': Ledger, key: Key, id: Id)
    requires Evolves(l, l') && HolderOf(l, key) == Some(id) && Holds(l, key, id)
    ensures HolderOf(l', key) == Some(id) && Holds(l', key, id)
  {
  }

  lemma NewIdsAreFresh(l: Ledger, op: LedgerOp)
    requires Admissible(l, op) && KeyOf(op) != NoKey
    ensures !Holds(l, KeyOf(op), NewId(op))
  {
  }

  // ---------- leaving a call out ----------

  /** No call of a possible run makes the record that already holds its key. */
  lemma OthersMakeOther(l: Ledger, ops: seq<LedgerOp>, key: Key, id: Id, i: nat)
    requires Inv(l) && AdmissibleRun(l, ops) && i < |ops| && KeyOf(ops[i]) == key != NoKey
    requires HolderOf(l, key) == Some(id) && Holds(l, key, id)
    ensures NewId(ops[i]) != id
  {
    hide Inv, Admissible, Run, AdmissibleRun, HolderOf, Holds, Evolves, KeyOf, NewId;
    assert ops == ops[..i] + ops[i..] && ops[i..] == [ops[i]] + ops[i + 1..];
    RunConcat(l, ops[..i], ops[i..]);
    RunConcat(Run(l, ops[..i]), [ops[i]], ops[i + 1..]);
    RunOne(Run(l, ops[..i]), ops[i]);
    RunEvolves(l, ops[..i]);
    HoldersStay(l, Run(l, ops[..i]), key, id);
    NewIdsAreFresh(Run(l, ops[..i]), ops[i]);
  }

  /** A keyed call can be left out of a history without changing where it leads exactly when it was not carried out. */
  lemma DropsExactly(l: Ledger, before: seq<LedgerOp>, op: LedgerOp, after: seq<LedgerOp>)
    requires Inv(l) && AdmissibleRun(l, before + [op] + after) && KeyOf(op) != NoKey
    ensures Run(l, before + after) == Run(l, before + [op] + after) <==> !Accepted(Run(l, before), op)
  {
    var at := Run(l, before);
    hide *;
    RunConcat(l, before + [op], after);
    RunConcat(l, before, [op]);
    RunOne(at, op);
    RunConcat(l, before, after);
    AcceptedExactly(at, op);
    if Accepted(at, op) {
      RunKeepsInv(l, before);
      StepKeepsInv(at, op);
      DroppedRecordIsMissed(at, op, after);
    }
  }

  /** Without a call that was carried out, its key ends up with another record or with none. */
  lemma DroppedRecordIsMissed(at: Ledger, op: LedgerOp, after: seq<LedgerOp>)
    requires Accepted(at, op) && KeyOf(op) != NoKey && Inv(Step(at, op)) && AdmissibleRun(Step(at, op), after)
    ensures HolderOf(Run(Step(at, op), after), KeyOf(op)) == Some(NewId(op)) != HolderOf(Run(at, after), KeyOf(op))
  {
    hide *;
    var mid, key := Step(at, op), KeyOf(op);
    AcceptedHolds(at, op);
    AcceptedUsesKey(at, op);
    RunEvolves(mid, after);
    HoldersStay(mid, Run(mid, after), key, NewId(op));
    UnusedHasNoHolder(at, key);
    RunHolder(at, after, key);
    forall i | 0 <= i < |after| && KeyOf(after[i]) == key ensures NewId(after[i]) != NewId(op) {
      OthersMakeOther(mid, after, key, NewId(op), i);
    }
  }

  lemma UnusedHasNoHolder(l: Ledger, key: Key)
    ensures HolderOf(l, key).Some? <==> Used(l, key)
  {
  }

  // ---------- from the empty store ----------

  /** In a history from the start, a key is in use exactly when some call with that key was carried out. */
  lemma {:induction false} UsedExactly(ops: seq<LedgerOp>, key: Key)
    requires AdmissibleRun(EMPTY, ops)
    ensures Used(Run(EMPTY, ops), key) <==>
            exists j :: 0 <= j < |ops| && KeyOf(ops[j]) == key && Accepted(Run(EMPTY, ops[..j]), ops[j])
    decreases |ops|
  {
    hide Admissible, Step, KeyOf, Used, Accepted, Inv;
    if ops == [] {
      NothingUsed(key);
    } else {
      var n := |ops| - 1;
      var mid := Run(EMPTY, ops[..n]);
      UsedExactly(ops[..n], key);
      EmptyInv();
      RunKeepsInv(EMPTY, ops[..n]);
      UsedNext(mid, ops[n], key);
      forall j | 0 <= j < n ensures ops[..n][..j] == ops[..j] && ops[..n][j] == ops[j] {
      }
      if j :| 0 <= j < |ops| && KeyOf(ops[j]) == key && Accepted(Run(EMPTY, ops[..j]), ops[j]) {
        assert j == n || (KeyOf(ops[..n][j]) == key && Accepted(Run(EMPTY, ops[..n][..j]), ops[..n][j]));
      }
      if j :| 0 <= j < n && KeyOf(ops[..n][j]) == key && Accepted(Run(EMPTY, ops[..n][..j]), ops[..n][j]) {
        assert KeyOf(ops[j]) == key && Accepted(Run(EMPTY, ops[..j]), ops[j]);
      }
    }
  }

  lemma NothingUsed(key: Key)
    ensures !Used(EMPTY, key)
  {
  }

  /** A step puts a key in use exactly when it carries out a call with that key. */
  lemma UsedNext(l: Ledger, op: LedgerOp, key: Key)
    requires Inv(l) && Admissible(l, op)
    ensures Used(Step(l, op), key) <==> Used(l, key) || (KeyOf(op) == key && Accepted(l, op))
  {
    hide *;
    KeyedAccepted(l, op);
    StepEvolves(l, op);
    UsedStays(l, Step(l, op), key);
    StepHolder(l, op, key);
    UnusedHasNoHolder(l, key);
    UnusedHasNoHolder(Step(l, op), key);
    if KeyOf(op) != NoKey { AcceptedExactly(l, op); }
    if Accepted(l, op) { AcceptedUsesKey(l, op); }
    NoKeyUnused(Step(l, op));
  }

  lemma KeyedAccepted(l: Ledger, op: LedgerOp)
    ensures Accepted(l, op) ==> KeyOf(op) != NoKey
  {
  }

  lemma NoKeyUnused(l: Ledger)
    ensures !Used(l, NoKey)
  {
  }

  lemma UsedStays(l: Ledger, l': Ledger, key: Key)
    requires Evolves(l, l')
    ensures Used(l, key) ==> Used(l', key)
  {
  }

  /**
   Dropping a call, from the start of a history: it changes nothing exactly when the call
   was refused for its own sake (bad input or no wallet) or repeats the key of an earlier
   call that was carried out. An earlier call that was itself refused does not count.
   */
  lemma DroppableExactly(ops: seq<LedgerOp>, i: nat)
    requires AdmissibleRun(EMPTY, ops) && i < |ops| && KeyOf(ops[i]) != NoKey
    ensures Run(EMPTY, ops[..i] + ops[i + 1..]) == Run(EMPTY, ops) <==>
            !Presentable(Run(EMPTY, ops[..i]), ops[i]) || Repeats(EMPTY, ops, i)
  {
    hide *;
    var before, op, after := ops[..i], ops[i], ops[i + 1..];
    assert ops == before + [op] + after;
    RepeatsIs(ops, i);
    EmptyInv();
    DropsExactly(EMPTY, before, op, after);
    RunConcat(EMPTY, before + [op], after);
    RunConcat(EMPTY, before, [op]);
    RunOne(Run(EMPTY, before), op);
    AcceptedExactly(Run(EMPTY, before), op);
    UsedExactly(before, KeyOf(op));
  }

  lemma RepeatsIs(ops: seq<LedgerOp>, i: nat)
    requires i < |ops|
    ensures Repeats(EMPTY, ops, i) <==>
            exists j :: 0 <= j < |ops[..i]| && KeyOf(ops[..i][j]) == KeyOf(ops[i])
              && Accepted(Run(EMPTY, ops[..i][..j]), ops[..i][j])
  {
    hide KeyOf, Accepted, Run;
    forall j | 0 <= j < i ensures ops[..i][..j] == ops[..j] && ops[..i][j] == ops[j] {
    }
    if Repeats(EMPTY, ops, i) {
      var j :| 0 <= j < i && KeyOf(ops[j]) == KeyOf(ops[i]) && Accepted(Run(EMPTY, ops[..j]), ops[j]);
      assert Accepted(Run(EMPTY, ops[..i][..j]), ops[..i][j]);
    }
    if j :| 0 <= j < i && KeyOf(ops[..i][j]) == KeyOf(ops[i]) && Accepted(Run(EMPTY, ops[..i][..j]), ops[..i][j]) {
      assert Accepted(Run(EMPTY, ops[..j]), ops[j]);
    }
  }

  /**
   For example, evidence refused because its wallet was not registered yet is stored when
   it arrives again: dropping the second arrival on its signature alone would lose the
   payment.
   */
  lemma RefusedCallsDoNotCount(first: LedgerOp, register: LedgerOp, again: LedgerOp)
    requires first.Ingest? && again.Ingest? && register.RegisterWallet?
    requires again.businessId == first.businessId == register.businessId && again.evidence == first.evidence
    requires ValidEvidence(first.evidence)
    requires register.name != "" && register.chain == CHAIN_SOLANA
    requires register.address == first.evidence.destinationOwner
    requires AdmissibleRun(EMPTY, [first, register, again])
    ensures KeyOf(again) == KeyOf(first)
    ensures Run(EMPTY, [first, register, again]) != Run(EMPTY, [first, register])
  {
    hide *;
    var two := Step(EMPTY, register);
    SameKeys(first, again);
    Registered(register, again);
    assert [first, register, again] == [first] + [register, again] && [register, again] == [register] + [again];
    assert [first, register] == [first] + [register];
    RunConcat(EMPTY, [first], [register, again]);
    RunConcat(EMPTY, [first], [register]);
    RunOne(EMPTY, first);
    AcceptedExactly(EMPTY, first);
    NoWalletNoPayment(first);
    RunConcat(EMPTY, [register], [again]);
    RunOne(EMPTY, register);
    RunOne(two, again);
    AcceptedExactly(two, again);
  }

  lemma SameKeys(first: LedgerOp, again: LedgerOp)
    requires first.Ingest? && again.Ingest? && again.businessId == first.businessId && again.evidence == first.evidence
    ensures KeyOf(again) == KeyOf(first) != NoKey
  {
  }

  lemma NoWalletNoPayment(op: LedgerOp)
    requires op.Ingest?
    ensures !Presentable(EMPTY, op)
  {
  }

  /** After a registration alone, a payment to the new wallet is presentable and unseen. */
  lemma Registered(register: LedgerOp, again: LedgerOp)
    requires register.RegisterWallet? && again.Ingest? && ValidEvidence(again.evidence)
    requires register.name != "" && register.chain == CHAIN_SOLANA
    requires register.address == again.evidence.destinationOwner
    requires again.businessId == register.businessId
    ensures Presentable(Step(EMPTY, register), again) && !Used(Step(EMPTY, register), KeyOf(again))
  {
    var l := Step(EMPTY, register);
    assert register.walletId in l.wallets && Receives(l.wallets[register.walletId], again.businessId, again.evidence);
    hide ValidAddress, SignatureScope;
  }
}
