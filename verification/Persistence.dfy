/**
 The file behind the store: every operation body is followed by marshalling, writing a
 temporary file and renaming it, any of which may fail, and the process may stop anywhere.
 */
module Persistence {
  import opened Wrappers
  import opened Models
  import opened LedgerModel
  import opened LedgerInvariant
  import opened LedgerSteps
  import opened History
  import opened ApiKeys
  import opened Webhooks
  import opened WebhookTheorems
  import opened ReportHistory
  import opened StoreModel

  // ---------- the snapshot file ----------

  /** persistentSnapshot: the tables, without the two derived indexes and without webhook secrets. */
  datatype Image = Image(
    wallets: map<Id, Wallet>, requests: map<Id, PaymentRequest>, transactions: map<Id, StablecoinTransaction>,
    matches: map<Id, TransactionMatch>, exceptions: map<Id, PaymentException>, events: map<Id, ReceiptEvent>,
    idempotency: map<string, IdempotencyRecord>,
    subscriptions: map<Id, Subscription>, deliveries: map<Id, Delivery>, reports: Reports,
    apiKeys: map<Id, ApiKey>)

  /** SecretCiphertext is tagged json:"-". */
  function WithoutSecrets(subs: map<Id, Subscription>): map<Id, Subscription> {
    map id | id in subs :: subs[id].(secret := "")
  }

  function Encode(s: Store): Image {
    var l := s.ledger;
    Image(l.wallets, l.requests, l.transactions, l.matches, l.exceptions, l.events, l.idempotency,
          WithoutSecrets(s.hooks.subscriptions), s.hooks.deliveries, s.reports, s.keys.byId)
  }

  ghost function ScopesOf(ts: Transactions): set<string> {
    set t | t in ts :: ScopeOf(ts[t])
  }

  /** rebuildIndexesLocked: some transaction of each scope. */
  ghost function RebuiltIndex(ts: Transactions): map<string, Id> {
    map s | s in ScopesOf(ts) :: var t :| t in ts && ScopeOf(ts[t]) == s; ts[t].id
  }

  /** NewPersistentStore: no file means a new store. */
  ghost function Load(disk: Option<Image>): Store {
    match disk
    case None => NO_STORE
    case Some(i) =>
      Store(Ledger(i.wallets, i.requests, i.transactions, RebuiltIndex(i.transactions), i.matches, i.exceptions,
                   i.events, i.idempotency),
            Hooks(i.subscriptions, i.deliveries), i.reports, Keys(i.apiKeys, RebuiltHashes(i.apiKeys)))
  }

  /** What survives a restart: everything but the webhook secrets. */
  function Forget(s: Store): Store {
    s.(hooks := s.hooks.(subscriptions := WithoutSecrets(s.hooks.subscriptions)))
  }

  /** The rebuilt index is the one that was maintained step by step: scopes identify transactions. */
  lemma RebuiltIsMaintained(ts: Transactions, index: map<string, Id>)
    requires SignaturesOk(ts, index)
    requires forall t :: t in ts ==> ts[t].id == t
    ensures RebuiltIndex(ts) == index
  {
    var rebuilt := RebuiltIndex(ts);
    forall s | s in index ensures s in rebuilt {
      assert ScopeOf(ts[index[s]]) == s;
    }
    forall s | s in rebuilt ensures s in index && rebuilt[s] == index[s] {
      var t :| t in ts && ScopeOf(ts[t]) == s && rebuilt[s] == ts[t].id;
    }
  }

  /** Saving and loading gives the store back, webhook secrets excepted. */
  lemma LoadEncode(s: Store)
    requires Inv(s.ledger) && KeysOk(s.keys)
    ensures Load(Some(Encode(s))) == Forget(s)
  {
    hide KeysOk, RebuiltHashes;
    HashesAreMaintained(s.keys);
    forall t | t in s.ledger.transactions ensures s.ledger.transactions[t].id == t {
      assert TransactionOk(s.ledger.wallets, t, s.ledger.transactions[t]);
    }
    assert SignaturesOk(s.ledger.transactions, s.ledger.signatures);
    hide Inv, SignaturesOk, RebuiltIndex;
    RebuiltIsMaintained(s.ledger.transactions, s.ledger.signatures);
  }

  // ---------- the invariant of the whole store ----------

  ghost predicate StoreOk(s: Store) {
    Inv(s.ledger) && HooksOk(s.hooks) && ReportsOk(s.reports) && SnapshotsApart(s.reports.snapshots) && KeysOk(s.keys)
  }

  lemma NextKeepsOk(s: Store, op: StoreOp)
    requires StoreOk(s) && CanHappen(s, op)
    ensures StoreOk(Next(s, op))
  {
    hide AttemptsMove, Inv, HooksOk, ReportsOk, SnapshotsApart, KeysOk, FreshKey, WithKey, WithRevoked, EnqueueAll,
         WithRun, Replayed, FreshRows, FreshPostings, CanReconcile, Perform, Ledger.Plus, Admissible;
    StepAttempts(s, op);
    match op {
      case LedgerCall(o, net) => StepKeepsInv(s.ledger, o); StepIs(s.ledger, o);
      case Subscribe(_) =>
      case ReplayDelivery(_, _, _, _) =>
      case CreateKey(key) => CreationKeepsOk(s.keys, key);
      case RevokeKey(b, id, now) => RevocationKeepsOk(s.keys, b, id, now);
      case Reconcile(p, now, runId, rowIds, snapshotIds) =>
        if CanReconcile(s.ledger, p) {
          RunIsStored(s, p, now, runId, rowIds, snapshotIds);
          WalletsAreOk(s.ledger);
          RunKeepsApart(s, p, now, runId, rowIds, snapshotIds);
        }
    }
  }

  lemma StepIs(l: Ledger, o: LedgerOp)
    ensures Step(l, o) == l.Plus(Perform(l, o).delta)
  {
  }

  lemma {:induction false} RunKeepsOk(s: Store, ops: seq<StoreOp>)
    requires StoreOk(s) && PossibleRun(s, ops)
    ensures StoreOk(RunStore(s, ops))
    decreases |ops|
  {
    if ops != [] {
      RunKeepsOk(s, ops[..|ops| - 1]);
      hide StoreOk, CanHappen, Next;
      NextKeepsOk(RunStore(s, ops[..|ops| - 1]), ops[|ops| - 1]);
    }
  }

  lemma NewStoreOk()
    ensures StoreOk(NO_STORE)
  {
    EmptyInv();
    hide Inv;
  }

  lemma ForgetKeepsOk(s: Store)
    requires StoreOk(s)
    ensures StoreOk(Forget(s)) && Forget(Forget(s)) == Forget(s)
  {
    hide Inv, ReportsOk;
    var subs := s.hooks.subscriptions;
    assert WithoutSecrets(WithoutSecrets(subs)) == WithoutSecrets(subs);
    forall id | id in s.hooks.deliveries ensures DeliveryOk(WithoutSecrets(subs), id, s.hooks.deliveries[id]) {
      assert DeliveryOk(subs, id, s.hooks.deliveries[id]);
    }
  }

  // ---------- the machine ----------

  /** Where the lock holder is between an operation body and the return of mustPersistLocked. */
  datatype Phase = Idle | Changed | Marshalled(data: Image) | TempWritten(data: Image)

  /** The temporary file, which loading never reads. */
  datatype TempFile = NoTemp | Torn | Whole(image: Image)

  /**
   A process and its disk. `base` is the store the process started from, `ops` are the
   operation bodies it has completed and `saved` says how many of them the file covers.
   */
  datatype Machine = Machine(store: Store, phase: Phase, disk: Option<Image>, temp: TempFile,
                             base: Store, ops: seq<StoreOp>, saved: nat)

  const BOOT := Machine(NO_STORE, Idle, None, NoTemp, NO_STORE, [], 0)

  datatype Action =
    | Body(op: StoreOp)       // the operation changes the tables under the lock
    | Marshal
    | WriteTemp
    | TearTemp                // WriteFile fails half way
    | Rename
    | GiveUp                  // an error is recorded and the operation returns
    | CrashAndReload

  ghost predicate Enabled(m: Machine, a: Action) {
    match a
    case Body(op) => m.phase == Idle && CanHappen(m.store, op)
    case Marshal => m.phase == Changed
    case WriteTemp => m.phase.Marshalled?
    case TearTemp => m.phase.Marshalled?
    case Rename => m.phase.TempWritten?
    case GiveUp => m.phase != Idle
    case CrashAndReload => true
  }

  ghost function Act(m: Machine, a: Action): Machine
    requires Enabled(m, a)
  {
    match a
    case Body(op) => m.(store := Next(m.store, op), phase := Changed, ops := m.ops + [op])
    case Marshal => m.(phase := Marshalled(Encode(m.store)))
    case WriteTemp => m.(phase := TempWritten(m.phase.data), temp := Whole(m.phase.data))
    case TearTemp => m.(phase := Idle, temp := Torn)
    case Rename => m.(phase := Idle, disk := Some(m.phase.data), temp := NoTemp, saved := |m.ops|)
    case GiveUp => m.(phase := Idle)
    case CrashAndReload =>
      var loaded := Load(m.disk);
      m.(store := loaded, phase := Idle, base := loaded, ops := [], saved := 0)
  }

  /** The file always holds the store as it was after some completed prefix of the operations. */
  ghost predicate Durable(m: Machine) {
    && StoreOk(m.base)
    && PossibleRun(m.base, m.ops)
    && m.store == RunStore(m.base, m.ops)
    && m.saved <= |m.ops|
    && Load(m.disk) == Forget(RunStore(m.base, m.ops[..m.saved]))
    && (m.phase.Marshalled? || m.phase.TempWritten? ==> m.phase.data == Encode(m.store))
  }

  lemma {:induction false} PossiblePrefix(s: Store, ops: seq<StoreOp>, n: nat)
    requires PossibleRun(s, ops) && n <= |ops|
    ensures PossibleRun(s, ops[..n])
    decreases |ops|
  {
    if n < |ops| {
      PossiblePrefix(s, ops[..|ops| - 1], n);
      assert ops[..|ops| - 1][..n] == ops[..n];
    } else {
      assert ops[..n] == ops;
    }
  }

  lemma BodyKeepsDurable(m: Machine, op: StoreOp, next: Machine)
    requires Enabled(m, Body(op)) && next == Act(m, Body(op))
    requires Durable(m)
    ensures Durable(next)
  {
    hide StoreOk, CanHappen, Next, Load, Encode, Forget;
    var ops := m.ops + [op];
    assert ops[..|ops| - 1] == m.ops;
    assert ops[..m.saved] == m.ops[..m.saved];
  }

  /** Reloading starts a new history from what the file holds, with every invariant intact. */
  lemma CrashKeepsDurable(m: Machine, next: Machine)
    requires next == Act(m, CrashAndReload)
    requires Durable(m)
    ensures Durable(next)
  {
    hide StoreOk, CanHappen, Next, Load, Encode, Forget;
    var prefix := m.ops[..m.saved];
    PossiblePrefix(m.base, m.ops, m.saved);
    RunKeepsOk(m.base, prefix);
    ForgetKeepsOk(RunStore(m.base, prefix));
    FreshStart(next);
  }

  /** A process that has just loaded its file is durable. */
  lemma FreshStart(m: Machine)
    requires StoreOk(m.base) && m.store == m.base && m.phase == Idle && m.ops == [] && m.saved == 0
    requires Load(m.disk) == m.base == Forget(m.base)
    ensures Durable(m)
  {
    hide StoreOk, Load, Encode, Forget;
    EmptyRun(m.base);
    assert m.ops[..0] == [];
  }

  lemma EmptyRun(s: Store)
    ensures RunStore(s, []) == s && PossibleRun(s, [])
  {
  }

  lemma RenameKeepsDurable(m: Machine)
    requires Durable(m) && Enabled(m, Rename)
    ensures Durable(Act(m, Rename))
  {
    hide StoreOk, CanHappen, Next, Load, Encode, Forget, RunStore, PossibleRun;
    RenamedIsSaved(m);
    assert m.ops[..|m.ops|] == m.ops;
  }

  lemma ActKeepsDurable(m: Machine, a: Action)
    requires Durable(m) && Enabled(m, a)
    ensures Durable(Act(m, a))
  {
    match a {
      case Body(op) => BodyKeepsDurable(m, op, Act(m, a));
      case CrashAndReload => CrashKeepsDurable(m, Act(m, a));
      case Rename => RenameKeepsDurable(m);
      case Marshal => hide StoreOk, PossibleRun, RunStore, Load, Encode, Forget;
      case WriteTemp => hide StoreOk, PossibleRun, RunStore, Load, Encode, Forget;
      case TearTemp => hide StoreOk, PossibleRun, RunStore, Load, Encode, Forget;
      case GiveUp => hide StoreOk, PossibleRun, RunStore, Load, Encode, Forget;
    }
  }

  // ---------- whole executions ----------

  ghost predicate Execution(states: seq<Machine>, actions: seq<Action>) {
    && |states| == |actions| + 1
    && states[0] == BOOT
    && (forall i :: 0 <= i < |actions| ==>
        Enabled(states[i], actions[i]) && states[i + 1] == Act(states[i], actions[i]))
  }

  lemma {:induction false} ExecutionsAreDurable(states: seq<Machine>, actions: seq<Action>, i: nat)
    requires Execution(states, actions) && i < |states|
    ensures Durable(states[i])
    decreases i
  {
    if i == 0 {
      BootIsDurable();
    } else {
      ExecutionsAreDurable(states, actions, i - 1);
      hide Durable, Act, Enabled;
      ActKeepsDurable(states[i - 1], actions[i - 1]);
    }
  }

  lemma BootIsDurable()
    ensures Durable(BOOT)
  {
    NewStoreOk();
    hide StoreOk;
    assert BOOT.ops[..0] == [];
    assert WithoutSecrets(map[]) == map[];
  }

  /**
   Stop the process anywhere in any execution and load the file: the store is the one
   after some completed prefix of the operations since the process started, webhook
   secrets excepted, and it satisfies the invariant of the whole store.
   */
  lemma CrashAnywhere(states: seq<Machine>, actions: seq<Action>, i: nat)
    requires Execution(states, actions) && i < |states|
    ensures var m := states[i];
            && m.saved <= |m.ops|
            && Load(m.disk) == Forget(RunStore(m.base, m.ops[..m.saved]))
            && Load(m.disk).ledger == RunStore(m.base, m.ops[..m.saved]).ledger
            && StoreOk(Load(m.disk))
  {
    ExecutionsAreDurable(states, actions, i);
    var m := states[i];
    PossiblePrefix(m.base, m.ops, m.saved);
    RunKeepsOk(m.base, m.ops[..m.saved]);
    hide StoreOk, Load, RunStore, PossibleRun;
    ForgetKeepsOk(RunStore(m.base, m.ops[..m.saved]));
  }

  /** The file that a rename leaves is the whole store as it stands. */
  lemma RenamedIsSaved(m: Machine)
    requires Durable(m) && Enabled(m, Rename)
    ensures Load(Act(m, Rename).disk) == Forget(m.store)
  {
    RunKeepsOk(m.base, m.ops);
    LoadEncode(m.store);
  }

  // ---------- nothing saved is lost ----------

  /** b is a later state of a: the ledger and the keys have only moved on, and stored runs are still there. */
  ghost predicate Outlives(a: Store, b: Store) {
    && Evolves(a.ledger, b.ledger)
    && KeysEvolve(a.keys, b.keys)
    && forall r :: r in a.reports.runs ==> r in b.reports.runs && b.reports.runs[r] == a.reports.runs[r]
  }

  lemma OutlivesTransitive(a: Store, b: Store, c: Store)
    requires Outlives(a, b) && Outlives(b, c)
    ensures Outlives(a, c)
  {
    hide Evolves, KeysEvolve;
    EvolvesTransitive(a.ledger, b.ledger, c.ledger);
    KeysEvolveTransitive(a.keys, b.keys, c.keys);
  }

  lemma OutlivesItself(s: Store)
    ensures Outlives(s, s)
  {
    EvolvesRefl(s.ledger);
    hide Evolves;
  }

  lemma NextOutlives(s: Store, op: StoreOp)
    requires StoreOk(s) && CanHappen(s, op)
    ensures Outlives(s, Next(s, op))
  {
    hide StoreOk, CanHappen, Next, Evolves, KeysEvolve, ReportsOk;
    NextLedger(s, op);
    NextKeys(s, op);
    StoreParts(s);
    forall r | r in s.reports.runs
      ensures r in Next(s, op).reports.runs && Next(s, op).reports.runs[r] == s.reports.runs[r]
    {
      StepKeepsReports(s, op, "", r);
    }
  }

  lemma StoreParts(s: Store)
    requires StoreOk(s)
    ensures Inv(s.ledger) && ReportsOk(s.reports) && KeysOk(s.keys)
  {
  }

  lemma NextLedger(s: Store, op: StoreOp)
    requires StoreOk(s) && CanHappen(s, op)
    ensures Evolves(s.ledger, Next(s, op).ledger)
  {
    StoreParts(s);
    hide StoreOk, Inv, Evolves, Perform, EnqueueAll, WithRun, Replayed, FreshRows, FreshPostings, CanReconcile,
         Admissible, Ledger.Plus;
    if op.LedgerCall? {
      StepEvolves(s.ledger, op.op);
      StepIs(s.ledger, op.op);
    } else {
      EvolvesRefl(s.ledger);
    }
  }

  lemma NextKeys(s: Store, op: StoreOp)
    requires StoreOk(s) && CanHappen(s, op)
    ensures KeysEvolve(s.keys, Next(s, op).keys)
  {
    hide *;
    StoreParts(s);
    KeysAfter(s, op);
    KeysEvolveItself(s.keys);
    if op.CreateKey? {
      FreshKeyOf(s, op);
      CreationKeepsOk(s.keys, op.key);
    } else if op.RevokeKey? {
      RevocationKeepsOk(s.keys, op.businessId, op.keyId, op.now);
    }
  }

  lemma FreshKeyOf(s: Store, op: StoreOp)
    requires op.CreateKey? && CanHappen(s, op)
    ensures FreshKey(s.keys, op.key)
  {
  }

  lemma KeysAfter(s: Store, op: StoreOp)
    ensures Next(s, op).keys == match op
                                case CreateKey(key) => WithKey(s.keys, key)
                                case RevokeKey(b, id, now) => WithRevoked(s.keys, b, id, now)
                                case _ => s.keys
  {
    hide Perform, EnqueueAll, WithRun, Replayed, CanReconcile, Ledger.Plus, WithKey, WithRevoked;
  }

  lemma {:induction false} RunOutlives(s: Store, ops: seq<StoreOp>, n: nat)
    requires StoreOk(s) && PossibleRun(s, ops) && n <= |ops|
    ensures Outlives(RunStore(s, ops[..n]), RunStore(s, ops))
    decreases |ops|
  {
    hide StoreOk, CanHappen, Next, Outlives;
    if n == |ops| {
      assert ops[..n] == ops;
      OutlivesItself(RunStore(s, ops));
    } else {
      var front := ops[..|ops| - 1];
      assert front[..n] == ops[..n];
      RunOutlives(s, front, n);
      RunKeepsOk(s, front);
      NextOutlives(RunStore(s, front), ops[|ops| - 1]);
      OutlivesTransitive(RunStore(s, ops[..n]), RunStore(s, front), RunStore(s, ops));
    }
  }

  /** Webhook secrets apart, forgetting changes nothing. */
  lemma ForgottenOutlives(a: Store, b: Store)
    requires Outlives(a, b)
    ensures Outlives(Forget(a), Forget(b))
  {
    hide Evolves, KeysEvolve, WithoutSecrets;
  }

  lemma ActOutlives(m: Machine, a: Action)
    requires Enabled(m, a)
    requires Durable(m)
    ensures Outlives(Load(m.disk), Load(Act(m, a).disk))
  {
    hide StoreOk, CanHappen, Next, Load, Encode, Forget, Outlives, RunStore, PossibleRun;
    if a == Rename {
      RenamedIsSaved(m);
      RunOutlives(m.base, m.ops, m.saved);
      ForgottenOutlives(RunStore(m.base, m.ops[..m.saved]), m.store);
    } else {
      OutlivesItself(Load(m.disk));
    }
  }

  /**
   Nothing that has reached the file is lost: whatever happens later, crashes, torn writes
   and reloads included, what a later restart loads is a later state of what an earlier
   restart would have loaded.
   */
  lemma {:induction false} SavedIsNeverLost(states: seq<Machine>, actions: seq<Action>, i: nat, j: nat)
    requires Execution(states, actions) && i <= j < |states|
    ensures Outlives(Load(states[i].disk), Load(states[j].disk))
    decreases j
  {
    hide Durable, Act, Enabled, Outlives, Load;
    if i == j {
      OutlivesItself(Load(states[i].disk));
    } else {
      SavedIsNeverLost(states, actions, i, j - 1);
      ExecutionsAreDurable(states, actions, j - 1);
      ActOutlives(states[j - 1], actions[j - 1]);
      OutlivesTransitive(Load(states[i].disk), Load(states[j - 1].disk), Load(states[j].disk));
    }
  }

  /** In particular a revocation that has been saved holds after every later restart. */
  lemma SavedRevocationsHold(states: seq<Machine>, actions: seq<Action>, i: nat, j: nat, hash: string)
    requires Execution(states, actions) && i <= j < |states|
    requires hash in Load(states[i].disk).keys.byHash && Authenticated(Load(states[i].disk).keys, hash).Failure?
    ensures Authenticated(Load(states[j].disk).keys, hash).Failure?
  {
    hide Execution, Load, Authenticated;
    SavedIsNeverLost(states, actions, i, j);
    LoadedIsOk(states, actions, i);
    hide Evolves, KeysEvolve, KeysOk;
    RevokedStaysRevoked(Load(states[i].disk).keys, Load(states[j].disk).keys, hash);
  }

  lemma LoadedIsOk(states: seq<Machine>, actions: seq<Action>, i: nat)
    requires Execution(states, actions) && i < |states|
    ensures KeysOk(Load(states[i].disk).keys)
  {
    hide StoreOk, Load, RunStore, Execution;
    CrashAnywhere(states, actions, i);
    StoreParts(Load(states[i].disk));
  }
}
