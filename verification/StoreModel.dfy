/** The whole store as a mathematical object: ledger, webhooks and stored reports, and its operations. */
module StoreModel {
  import opened Finite
  import opened Models
  import opened LedgerModel
  import opened ApiKeys
  import opened Webhooks
  import opened Reconciliation

  datatype RunRecord = RunRecord(id: Id, scope: Scope, totals: RunTotals, createdAt: Time)

  /** The tables of completed reconciliation runs. */
  datatype Reports = Reports(runs: map<Id, RunRecord>, snapshots: map<Id, Snapshot>, rows: map<Id, SettlementRow>)

  /** What creating a run returns and reading it back returns again. */
  datatype Report = Report(run: RunRecord, snapshots: seq<Snapshot>, rows: seq<SettlementRow>,
                           exceptions: seq<PaymentException>)

  datatype Store = Store(ledger: Ledger, hooks: Hooks, reports: Reports, keys: Keys)

  const NO_STORE := Store(EMPTY, Hooks(map[], map[]), Reports(map[], map[], map[]), NO_KEYS)

  datatype StoreOp =
    | LedgerCall(op: LedgerOp, net: Net)
    | Subscribe(subscription: Subscription)
    | ReplayDelivery(businessId: Id, deliveryId: Id, outcome: Outcome, now: Clock)
    | CreateKey(key: ApiKey)
    | RevokeKey(businessId: Id, keyId: Id, now: Clock)
    | Reconcile(scope: Scope, now: Clock, runId: Id, rowIds: RowKey -> Id, snapshotIds: Id -> Id)

  // ---------- reports ----------

  /** normalizeReconciliationRunInput: no period means the last day. */
  const DAY: Time := 24 * 60 * MINUTE

  function NormalScope(businessId: Id, walletId: Id, start: Time, end: Time, now: Clock): Scope {
    if start == ZERO_TIME
       && end == ZERO_TIME then Scope(businessId, walletId, now - DAY, now) else Scope(businessId, walletId, start, end)
  }

  /** A period that passes the checks: both ends given, in order. */
  predicate NormalPeriod(start: Time, end: Time) {
    start != ZERO_TIME && end != ZERO_TIME && start < end
  }

  /** What CreateReconciliationRun accepts once the period is normalized. */
  predicate CanReconcile(l: Ledger, p: Scope) {
    && NormalPeriod(p.start, p.end)
    && (p.walletId != "" ==> p.walletId in l.wallets && l.wallets[p.walletId].businessId == p.businessId
                             && l.wallets[p.walletId].archivedAt.None?)
  }

  /** The rows of a run, keyed by their fresh identifiers. */
  ghost function RowTable(l: Ledger, p: Scope, runId: Id, keys: set<RowKey>, rowIds: RowKey -> Id)
    : map<Id, SettlementRow>
    requires forall key :: key in keys ==> HasRow(l, p, key)
  {
    map id | id in Image(keys, rowIds) ::
      var key :| key in keys && rowIds(key) == id;
      RowOf(l, p, runId, key, id)
  }

  ghost function SnapshotTable(l: Ledger, p: Scope, runId: Id, wallets: set<Id>, snapshotIds: Id -> Id,
                               now: Time): map<Id, Snapshot>
    requires wallets <= l.wallets.Keys
  {
    map id | id in Image(wallets, snapshotIds) ::
      var w :| w in wallets && snapshotIds(w) == id;
      SnapshotOf(l, p, runId, w, id, now)
  }

  /** CreateReconciliationRun */
  ghost function WithRun(s: Store, p: Scope, now: Clock, runId: Id, rowIds: RowKey -> Id,
                         snapshotIds: Id -> Id): Reports
  {
    var l := s.ledger;
    Reports(s.reports.runs[runId := RunRecord(runId, p, Totals(l, p), now)],
            s.reports.snapshots + SnapshotTable(l, p, runId, RunWallets(l, p), snapshotIds, now),
            s.reports.rows + RowTable(l, p, runId, RowKeys(l, p), rowIds))
  }

  /** newID for rows and snapshots: different keys, different unused identifiers. */
  ghost predicate FreshRows(s: Store, p: Scope, runId: Id, rowIds: RowKey -> Id, snapshotIds: Id -> Id) {
    && runId !in s.reports.runs
    && (forall key :: key in RowKeys(s.ledger, p) ==> rowIds(key) !in s.reports.rows)
    && DifferentIds(s.ledger, p, rowIds)
    && (forall w :: w in RunWallets(s.ledger, p) ==> snapshotIds(w) !in s.reports.snapshots)
    && DifferentSnapshots(s.ledger, p, snapshotIds)
  }

  // ---------- steps and runs ----------

  ghost function Next(s: Store, op: StoreOp): Store {
    match op
    case LedgerCall(o, net) =>
      var c := Perform(s.ledger, o);
      s.(ledger := s.ledger.Plus(c.delta), hooks := EnqueueAll(s.hooks, c.emitted, o.now, net))
    case Subscribe(sub) => s.(hooks := s.hooks.(subscriptions := s.hooks.subscriptions[sub.id := sub]))
    case ReplayDelivery(b, id, outcome, now) =>
      if id in s.hooks.deliveries && s.hooks.deliveries[id].businessId == b
      then s.(hooks := Replayed(s.hooks, id, outcome, now)) else s
    case CreateKey(key) => s.(keys := WithKey(s.keys, key))
    case RevokeKey(b, id, now) => s.(keys := WithRevoked(s.keys, b, id, now))
    case Reconcile(p, now, runId, rowIds, snapshotIds) =>
      if CanReconcile(s.ledger, p) then s.(reports := WithRun(s, p, now, runId, rowIds, snapshotIds)) else s
  }

  ghost predicate CanHappen(s: Store, op: StoreOp) {
    match op
    case LedgerCall(o, net) => Admissible(s.ledger, o) && FreshPostings(s.hooks, Perform(s.ledger, o).emitted, net)
    case Subscribe(sub) => sub.id != "" && sub.id !in s.hooks.subscriptions && sub.enabled
    case ReplayDelivery(_, _, _, _) => true
    case CreateKey(key) => FreshKey(s.keys, key)
    case RevokeKey(_, _, _) => true
    case Reconcile(p, now, runId, rowIds, snapshotIds) => FreshRows(s, p, runId, rowIds, snapshotIds)
  }

  ghost function RunStore(s: Store, ops: seq<StoreOp>): Store
    decreases |ops|
  {
    if ops == [] then s else Next(RunStore(s, ops[..|ops| - 1]), ops[|ops| - 1])
  }

  ghost predicate PossibleRun(s: Store, ops: seq<StoreOp>)
    decreases |ops|
  {
    ops == [] || (PossibleRun(s, ops[..|ops| - 1]) && CanHappen(RunStore(s, ops[..|ops| - 1]), ops[|ops| - 1]))
  }

  // ---------- the ledger inside the store ----------

  /** The payment operations among the store's operations. */
  function LedgerOps(ops: seq<StoreOp>): seq<LedgerOp>
    decreases |ops|
  {
    if ops == [] then []
    else
      var last := ops[|ops| - 1];
      LedgerOps(ops[..|ops| - 1]) + (if last.LedgerCall? then [last.op] else [])
  }

  /**
   Webhook noninterference: the ledger is a function of the payment operations alone.
   Network outcomes, replays, subscriptions and reports do not influence it.
   */
  lemma {:induction false} LedgerIgnoresWebhooks(s: Store, ops: seq<StoreOp>)
    ensures RunStore(s, ops).ledger == Run(s.ledger, LedgerOps(ops))
    ensures PossibleRun(s, ops) ==> AdmissibleRun(s.ledger, LedgerOps(ops))
    decreases |ops|
  {
    hide Next, CanHappen, Step, Admissible;
    if ops != [] {
      var n := |ops| - 1;
      LedgerIgnoresWebhooks(s, ops[..n]);
      LedgerNext(RunStore(s, ops[..n]), ops[n]);
      var mine := LedgerOps(ops[..n]);
      if ops[n].LedgerCall? {
        assert (mine + [ops[n].op])[..|mine|] == mine;
      } else {
        assert mine + [] == mine;
      }
    }
  }

  lemma LedgerNext(s: Store, op: StoreOp)
    ensures Next(s, op).ledger == if op.LedgerCall? then Step(s.ledger, op.op) else s.ledger
    ensures op.LedgerCall? && CanHappen(s, op) ==> Admissible(s.ledger, op.op)
  {
    hide Perform, EnqueueAll, WithRun, Replayed, FreshRows, FreshPostings, Admissible, CanReconcile, Ledger.Plus;
  }

  /** Runs that differ only in webhooks, their outcomes and replays, and in reports, end with one ledger. */
  lemma SameCallsSameLedger(s1: Store, ops1: seq<StoreOp>, s2: Store, ops2: seq<StoreOp>)
    requires s1.ledger == s2.ledger && LedgerOps(ops1) == LedgerOps(ops2)
    ensures RunStore(s1, ops1).ledger == RunStore(s2, ops2).ledger
  {
    LedgerIgnoresWebhooks(s1, ops1);
    LedgerIgnoresWebhooks(s2, ops2);
  }
}
