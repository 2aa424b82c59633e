/** Stored reports never drift: later operations leave the rows and snapshots of a run as they were. */
module ReportHistory {
  import opened Finite
  import opened Models
  import opened LedgerModel
  import opened LedgerInvariant
  import opened Webhooks
  import opened Reconciliation
  import opened StoreModel

  /** The comparator of both row sorts. */
  predicate RowLess(a: SettlementRow, b: SettlementRow) {
    KeyLess(a.createdAt, a.id, b.createdAt, b.id)
  }

  /** The comparator of both snapshot sorts. */
  predicate SnapshotLess(a: Snapshot, b: Snapshot) {
    LexLess(a.walletAddress, b.walletAddress)
  }

  lemma RowOrder()
    ensures StrictOrder(RowLess)
    ensures forall a: SettlementRow, b: SettlementRow :: a.id != b.id ==> RowLess(a, b) || RowLess(b, a)
  {
    forall a: SettlementRow, b: SettlementRow, c: SettlementRow
      ensures !RowLess(a, a)
      ensures RowLess(a, b) && RowLess(b, c) ==> RowLess(a, c)
      ensures a.id != b.id ==> RowLess(a, b) || RowLess(b, a)
    {
      KeyLessStrict(a.createdAt, a.id, b.createdAt, b.id, c.createdAt, c.id);
    }
  }

  lemma SnapshotOrder()
    ensures StrictOrder(SnapshotLess)
    ensures forall a: Snapshot, b: Snapshot ::
            a.walletAddress != b.walletAddress ==> SnapshotLess(a, b) || SnapshotLess(b, a)
  {
    forall a: Snapshot, b: Snapshot, c: Snapshot
      ensures !SnapshotLess(a, a)
      ensures SnapshotLess(a, b) && SnapshotLess(b, c) ==> SnapshotLess(a, c)
      ensures a.walletAddress != b.walletAddress ==> SnapshotLess(a, b) || SnapshotLess(b, a)
    {
      LexTotal(a.walletAddress, a.walletAddress);
      LexTotal(a.walletAddress, b.walletAddress);
      if SnapshotLess(a, b) && SnapshotLess(b, c) { LexTransitive(a.walletAddress, b.walletAddress, c.walletAddress); }
    }
  }

  // ---------- what reading a run back collects ----------

  ghost function StoredRows(rows: map<Id, SettlementRow>, businessId: Id, runId: Id): set<SettlementRow> {
    set id | id in rows && rows[id].businessId == businessId && rows[id].runId == runId :: rows[id]
  }

  ghost function StoredSnapshots(snapshots: map<Id, Snapshot>, businessId: Id, runId: Id): set<Snapshot> {
    set id | id in snapshots && snapshots[id].businessId == businessId && snapshots[id].runId == runId :: snapshots[id]
  }

  /** Runs, rows and snapshots are stored under their identifiers, rows and snapshots with their runs. */
  ghost predicate ReportsOk(r: Reports) {
    && (forall id :: id in r.runs ==> r.runs[id].id == id)
    && (forall id :: id in r.rows ==> r.rows[id].id == id && r.rows[id].runId in r.runs)
    && (forall id :: id in r.snapshots ==> r.snapshots[id].id == id && r.snapshots[id].runId in r.runs)
  }

  // ---------- creating a run ----------

  /** The key that an entry of the rows table was made for. */
  lemma RowTableKey(l: Ledger, p: Scope, runId: Id, rowIds: RowKey -> Id, id: Id) returns (key: RowKey)
    requires id in RowTable(l, p, runId, RowKeys(l, p), rowIds)
    ensures HasRow(l, p, key) && key in RowKeys(l, p) && rowIds(key) == id
    ensures RowTable(l, p, runId, RowKeys(l, p), rowIds)[id] == RowOf(l, p, runId, key, id)
  {
    hide RowKeys;
    key :| key in RowKeys(l, p) && rowIds(key) == id
           && RowTable(l, p, runId, RowKeys(l, p), rowIds)[id] == RowOf(l, p, runId, key, id);
  }

  lemma RowTableRows(l: Ledger, p: Scope, runId: Id, rowIds: RowKey -> Id, id: Id)
    requires id in RowTable(l, p, runId, RowKeys(l, p), rowIds)
    ensures var row := RowTable(l, p, runId, RowKeys(l, p), rowIds)[id];
            row.id == id && row.runId == runId && row.businessId == p.businessId
              && row in BuiltRows(l, p, runId, rowIds)
  {
    hide RowTable, RowOf, RowKeys;
    var key := RowTableKey(l, p, runId, rowIds, id);
    RowHeader(l, p, runId, key, id);
  }

  lemma RowHeader(l: Ledger, p: Scope, runId: Id, key: RowKey, id: Id)
    requires HasRow(l, p, key)
    ensures var row := RowOf(l, p, runId, key, id); row.id == id && row.runId == runId && row.businessId == p.businessId
  {
    hide FindException;
  }

  lemma SnapshotTableRows(l: Ledger, p: Scope, runId: Id, snapshotIds: Id -> Id, now: Time, id: Id)
    requires id in SnapshotTable(l, p, runId, RunWallets(l, p), snapshotIds, now)
    ensures var x := SnapshotTable(l, p, runId, RunWallets(l, p), snapshotIds, now)[id];
            x.id == id && x.runId == runId && x.businessId == p.businessId
              && x in BuiltSnapshots(l, p, runId, snapshotIds, now)
  {
    hide RunWallets;
  }

  /** Immediately after creation the stored rows and snapshots of the run are the ones computed. */
  lemma RunIsStored(s: Store, p: Scope, now: Clock, runId: Id, rowIds: RowKey -> Id, snapshotIds: Id -> Id)
    requires ReportsOk(s.reports) && FreshRows(s, p, runId, rowIds, snapshotIds)
    ensures var r := WithRun(s, p, now, runId, rowIds, snapshotIds);
            && ReportsOk(r)
            && StoredRows(r.rows, p.businessId, runId) == BuiltRows(s.ledger, p, runId, rowIds)
            && StoredSnapshots(r.snapshots, p.businessId, runId) == BuiltSnapshots(s.ledger, p, runId, snapshotIds, now)
  {
    RowsAreStored(s, p, now, runId, rowIds, snapshotIds);
    SnapshotsAreStored(s, p, now, runId, rowIds, snapshotIds);
  }

  lemma RowTableComplete(l: Ledger, p: Scope, runId: Id, rowIds: RowKey -> Id)
    requires DifferentIds(l, p, rowIds)
    ensures forall row :: row in BuiltRows(l, p, runId, rowIds) ==>
              row.id in RowTable(l, p, runId, RowKeys(l, p), rowIds)
                && RowTable(l, p, runId, RowKeys(l, p), rowIds)[row.id] == row
  {
    var table := RowTable(l, p, runId, RowKeys(l, p), rowIds);
    forall row | row in BuiltRows(l, p, runId, rowIds) ensures row.id in table && table[row.id] == row {
      var key :| key in RowKeys(l, p) && row == RowOf(l, p, runId, key, rowIds(key));
      RowHeader(l, p, runId, key, rowIds(key));
      assert row.id in table;
      hide RowTable, RowOf, RowKeys;
      var other := RowTableKey(l, p, runId, rowIds, row.id);
    }
  }

  lemma RowsAreStored(s: Store, p: Scope, now: Clock, runId: Id, rowIds: RowKey -> Id, snapshotIds: Id -> Id)
    requires ReportsOk(s.reports) && FreshRows(s, p, runId, rowIds, snapshotIds)
    ensures var r := WithRun(s, p, now, runId, rowIds, snapshotIds);
            && (forall id :: id in r.rows ==> r.rows[id].id == id && r.rows[id].runId in r.runs)
            && StoredRows(r.rows, p.businessId, runId) == BuiltRows(s.ledger, p, runId, rowIds)
  {
    var l := s.ledger;
    var table := RowTable(l, p, runId, RowKeys(l, p), rowIds);
    forall id | id in table
      ensures table[id].id == id && table[id].runId == runId && table[id].businessId == p.businessId
      ensures table[id] in BuiltRows(l, p, runId, rowIds)
    {
      RowTableRows(l, p, runId, rowIds, id);
    }
    RowTableComplete(l, p, runId, rowIds);
    hide RowTable, RowKeys, SnapshotTable, Totals, BuiltRows;
    assert WithRun(s, p, now, runId, rowIds, snapshotIds).rows == s.reports.rows + table;
    AddedRows(s.reports.rows, table, p.businessId, runId, BuiltRows(l, p, runId, rowIds));
  }

  lemma AddedRows(before: map<Id, SettlementRow>, table: map<Id, SettlementRow>, b: Id, runId: Id,
                  built: set<SettlementRow>)
    requires forall id :: id in before ==> before[id].runId != runId
    requires forall id :: id in table ==> table[id].runId == runId && table[id].businessId == b && table[id] in built
    requires forall row :: row in built ==> row.id in table && table[row.id] == row
    ensures StoredRows(before + table, b, runId) == built
  {
    forall row | row in built ensures row in StoredRows(before + table, b, runId) {
      assert (before + table)[row.id] == row;
    }
  }

  lemma SnapshotsAreStored(s: Store, p: Scope, now: Clock, runId: Id, rowIds: RowKey -> Id, snapshotIds: Id -> Id)
    requires ReportsOk(s.reports) && FreshRows(s, p, runId, rowIds, snapshotIds)
    ensures var r := WithRun(s, p, now, runId, rowIds, snapshotIds);
            && (forall id :: id in r.snapshots ==> r.snapshots[id].id == id && r.snapshots[id].runId in r.runs)
            && StoredSnapshots(r.snapshots, p.businessId, runId) == BuiltSnapshots(s.ledger, p, runId, snapshotIds, now)
  {
    var l := s.ledger;
    var table := SnapshotTable(l, p, runId, RunWallets(l, p), snapshotIds, now);
    forall id | id in table
      ensures table[id].id == id && table[id].runId == runId && table[id].businessId == p.businessId
      ensures table[id] in BuiltSnapshots(l, p, runId, snapshotIds, now)
    {
      SnapshotTableRows(l, p, runId, snapshotIds, now, id);
    }
    forall w | w in RunWallets(l, p)
      ensures snapshotIds(w) in table && table[snapshotIds(w)] == SnapshotOf(l, p, runId, w, snapshotIds(w), now)
    {
      var other :| other in RunWallets(l, p) && snapshotIds(other) == snapshotIds(w)
        && table[snapshotIds(w)] == SnapshotOf(l, p, runId, other, snapshotIds(w), now);
      assert other == w;
    }
    hide SnapshotTable, RunWallets, SnapshotOf, RowTable, Totals;
    var r := WithRun(s, p, now, runId, rowIds, snapshotIds);
    assert r.snapshots == s.reports.snapshots + table;
    forall x | x in BuiltSnapshots(l, p, runId, snapshotIds, now)
      ensures x in StoredSnapshots(r.snapshots, p.businessId, runId)
    {
      var w :| w in RunWallets(l, p) && x == SnapshotOf(l, p, runId, w, snapshotIds(w), now);
      assert r.snapshots[snapshotIds(w)] == x;
    }
  }

  // ---------- one snapshot per address ----------

  predicate SameSpot(a: Snapshot, b: Snapshot) {
    a.runId == b.runId && a.walletAddress == b.walletAddress
  }

  /** The snapshots of one run are told apart by their addresses, so their order is determined. */
  ghost predicate SnapshotsApart(snapshots: map<Id, Snapshot>) {
    forall a, b :: a in snapshots && b in snapshots && SameSpot(snapshots[a], snapshots[b]) ==> a == b
  }

  lemma MergeKeepsApart(table: map<Id, Snapshot>, add: map<Id, Snapshot>, runId: Id)
    requires SnapshotsApart(table) && SnapshotsApart(add)
    requires forall id :: id in table ==> table[id].runId != runId
    requires forall id :: id in add ==> add[id].runId == runId
    ensures SnapshotsApart(table + add)
  {
  }

  /** No two wallets of a business share an address, so neither do the snapshots of a run. */
  lemma TableIsApart(l: Ledger, p: Scope, runId: Id, snapshotIds: Id -> Id, now: Time)
    requires WalletsOk(l.wallets)
    ensures SnapshotsApart(SnapshotTable(l, p, runId, RunWallets(l, p), snapshotIds, now))
  {
    var table := SnapshotTable(l, p, runId, RunWallets(l, p), snapshotIds, now);
    forall a, b | a in table && b in table && SameSpot(table[a], table[b]) ensures a == b {
      var v := SnapshotWallet(l, p, runId, snapshotIds, now, a);
      var w := SnapshotWallet(l, p, runId, snapshotIds, now, b);
      assert WalletOk(v, l.wallets[v]) && WalletOk(w, l.wallets[w]);
      assert SameWallet(l.wallets[v], l.wallets[w].businessId, l.wallets[w].chain, l.wallets[w].address);
    }
  }

  lemma SnapshotWallet(l: Ledger, p: Scope, runId: Id, snapshotIds: Id -> Id, now: Time, id: Id) returns (w: Id)
    requires id in SnapshotTable(l, p, runId, RunWallets(l, p), snapshotIds, now)
    ensures w in l.wallets && CoversWallet(p, l.wallets[w]) && snapshotIds(w) == id
    ensures SnapshotTable(l, p, runId, RunWallets(l, p), snapshotIds, now)[id].walletAddress == l.wallets[w].address
  {
    w :| w in RunWallets(l, p) && snapshotIds(w) == id
         && SnapshotTable(l, p, runId, RunWallets(l, p), snapshotIds, now)[id] == SnapshotOf(l, p, runId, w, id, now);
    hide SnapshotTable, RunWallets, WalletReceived, WalletTransactions;
    SnapshotHeader(l, p, runId, w, id, now);
  }

  lemma SnapshotHeader(l: Ledger, p: Scope, runId: Id, w: Id, id: Id, now: Time)
    requires w in l.wallets
    ensures SnapshotOf(l, p, runId, w, id, now).walletAddress == l.wallets[w].address
  {
  }

  lemma RunKeepsApart(s: Store, p: Scope, now: Clock, runId: Id, rowIds: RowKey -> Id, snapshotIds: Id -> Id)
    requires WalletsOk(s.ledger.wallets) && ReportsOk(s.reports) && SnapshotsApart(s.reports.snapshots)
    requires FreshRows(s, p, runId, rowIds, snapshotIds)
    ensures SnapshotsApart(WithRun(s, p, now, runId, rowIds, snapshotIds).snapshots)
  {
    var table := SnapshotTable(s.ledger, p, runId, RunWallets(s.ledger, p), snapshotIds, now);
    forall id | id in table ensures table[id].runId == runId {
      SnapshotTableRows(s.ledger, p, runId, snapshotIds, now, id);
    }
    TableIsApart(s.ledger, p, runId, snapshotIds, now);
    hide SnapshotTable, RunWallets, SnapshotsApart, RowTable, RowKeys, Totals, WalletsOk;
    MergeKeepsApart(s.reports.snapshots, table, runId);
  }

  // ---------- after any later operations ----------

  /** A later step keeps the rows and snapshots of every stored run. */
  lemma StepKeepsReports(s: Store, op: StoreOp, b: Id, runId: Id)
    requires ReportsOk(s.reports) && CanHappen(s, op) && runId in s.reports.runs
    ensures ReportsOk(Next(s, op).reports) && runId in Next(s, op).reports.runs
    ensures Next(s, op).reports.runs[runId] == s.reports.runs[runId]
    ensures StoredRows(Next(s, op).reports.rows, b, runId) == StoredRows(s.reports.rows, b, runId)
    ensures StoredSnapshots(Next(s, op).reports.snapshots, b, runId) == StoredSnapshots(s.reports.snapshots, b, runId)
  {
    if op.Reconcile? && CanReconcile(s.ledger, op.scope) {
      RunIsStored(s, op.scope, op.now, op.runId, op.rowIds, op.snapshotIds);
      OtherRunsKept(s, op.scope, op.now, op.runId, op.rowIds, op.snapshotIds, b, runId);
    }
    hide Perform, EnqueueAll, Replayed, WithRun, CanReconcile, FreshRows, FreshPostings, Admissible, ReportsOk,
         StoredRows, StoredSnapshots;
  }

  lemma MergeKeepsRows(table: map<Id, SettlementRow>, add: map<Id, SettlementRow>, b: Id, runId: Id)
    requires forall id :: id in add ==> id !in table && add[id].runId != runId
    ensures StoredRows(table + add, b, runId) == StoredRows(table, b, runId)
  {
  }

  lemma MergeKeepsSnapshots(table: map<Id, Snapshot>, add: map<Id, Snapshot>, b: Id, runId: Id)
    requires forall id :: id in add ==> id !in table && add[id].runId != runId
    ensures StoredSnapshots(table + add, b, runId) == StoredSnapshots(table, b, runId)
  {
  }

  lemma OtherRunsKept(s: Store, p: Scope, now: Clock, newRun: Id, rowIds: RowKey -> Id, snapshotIds: Id -> Id, b: Id,
                      runId: Id)
    requires ReportsOk(s.reports) && FreshRows(s, p, newRun, rowIds, snapshotIds) && runId in s.reports.runs
    ensures var r := WithRun(s, p, now, newRun, rowIds, snapshotIds);
            && runId in r.runs && r.runs[runId] == s.reports.runs[runId]
            && StoredRows(r.rows, b, runId) == StoredRows(s.reports.rows, b, runId)
            && StoredSnapshots(r.snapshots, b, runId) == StoredSnapshots(s.reports.snapshots, b, runId)
  {
    var l := s.ledger;
    var rows, snaps := RowTable(l, p, newRun, RowKeys(l, p), rowIds),
                       SnapshotTable(l, p, newRun, RunWallets(l, p), snapshotIds, now);
    forall id | id in rows ensures rows[id].runId == newRun && id !in s.reports.rows {
      RowTableRows(l, p, newRun, rowIds, id);
    }
    forall id | id in snaps ensures snaps[id].runId == newRun && id !in s.reports.snapshots {
      SnapshotTableRows(l, p, newRun, snapshotIds, now, id);
    }
    hide RowTable, SnapshotTable, RowKeys, RunWallets, Totals, FreshRows;
    MergeKeepsRows(s.reports.rows, rows, b, runId);
    MergeKeepsSnapshots(s.reports.snapshots, snaps, b, runId);
  }

  lemma {:induction false} RunKeepsReports(s: Store, ops: seq<StoreOp>, b: Id, runId: Id)
    requires ReportsOk(s.reports) && PossibleRun(s, ops) && runId in s.reports.runs
    ensures ReportsOk(RunStore(s, ops).reports) && runId in RunStore(s, ops).reports.runs
    ensures RunStore(s, ops).reports.runs[runId] == s.reports.runs[runId]
    ensures StoredRows(RunStore(s, ops).reports.rows, b, runId) == StoredRows(s.reports.rows, b, runId)
    ensures StoredSnapshots(RunStore(s, ops).reports.snapshots, b, runId) ==
            StoredSnapshots(s.reports.snapshots, b, runId)
    decreases |ops|
  {
    if ops != [] {
      var n := |ops| - 1;
      RunKeepsReports(s, ops[..n], b, runId);
      hide ReportsOk, CanHappen, Next, StoredRows, StoredSnapshots;
      StepKeepsReports(RunStore(s, ops[..n]), ops[n], b, runId);
    }
  }

  lemma RunCreated(s: Store, op: StoreOp)
    requires ReportsOk(s.reports) && CanHappen(s, op) && op.Reconcile? && CanReconcile(s.ledger, op.scope)
    ensures var r := Next(s, op).reports;
            && ReportsOk(r) && op.runId in r.runs && r.runs[op.runId].totals == Totals(s.ledger, op.scope)
            && StoredRows(r.rows, op.scope.businessId, op.runId) == BuiltRows(s.ledger, op.scope, op.runId, op.rowIds)
            && StoredSnapshots(r.snapshots, op.scope.businessId, op.runId)
               == BuiltSnapshots(s.ledger, op.scope, op.runId, op.snapshotIds, op.now)
  {
    hide FreshRows, Totals, StoredRows, StoredSnapshots, BuiltRows, BuiltSnapshots, ReportsOk, RowTable, SnapshotTable,
         CanReconcile,
         RowKeys, RunWallets, Perform, EnqueueAll, Replayed;
    RunIsStored(s, op.scope, op.now, op.runId, op.rowIds, op.snapshotIds);
  }

  /**
   Reading a run back, after whatever operations, gives the very sequences of rows and
   snapshots that creating it returned.
   */
  lemma StoredReportNeverDrifts(s: Store, op: StoreOp, ops: seq<StoreOp>,
                                created: seq<SettlementRow>, read: seq<SettlementRow>,
                                createdSnapshots: seq<Snapshot>, readSnapshots: seq<Snapshot>)
    requires ReportsOk(s.reports) && CanHappen(s, op) && op.Reconcile? && CanReconcile(s.ledger, op.scope)
    requires PossibleRun(Next(s, op), ops)
    requires SortedListing(created, BuiltRows(s.ledger, op.scope, op.runId, op.rowIds), RowLess)
    requires SortedListing(read, StoredRows(RunStore(Next(s, op), ops).reports.rows, op.scope.businessId, op.runId),
                           RowLess)
    requires SortedListing(createdSnapshots, BuiltSnapshots(s.ledger, op.scope, op.runId, op.snapshotIds, op.now),
                           SnapshotLess)
    requires SortedListing(readSnapshots,
                           StoredSnapshots(RunStore(Next(s, op), ops).reports.snapshots, op.scope.businessId,
                                           op.runId), SnapshotLess)
    ensures read == created && readSnapshots == createdSnapshots
    ensures op.runId in RunStore(Next(s, op), ops).reports.runs
    ensures RunStore(Next(s, op), ops).reports.runs[op.runId].totals == Totals(s.ledger, op.scope)
  {
    hide *;
    var p, s1 := op.scope, Next(s, op);
    RunCreated(s, op);
    RunKeepsReports(s1, ops, p.businessId, op.runId);
    RowOrder();
    SnapshotOrder();
    SortedListingUnique(read, created, BuiltRows(s.ledger, p, op.runId, op.rowIds), RowLess);
    SortedListingUnique(readSnapshots, createdSnapshots, BuiltSnapshots(s.ledger, p, op.runId, op.snapshotIds, op.now),
                        SnapshotLess);
  }
}
