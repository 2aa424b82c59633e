/** Facts that connect the report-building loops to the rows, snapshots and totals they compute. */
module ReportGlue {
  import opened Wrappers
  import opened Finite
  import opened Models
  import opened LedgerModel
  import opened LedgerInvariant
  import opened Reconciliation
  import opened ReportTheorems
  import opened ReportHistory
  import opened StoreModel
  import opened StoreGlue
  import opened ApiKeys
  import opened Webhooks
  import opened Persistence
  import opened Receipts
  import opened Metrics

  // ---------- collecting ----------

  /** Visiting one more entry: it joins the listing exactly when the run covers it. */
  lemma NextCovered(all: set<Id>, todo: set<Id>, id: Id, ids: seq<Id>)
    requires Lists(ids, all - todo) && id in todo
    ensures id in all ==> Lists(ids + [id], all - (todo - {id}))
    ensures id !in all ==> Lists(ids, all - (todo - {id}))
  {
    if id in all {
      assert all - (todo - {id}) == (all - todo) + {id};
      AppendLists(ids, all - todo, id);
    } else {
      assert all - (todo - {id}) == all - todo;
    }
  }

  lemma NoneCovered(all: set<Id>, keys: set<Id>)
    requires all <= keys
    ensures Lists([], all - keys) && all - {} == all
  {
    assert all - keys == {};
  }

  /** Adding up a listing adds up its set. */
  lemma AddNext(ids: seq<Id>, n: nat, f: Id -> real)
    requires n < |ids| && NoRepeats(ids)
    ensures Sum(Elements(ids[..n + 1]), f) == Sum(Elements(ids[..n]), f) + f(ids[n])
  {
    PrefixNext(ids, n);
    SumAdd(Elements(ids[..n]), ids[n], f);
  }

  /** Counting the entries of a listing that pass a test. */
  ghost function Passing(ids: seq<Id>, n: nat, pass: Id -> bool): set<Id>
    requires n <= |ids|
  {
    set id | id in ids[..n] && pass(id)
  }

  lemma CountNext(ids: seq<Id>, n: nat, pass: Id -> bool)
    requires n < |ids| && NoRepeats(ids)
    ensures |Passing(ids, n + 1, pass)| == |Passing(ids, n, pass)| + (if pass(ids[n]) then 1 else 0)
    ensures |Passing(ids, 0, pass)| == 0
  {
    assert ids[..n + 1] == ids[..n] + [ids[n]];
    PrefixNext(ids, n);
    assert ids[n] !in ids[..n] by { assert ids[n] !in Elements(ids[..n]); }
    if pass(ids[n]) {
      assert Passing(ids, n + 1, pass) == Passing(ids, n, pass) + {ids[n]};
    } else {
      assert Passing(ids, n + 1, pass) == Passing(ids, n, pass);
    }
    assert Passing(ids, 0, pass) == {};
  }

  lemma PassingAll(ids: seq<Id>, pass: Id -> bool)
    ensures Passing(ids, |ids|, pass) == set id | id in Elements(ids) && pass(id)
  {
    assert ids[..|ids|] == ids;
  }

  // ---------- rows ----------

  /** rows are the rows of these keys, in this order. */
  ghost predicate RowsOf(rows: seq<SettlementRow>, keys: seq<RowKey>, l: Ledger, p: Scope, runId: Id,
                         rowIds: RowKey -> Id)
  {
    && |rows| == |keys|
    && forall i :: 0 <= i < |keys| ==> HasRow(l, p, keys[i]) && rows[i] == RowOf(l, p, runId, keys[i], rowIds(keys[i]))
  }

  lemma RowsNext(rows: seq<SettlementRow>, keys: seq<RowKey>, l: Ledger, p: Scope, runId: Id, rowIds: RowKey -> Id,
                 key: RowKey)
    requires RowsOf(rows, keys, l, p, runId, rowIds) && HasRow(l, p, key)
    ensures RowsOf(rows + [RowOf(l, p, runId, key, rowIds(key))], keys + [key], l, p, runId, rowIds)
  {
    hide HasRow, RowOf;
  }

  lemma JoinLists<T(!new)>(a: seq<T>, b: seq<T>, s: set<T>, t: set<T>)
    requires Lists(a, s) && Lists(b, t) && s !! t
    ensures Lists(a + b, s + t)
  {
    forall i | 0 <= i < |a| ensures a[i] in Elements(a) {
    }
    forall i | 0 <= i < |b| ensures b[i] in Elements(b) {
    }
    forall x ensures x in a + b <==> x in a || x in b {
    }
  }

  /** A complete list of rows has distinct identifiers and is the set that the run builds. */
  lemma RowsComplete(rows: seq<SettlementRow>, keys: seq<RowKey>, l: Ledger, p: Scope, runId: Id, rowIds: RowKey -> Id)
    requires RowsOf(rows, keys, l, p, runId, rowIds) && Lists(keys, RowKeys(l, p))
    requires DifferentIds(l, p, rowIds)
    ensures Elements(rows) == BuiltRows(l, p, runId, rowIds)
    ensures StrictOrder(RowLess) && TotalOn(Elements(rows), RowLess)
    ensures forall i, j :: 0 <= i < j < |rows| ==> rows[i] != rows[j]
  {
    forall i | 0 <= i < |keys| ensures rows[i].id == rowIds(keys[i]) && keys[i] in RowKeys(l, p) {
      RowHeader(l, p, runId, keys[i], rowIds(keys[i]));
      assert keys[i] in Elements(keys);
    }
    hide RowOf, RowKeys;
    forall row | row in BuiltRows(l, p, runId, rowIds) ensures row in rows {
      var key :| key in RowKeys(l, p) && row == RowOf(l, p, runId, key, rowIds(key));
      assert key in Elements(keys);
      var i :| 0 <= i < |keys| && keys[i] == key;
      assert rows[i] == row;
    }
    RowOrder();
    hide RowLess, BuiltRows;
    forall a, b | a in Elements(rows) && b in Elements(rows) && a != b ensures a.id != b.id {
      var i :| 0 <= i < |rows| && rows[i] == a;
      var j :| 0 <= j < |rows| && rows[j] == b;
    }
  }

  // ---------- keys ----------

  function MatchKey(id: Id): RowKey { OfMatch(id) }
  function TransactionKey(id: Id): RowKey { OfTransaction(id) }
  function RequestKey(id: Id): RowKey { OfRequest(id) }

  /** The keys that get a row among these records. */
  ghost function KeysIn(l: Ledger, p: Scope, ids: set<Id>, make: Id -> RowKey): set<RowKey> {
    set id | id in ids && HasRow(l, p, make(id)) :: make(id)
  }

  /** Visiting one more record of a listing: its key joins exactly when it gets a row. */
  lemma KeysNext(l: Ledger, p: Scope, ids: seq<Id>, n: nat, make: Id -> RowKey, keys: seq<RowKey>)
    requires NoRepeats(ids) && n < |ids| && (forall a, b :: make(a) == make(b) ==> a == b)
    requires Lists(keys, KeysIn(l, p, Elements(ids[..n]), make))
    ensures HasRow(l, p, make(ids[n])) ==> Lists(keys + [make(ids[n])], KeysIn(l, p, Elements(ids[..n + 1]), make))
    ensures !HasRow(l, p, make(ids[n])) ==> Lists(keys, KeysIn(l, p, Elements(ids[..n + 1]), make))
  {
    hide HasRow, Lists, NoRepeats;
    PrefixNext(ids, n);
    var before, after := KeysIn(l, p, Elements(ids[..n]), make), KeysIn(l, p, Elements(ids[..n + 1]), make);
    if HasRow(l, p, make(ids[n])) {
      assert after == before + {make(ids[n])};
      AppendLists(keys, before, make(ids[n]));
    } else {
      assert after == before;
    }
  }

  lemma NoKeys(l: Ledger, p: Scope, ids: seq<Id>, make: Id -> RowKey, rowIds: RowKey -> Id, runId: Id)
    ensures Lists([], KeysIn(l, p, Elements(ids[..0]), make)) && RowsOf([], [], l, p, runId, rowIds)
  {
    assert KeysIn(l, p, Elements(ids[..0]), make) == {};
  }

  lemma KeysAre(l: Ledger, p: Scope)
    ensures KeysIn(l, p, RunMatches(l, p), MatchKey) == MatchKeys(l, p)
    ensures KeysIn(l, p, RunTransactions(l, p), TransactionKey) == TransactionKeys(l, p)
    ensures KeysIn(l, p, RunRequests(l, p), RequestKey) == RequestKeys(l, p)
  {
    hide RunMatches, RunTransactions, RunRequests, MatchedTransactions, MatchedRequests;
  }

  /** The transactions and requests of the first matches that got a row. */
  ghost function TiedTransactions(l: Ledger, p: Scope, ms: set<Id>): set<Id> {
    set m | m in ms && m in RowMatches(l, p) :: l.matches[m].transactionId
  }

  ghost function TiedRequests(l: Ledger, p: Scope, ms: set<Id>): set<Id> {
    set m | m in ms && m in RowMatches(l, p) :: l.matches[m].requestId
  }

  lemma TiedNext(l: Ledger, p: Scope, ids: seq<Id>, n: nat)
    requires NoRepeats(ids) && n < |ids|
    ensures if ids[n] in RowMatches(l, p) then
              && TiedTransactions(l, p, Elements(ids[..n + 1])) ==
                 TiedTransactions(l, p, Elements(ids[..n])) + {l.matches[ids[n]].transactionId}
              && TiedRequests(l, p, Elements(ids[..n + 1])) ==
                 TiedRequests(l, p, Elements(ids[..n])) + {l.matches[ids[n]].requestId}
            else
              && TiedTransactions(l, p, Elements(ids[..n + 1])) == TiedTransactions(l, p, Elements(ids[..n]))
              && TiedRequests(l, p, Elements(ids[..n + 1])) == TiedRequests(l, p, Elements(ids[..n]))
  {
    PrefixNext(ids, n);
    hide RunMatches;
  }

  lemma TiedEnds(l: Ledger, p: Scope, ids: seq<Id>)
    ensures TiedTransactions(l, p, Elements(ids[..0])) == {} && TiedRequests(l, p, Elements(ids[..0])) == {}
    ensures Elements(ids) == RunMatches(l, p) ==> TiedTransactions(l, p, Elements(ids)) == MatchedTransactions(l, p)
    ensures Elements(ids) == RunMatches(l, p) ==> TiedRequests(l, p, Elements(ids)) == MatchedRequests(l, p)
  {
    hide RunMatches;
  }

  lemma TransactionHasRow(l: Ledger, p: Scope, t: Id)
    requires t in RunTransactions(l, p)
    ensures TransactionKey(t) == OfTransaction(t)
    ensures (HasRow(l, p, TransactionKey(t)) <==> t !in MatchedTransactions(l, p))
  {
  }

  lemma RequestHasRow(l: Ledger, p: Scope, r: Id)
    requires r in RunRequests(l, p)
    ensures RequestKey(r) == OfRequest(r) && (HasRow(l, p, RequestKey(r)) <==> r !in MatchedRequests(l, p))
  {
  }

  /** The rows and keys of the first n records of a listing. */
  ghost predicate RowsUpTo(rows: seq<SettlementRow>, keys: seq<RowKey>, l: Ledger, p: Scope, runId: Id,
                           rowIds: RowKey -> Id,
                           ids: seq<Id>, n: nat, make: Id -> RowKey)
    requires n <= |ids|
  {
    RowsOf(rows, keys, l, p, runId, rowIds) && Lists(keys, KeysIn(l, p, Elements(ids[..n]), make))
  }

  lemma RowsStart(l: Ledger, p: Scope, runId: Id, rowIds: RowKey -> Id, ids: seq<Id>, make: Id -> RowKey)
    ensures RowsUpTo([], [], l, p, runId, rowIds, ids, 0, make)
  {
    NoKeys(l, p, ids, make, rowIds, runId);
  }

  lemma KeysDiffer()
    ensures forall a, b :: MatchKey(a) == MatchKey(b) ==> a == b
    ensures forall a, b :: TransactionKey(a) == TransactionKey(b) ==> a == b
    ensures forall a, b :: RequestKey(a) == RequestKey(b) ==> a == b
  {
  }

  /** One more record: its row joins exactly when it gets one. */
  lemma RowsStep(rows: seq<SettlementRow>, keys: seq<RowKey>, l: Ledger, p: Scope, runId: Id, rowIds: RowKey -> Id,
                 ids: seq<Id>, all: set<Id>, n: nat, make: Id -> RowKey)
    requires n < |ids| && RowsUpTo(rows, keys, l, p, runId, rowIds, ids, n, make) && Lists(ids, all)
    requires forall a, b :: make(a) == make(b) ==> a == b
    ensures ids[n] in all
    ensures var key := make(ids[n]);
            if HasRow(l, p, key)
            then RowsUpTo(rows + [RowOf(l, p, runId, key, rowIds(key))], keys + [key], l, p, runId, rowIds, ids, n + 1,
                          make)
            else RowsUpTo(rows, keys, l, p, runId, rowIds, ids, n + 1, make)
  {
    ListsHasNoRepeats(ids, all);
    ListsIs(ids, all);
    assert ids[n] in Elements(ids);
    hide HasRow, RowOf, RowsOf, KeysIn, Lists, NoRepeats;
    KeysNext(l, p, ids, n, make, keys);
    if HasRow(l, p, make(ids[n])) { RowsNext(rows, keys, l, p, runId, rowIds, make(ids[n])); }
  }

  lemma RowsEnd(rows: seq<SettlementRow>, keys: seq<RowKey>, l: Ledger, p: Scope, runId: Id, rowIds: RowKey -> Id,
                ids: seq<Id>, all: set<Id>, make: Id -> RowKey)
    requires RowsUpTo(rows, keys, l, p, runId, rowIds, ids, |ids|, make) && Lists(ids, all)
    ensures RowsOf(rows, keys, l, p, runId, rowIds) && Lists(keys, KeysIn(l, p, all, make))
  {
    ListsIs(ids, all);
    hide RowsOf, KeysIn, Lists;
    assert ids[..|ids|] == ids;
  }

  /** The filter of the row loop over matches keeps exactly the matches with a row. */
  lemma MatchHasRow(l: Ledger, p: Scope, m: Id)
    requires m in RunMatches(l, p)
    ensures m in l.matches && l.matches[m].transactionId in l.transactions
    ensures Includes(p, l.transactions[l.matches[m].transactionId].walletId)
    ensures m in RowMatches(l, p) <==> l.matches[m].requestId in l.requests
  {
  }

  /** The three parts of the rows, joined, have exactly the keys of the run. */
  lemma JoinRows(a: seq<SettlementRow>, aKeys: seq<RowKey>, b: seq<SettlementRow>, bKeys: seq<RowKey>,
                 c: seq<SettlementRow>, cKeys: seq<RowKey>, l: Ledger, p: Scope, runId: Id, rowIds: RowKey -> Id)
    requires RowsOf(a, aKeys, l, p, runId, rowIds) && Lists(aKeys, MatchKeys(l, p))
    requires RowsOf(b, bKeys, l, p, runId, rowIds) && Lists(bKeys, TransactionKeys(l, p))
    requires RowsOf(c, cKeys, l, p, runId, rowIds) && Lists(cKeys, RequestKeys(l, p))
    ensures RowsOf(a + b + c, aKeys + bKeys + cKeys, l, p, runId, rowIds) && Lists(aKeys + bKeys + cKeys, RowKeys(l, p))
  {
    assert MatchKeys(l, p) !! TransactionKeys(l, p) && (MatchKeys(l, p) + TransactionKeys(l, p)) !! RequestKeys(l, p);
    hide HasRow, RowOf, MatchKeys, TransactionKeys, RequestKeys, Lists;
    JoinLists(aKeys, bKeys, MatchKeys(l, p), TransactionKeys(l, p));
    JoinLists(aKeys + bKeys, cKeys, MatchKeys(l, p) + TransactionKeys(l, p), RequestKeys(l, p));
  }

  // ---------- snapshots ----------

  predicate WalletLess(a: Wallet, b: Wallet) {
    LexLess(a.address, b.address)
  }

  lemma AddressOrder()
    ensures StrictOrder(WalletLess)
    ensures forall a: Wallet, b: Wallet :: a.address != b.address ==> WalletLess(a, b) || WalletLess(b, a)
  {
    forall a: Wallet, b: Wallet, c: Wallet
      ensures !WalletLess(a, a)
      ensures WalletLess(a, b) && WalletLess(b, c) ==> WalletLess(a, c)
      ensures a.address != b.address ==> WalletLess(a, b) || WalletLess(b, a)
    {
      LexTotal(a.address, a.address);
      LexTotal(a.address, b.address);
      if WalletLess(a, b) && WalletLess(b, c) { LexTransitive(a.address, b.address, c.address); }
    }
  }

  /** Wallets of one business are told apart by their addresses. */
  lemma WalletOrder(ws: Wallets, found: seq<Wallet>, b: Id)
    requires WalletsOk(ws)
    requires forall i :: 0 <= i < |found| ==>
             found[i].id in ws && ws[found[i].id] == found[i] && found[i].businessId == b
    ensures StrictOrder(WalletLess) && TotalOn(Elements(found), WalletLess)
  {
    AddressOrder();
    forall x, y | x in found && y in found && x != y ensures x.address != y.address {
      assert WalletOk(x.id, x) && WalletOk(y.id, y);
    }
    hide WalletLess, WalletsOk;
  }

  // ---------- records kept by a filter ----------

  ghost function Kept<V(!new)>(m: map<Id, V>, keep: V -> bool): set<V> {
    set id | id in m && keep(m[id]) :: m[id]
  }

  /** Visiting one more record: it joins the list exactly when the filter keeps it. */
  lemma KeptNext<V(!new)>(m: map<Id, V>, todo: set<Id>, id: Id, list: seq<V>, keep: V -> bool)
    requires Lists(list, Kept(m - todo, keep)) && id in todo && id in m
    requires forall a, b :: a in m && b in m && m[a] == m[b] ==> a == b
    ensures keep(m[id]) ==> Lists(list + [m[id]], Kept(m - (todo - {id}), keep))
    ensures !keep(m[id]) ==> Lists(list, Kept(m - (todo - {id}), keep))
  {
    var before, after := Kept(m - todo, keep), Kept(m - (todo - {id}), keep);
    hide Lists;
    assert m - (todo - {id}) == (m - todo)[id := m[id]];
    KeptUpdate(m - todo, id, m[id], keep);
    if keep(m[id]) {
      AppendLists(list, before, m[id]);
    } else {
      assert after == before;
    }
  }

  lemma KeptUpdate<V(!new)>(m: map<Id, V>, id: Id, v: V, keep: V -> bool)
    requires id !in m
    ensures Kept(m[id := v], keep) == Kept(m, keep) + (if keep(v) then {v} else {})
  {
    var next := m[id := v];
    assert next[id] == v && forall a :: a in m ==> next[a] == m[a];
    forall x | x in Kept(m, keep) ensures x in Kept(next, keep) {
      var a :| a in m && keep(m[a]) && m[a] == x;
      assert next[a] == x;
    }
  }

  lemma KeptEnds<V(!new)>(m: map<Id, V>, keep: V -> bool)
    ensures Lists([], Kept(m - m.Keys, keep)) && m - {} == m
  {
    assert m - m.Keys == map[];
    assert Kept(m - m.Keys, keep) == {};
  }

  ghost function RowInRun(b: Id, runId: Id): SettlementRow -> bool {
    (row: SettlementRow) => row.businessId == b && row.runId == runId
  }

  ghost function SnapshotInRun(b: Id, runId: Id): Snapshot -> bool {
    (x: Snapshot) => x.businessId == b && x.runId == runId
  }

  ghost function EventInReceipt(b: Id, requestId: Id): ReceiptEvent -> bool {
    (e: ReceiptEvent) => e.businessId == b && e.requestId == requestId
  }

  ghost function ExceptionInRun(p: Scope, rs: Requests, ts: Transactions): PaymentException -> bool {
    x => CoversException(p, rs, ts, x)
  }

  ghost function WalletInRun(p: Scope): Wallet -> bool {
    w => CoversWallet(p, w)
  }

  /** The exceptions that a report shows. */
  ghost function ShownExceptions(l: Ledger, p: Scope): set<PaymentException> {
    Kept(l.exceptions, ExceptionInRun(p, l.requests, l.transactions))
  }

  /** Reading a run back: the filters, and the orders that make both sorts deterministic. */
  lemma StoredAreKept(r: Reports, b: Id, runId: Id)
    requires ReportsOk(r) && SnapshotsApart(r.snapshots)
    ensures Kept(r.rows, RowInRun(b, runId)) == StoredRows(r.rows, b, runId)
    ensures Kept(r.snapshots, SnapshotInRun(b, runId)) == StoredSnapshots(r.snapshots, b, runId)
    ensures StrictOrder(RowLess) && TotalOn(StoredRows(r.rows, b, runId), RowLess)
    ensures StrictOrder(SnapshotLess) && TotalOn(StoredSnapshots(r.snapshots, b, runId), SnapshotLess)
  {
    RowOrder();
    SnapshotOrder();
    hide RowLess, SnapshotLess;
    forall x, y | x in StoredSnapshots(r.snapshots, b, runId) && y in StoredSnapshots(r.snapshots, b, runId) && x != y
      ensures x.walletAddress != y.walletAddress
    {
      assert SameSpot(r.snapshots[x.id], r.snapshots[y.id]) ==> x.id == y.id;
    }
  }

  // ---------- counting ----------

  lemma CountVisited(all: set<Id>, todo: set<Id>, id: Id)
    requires id in todo
    ensures |all - (todo - {id})| == |all - todo| + (if id in all then 1 else 0)
  {
    if id in all {
      assert all - (todo - {id}) == (all - todo) + {id};
    } else {
      assert all - (todo - {id}) == all - todo;
    }
  }

  lemma CountNone(all: set<Id>, keys: set<Id>)
    requires all <= keys
    ensures |all - keys| == 0 && all - {} == all
  {
    assert all - keys == {};
  }

  // ---------- storing a run ----------

  /** The first n rows of a run have been written over the rows table. */
  ghost predicate RowsWritten(before: map<Id, SettlementRow>, rows: seq<SettlementRow>, n: nat,
                              now: map<Id, SettlementRow>)
    requires n <= |rows|
  {
    && (forall j :: 0 <= j < n ==> rows[j].id in now && now[rows[j].id] == rows[j])
    && (forall id :: id in before ==> id in now && now[id] == before[id])
    && (forall id :: id in now ==> id in before || exists j :: 0 <= j < n && rows[j].id == id)
  }

  lemma RowsWrittenNext(before: map<Id, SettlementRow>, rows: seq<SettlementRow>, n: nat, now: map<Id, SettlementRow>)
    requires n < |rows| && RowsWritten(before, rows, n, now)
    requires rows[n].id !in before && (forall i, j :: 0 <= i < j < |rows| ==> rows[i].id != rows[j].id)
    ensures RowsWritten(before, rows, n + 1, now[rows[n].id := rows[n]])
  {
  }

  ghost predicate SnapshotsWritten(before: map<Id, Snapshot>, list: seq<Snapshot>, n: nat, now: map<Id, Snapshot>)
    requires n <= |list|
  {
    && (forall j :: 0 <= j < n ==> list[j].id in now && now[list[j].id] == list[j])
    && (forall id :: id in before ==> id in now && now[id] == before[id])
    && (forall id :: id in now ==> id in before || exists j :: 0 <= j < n && list[j].id == id)
  }

  lemma SnapshotsWrittenNext(before: map<Id, Snapshot>, list: seq<Snapshot>, n: nat, now: map<Id, Snapshot>)
    requires n < |list| && SnapshotsWritten(before, list, n, now)
    requires list[n].id !in before && (forall i, j :: 0 <= i < j < |list| ==> list[i].id != list[j].id)
    ensures SnapshotsWritten(before, list, n + 1, now[list[n].id := list[n]])
  {
  }

  // ---------- listings ----------

  lemma ListsHasNoRepeats(ids: seq<Id>, s: set<Id>)
    requires Lists(ids, s)
    ensures NoRepeats(ids)
  {
  }

  lemma WalletsDiffer(ws: Wallets)
    requires WalletsOk(ws)
    ensures forall a, b :: a in ws && b in ws && ws[a] == ws[b] ==> a == b
    ensures forall w :: w in ws ==> ws[w].id == w
  {
    forall w | w in ws ensures ws[w].id == w { assert WalletOk(w, ws[w]); }
  }

  lemma WalletsListed(ws: Wallets, p: Scope, list: seq<Wallet>)
    requires WalletsOk(ws) && Lists(list, Kept(ws - {}, WalletInRun(p)))
    ensures StrictOrder(WalletLess) && TotalOn(Elements(list), WalletLess)
    ensures Elements(list) == Kept(ws, WalletInRun(p)) && (forall i, j :: 0 <= i < j < |list| ==> list[i] != list[j])
  {
    WalletsDiffer(ws);
    assert ws - {} == ws;
    forall i | 0 <= i < |list|
      ensures list[i].id in ws && ws[list[i].id] == list[i] && list[i].businessId == p.businessId
    {
      assert list[i] in Elements(list);
    }
    WalletOrder(ws, list, p.businessId);
  }

  // ---------- totals ----------

  lemma SumNone(f: Id -> real)
    ensures Sum({}, f) == 0.0
  {
  }

  /** Adding up the entries of a listing that pass a test. */
  lemma AddPassing(ids: seq<Id>, n: nat, pass: Id -> bool, f: Id -> real)
    requires n < |ids| && NoRepeats(ids)
    ensures Sum(Passing(ids, n + 1, pass), f) ==
            Sum(Passing(ids, n, pass), f) + (if pass(ids[n]) then f(ids[n]) else 0.0)
  {
    assert ids[..n + 1] == ids[..n] + [ids[n]];
    PrefixNext(ids, n);
    assert ids[n] !in ids[..n] by { assert ids[n] !in Elements(ids[..n]); }
    hide Sum;
    if pass(ids[n]) {
      assert Passing(ids, n + 1, pass) == Passing(ids, n, pass) + {ids[n]};
      SumAdd(Passing(ids, n, pass), ids[n], f);
    } else {
      assert Passing(ids, n + 1, pass) == Passing(ids, n, pass);
    }
  }

  /** The payments into one wallet. */
  ghost function InflowOf(ts: Transactions, walletId: Id): Id -> bool {
    t => t in ts && ts[t].walletId == walletId
  }

  lemma InflowEnds(l: Ledger, p: Scope, walletId: Id, ids: seq<Id>)
    requires Lists(ids, RunTransactions(l, p))
    ensures NoRepeats(ids) && (forall i :: 0 <= i < |ids| ==> ids[i] in l.transactions)
    ensures var inflow := InflowOf(l.transactions, walletId);
            && Sum(Passing(ids, 0, inflow), TransactionValue(l.transactions)) == 0.0 && |Passing(ids, 0, inflow)| == 0
            && Passing(ids, |ids|, inflow) == WalletTransactions(l, p, walletId)
            && Sum(Passing(ids, |ids|, inflow), TransactionValue(l.transactions)) == WalletReceived(l, p)(walletId)
  {
    var inflow := InflowOf(l.transactions, walletId);
    PassingAll(ids, inflow);
    forall i | 0 <= i < |ids| ensures ids[i] in l.transactions { assert ids[i] in Elements(ids); }
    assert Passing(ids, 0, inflow) == {};
    assert Passing(ids, |ids|, inflow) == WalletTransactions(l, p, walletId);
  }

  /** One more payment of the inner loop. */
  lemma InflowNext(ts: Transactions, walletId: Id, ids: seq<Id>, n: nat)
    requires n < |ids| && NoRepeats(ids) && ids[n] in ts
    ensures var inflow, value, t := InflowOf(ts, walletId), TransactionValue(ts), ts[ids[n]];
            if t.walletId == walletId then
              && Sum(Passing(ids, n + 1, inflow), value) ==
                 Sum(Passing(ids, n, inflow), value) + (if t.amount.reading.Some? then t.amount.reading.value else 0.0)
              && |Passing(ids, n + 1, inflow)| == |Passing(ids, n, inflow)| + 1
            else
              && Sum(Passing(ids, n + 1, inflow), value) == Sum(Passing(ids, n, inflow), value)
              && |Passing(ids, n + 1, inflow)| == |Passing(ids, n, inflow)|
  {
    hide Passing, Sum, NoRepeats;
    CountNext(ids, n, InflowOf(ts, walletId));
    AddPassing(ids, n, InflowOf(ts, walletId), TransactionValue(ts));
  }

  ghost function ConfirmedIn(rs: Requests): Id -> bool {
    r => r in rs && rs[r].status == Confirmed
  }

  ghost function OpenIn(xs: Exceptions): Id -> bool {
    x => x in xs && xs[x].status == Open
  }

  // ---------- building snapshots ----------

  /** list holds the snapshots of these wallets, in this order. */
  ghost predicate SnapshotsOf(list: seq<Snapshot>, found: seq<Wallet>, l: Ledger, p: Scope, runId: Id,
                              snapshotIds: Id -> Id, now: Time)
  {
    && |list| == |found|
    && forall i :: 0 <= i < |found| ==>
       found[i].id in l.wallets && list[i] == SnapshotOf(l, p, runId, found[i].id, snapshotIds(found[i].id), now)
  }

  lemma NoSnapshots(found: seq<Wallet>, l: Ledger, p: Scope, runId: Id, snapshotIds: Id -> Id, now: Time)
    ensures SnapshotsOf([], found[..0], l, p, runId, snapshotIds, now)
  {
  }

  lemma SnapshotsNext(list: seq<Snapshot>, found: seq<Wallet>, n: nat, l: Ledger, p: Scope, runId: Id,
                      snapshotIds: Id -> Id, now: Time)
    requires n < |found| && found[n].id in l.wallets && SnapshotsOf(list, found[..n], l, p, runId, snapshotIds, now)
    ensures SnapshotsOf(list + [SnapshotOf(l, p, runId, found[n].id, snapshotIds(found[n].id), now)], found[..n + 1],
                        l, p, runId, snapshotIds, now)
  {
    assert found[..n + 1] == found[..n] + [found[n]];
    hide SnapshotOf;
  }

  /** What the sorted list of a run's wallets holds. */
  lemma WalletsSorted(ws: Wallets, p: Scope, found: seq<Wallet>)
    requires WalletsOk(ws) && SortedListing(found, Kept(ws, WalletInRun(p)), WalletLess)
    ensures forall i :: 0 <= i < |found| ==>
            found[i].id in ws && ws[found[i].id] == found[i] && CoversWallet(p, found[i])
    ensures forall w :: w in ws && CoversWallet(p, ws[w]) ==> exists i :: 0 <= i < |found| && found[i].id == w
    ensures Ascending(found, WalletLess)
  {
    WalletsDiffer(ws);
    forall i | 0 <= i < |found| ensures found[i].id in ws && ws[found[i].id] == found[i] && CoversWallet(p, found[i]) {
      assert found[i] in Elements(found);
    }
    forall w | w in ws && CoversWallet(p, ws[w]) ensures exists i :: 0 <= i < |found| && found[i].id == w {
      assert ws[w] in Kept(ws, WalletInRun(p));
      assert ws[w] in found;
      var i :| 0 <= i < |found| && found[i] == ws[w];
    }
  }

  /** The snapshots of the sorted wallets are the snapshots of the run, sorted. */
  lemma SnapshotsComplete(list: seq<Snapshot>, found: seq<Wallet>, l: Ledger, p: Scope, runId: Id,
                          snapshotIds: Id -> Id, now: Time)
    requires WalletsOk(l.wallets) && SortedListing(found, Kept(l.wallets, WalletInRun(p)), WalletLess)
    requires SnapshotsOf(list, found, l, p, runId, snapshotIds, now)
    ensures SortedListing(list, BuiltSnapshots(l, p, runId, snapshotIds, now), SnapshotLess)
  {
    WalletsSorted(l.wallets, p, found);
    hide WalletsOk, SortedListing;
    forall i | 0 <= i < |found|
      ensures list[i].walletAddress == found[i].address && found[i].id in RunWallets(l, p)
      ensures list[i] in BuiltSnapshots(l, p, runId, snapshotIds, now)
    {
      SnapshotHeader(l, p, runId, found[i].id, snapshotIds(found[i].id), now);
    }
    hide SnapshotOf;
    forall x | x in BuiltSnapshots(l, p, runId, snapshotIds, now) ensures x in list {
      var w :| w in RunWallets(l, p) && x == SnapshotOf(l, p, runId, w, snapshotIds(w), now);
      var i :| 0 <= i < |found| && found[i].id == w;
      assert list[i] == x;
    }
    SortedSnapshots(list, BuiltSnapshots(l, p, runId, snapshotIds, now), found);
  }

  lemma SortedSnapshots(list: seq<Snapshot>, built: set<Snapshot>, found: seq<Wallet>)
    requires |list| == |found| && Ascending(found, WalletLess)
    requires forall i :: 0 <= i < |list| ==> list[i].walletAddress == found[i].address && list[i] in built
    requires forall x :: x in built ==> x in list
    ensures SortedListing(list, built, SnapshotLess)
  {
    hide LexLess;
    forall i, j | 0 <= i < j < |list| ensures SnapshotLess(list[i], list[j]) {
      assert WalletLess(found[i], found[j]);
    }
    forall x | x in Elements(list) ensures x in built { }
  }

  // ---------- creating and reading runs ----------

  /** A report shows a run: its totals, its sorted rows and snapshots, and its exceptions. */
  ghost predicate ShowsRun(report: Report, l: Ledger, p: Scope, now: Time, runId: Id, rowIds: RowKey -> Id,
                           snapshotIds: Id -> Id)
  {
    && report.run == RunRecord(runId, p, Totals(l, p), now)
    && SortedListing(report.rows, BuiltRows(l, p, runId, rowIds), RowLess)
    && SortedListing(report.snapshots, BuiltSnapshots(l, p, runId, snapshotIds, now), SnapshotLess)
    && Lists(report.exceptions, ShownExceptions(l, p))
  }

  /** What CreateReconciliationRun answers: a report, or the error of the first check that fails. */
  ghost predicate Answers(result: Result<Report>, l: Ledger, op: StoreOp) {
    && op.Reconcile?
    && (result.Success? <==> CanReconcile(l, op.scope))
    && (result.Success? ==> ShowsRun(result.value, l, op.scope, op.now, op.runId, op.rowIds, op.snapshotIds))
    && (result.Failure? ==>
        result.error == if NormalPeriod(op.scope.start, op.scope.end) then NotFound else InvalidArgument)
  }

  lemma Answering(l: Ledger, op: StoreOp)
    requires op.Reconcile?
    ensures var p := op.scope;
            CanReconcile(l, p) <==>
              && p.start != ZERO_TIME && p.end != ZERO_TIME && p.start < p.end
              && (p.walletId != "" ==>
                  p.walletId in l.wallets && l.wallets[p.walletId].businessId == p.businessId
                  && l.wallets[p.walletId].archivedAt.None?)
  {
  }

  /** The parts of the invariant that building a report needs. */
  lemma ForReports(l: Ledger)
    requires Inv(l)
    ensures WalletsOk(l.wallets) && ExceptionsUnique(l.exceptions) && Timed(l)
  {
    RecordsAreTimed(l);
    hide Timed;
  }

  /** Every stored record carries a clock reading. */
  ghost predicate Timed(l: Ledger) {
    && (forall t :: t in l.transactions ==> l.transactions[t].createdAt != ZERO_TIME)
    && (forall r :: r in l.requests ==> l.requests[r].updatedAt != ZERO_TIME)
    && (forall m :: m in l.matches ==> l.matches[m].createdAt != ZERO_TIME)
  }

  lemma RecordsAreTimed(l: Ledger)
    requires Inv(l)
    ensures Timed(l)
  {
    hide *;
    InvReportable(l);
    ReportableIsTimed(l);
  }

  lemma ReportableIsTimed(l: Ledger)
    requires Reportable(l)
    ensures Timed(l)
  {
  }

  lemma ExceptionsKeyed(l: Ledger)
    requires Inv(l)
    ensures forall x :: x in l.exceptions ==> l.exceptions[x].id == x
  {
    assert ExceptionsOk(l.requests, l.transactions, l.matches, l.exceptions);
    hide Inv;
    forall x | x in l.exceptions ensures l.exceptions[x].id == x {
      assert ExceptionOk(l.requests, l.transactions, l.matches, x, l.exceptions[x]);
    }
  }

  lemma RecordsListed(l: Ledger, p: Scope, ids: seq<Id>, list: seq<PaymentException>)
    requires Inv(l) && Lists(ids, RunExceptions(l, p))
    requires |list| == |ids|
    requires (forall i :: 0 <= i < |ids| ==> ids[i] in l.exceptions && list[i] == l.exceptions[ids[i]])
    ensures Lists(list, ShownExceptions(l, p))
  {
    hide Inv, CoversException;
    ExceptionsKeyed(l);
    forall i | 0 <= i < |ids| ensures ids[i] in RunExceptions(l, p)
      && list[i].id == ids[i] { assert ids[i] in Elements(ids); }
    forall x | x in ShownExceptions(l, p) ensures x in list {
      assert x.id in Elements(ids);
      var i :| 0 <= i < |ids| && ids[i] == x.id;
      assert list[i] == x;
    }
    assert NoRepeats(list);
    assert Elements(list) == ShownExceptions(l, p);
  }

  lemma ReconcileFacts(s: Store, op: StoreOp)
    requires StoreOk(s) && op.Reconcile? && FreshRows(s, op.scope, op.runId, op.rowIds, op.snapshotIds)
    ensures Inv(s.ledger) && StoreOk(Next(s, op))
    ensures CanReconcile(s.ledger, op.scope) ==>
              Next(s, op) == s.(reports := WithRun(s, op.scope, op.now, op.runId, op.rowIds, op.snapshotIds))
    ensures !CanReconcile(s.ledger, op.scope) ==> Next(s, op) == s
  {
    hide StoreOk, WithRun, CanReconcile, FreshRows;
    NextKeepsOk(s, op);
    InvOf(s);
  }

  lemma DifferentRows(s: Store, op: StoreOp)
    requires op.Reconcile? && FreshRows(s, op.scope, op.runId, op.rowIds, op.snapshotIds)
    ensures DifferentIds(s.ledger, op.scope, op.rowIds)
  {
    hide RowKeys, RunWallets;
  }

  lemma InvOf(s: Store)
    requires StoreOk(s)
    ensures Inv(s.ledger)
  {
  }

  /** The rows and snapshots of a new run have unused and distinct identifiers. */
  lemma ReportIsFresh(s: Store, op: StoreOp, report: Report)
    requires op.Reconcile? && FreshRows(s, op.scope, op.runId, op.rowIds, op.snapshotIds)
    requires ShowsRun(report, s.ledger, op.scope, op.now, op.runId, op.rowIds, op.snapshotIds)
    ensures forall i :: 0 <= i < |report.rows| ==> report.rows[i].id !in s.reports.rows
    ensures forall i, j :: 0 <= i < j < |report.rows| ==> report.rows[i].id != report.rows[j].id
    ensures forall i :: 0 <= i < |report.snapshots| ==> report.snapshots[i].id !in s.reports.snapshots
    ensures forall i, j :: 0 <= i < j < |report.snapshots| ==> report.snapshots[i].id != report.snapshots[j].id
  {
    hide FreshRows, SortedListing, BuiltRows, BuiltSnapshots, ShownExceptions, Lists, Totals;
    RowsAreFresh(s, op, report.rows);
    SnapshotsAreFresh(s, op, report.snapshots);
  }

  lemma RowsAreFresh(s: Store, op: StoreOp, rows: seq<SettlementRow>)
    requires op.Reconcile? && FreshRows(s, op.scope, op.runId, op.rowIds, op.snapshotIds)
    requires SortedListing(rows, BuiltRows(s.ledger, op.scope, op.runId, op.rowIds), RowLess)
    ensures forall i :: 0 <= i < |rows| ==> rows[i].id !in s.reports.rows
    ensures forall i, j :: 0 <= i < j < |rows| ==> rows[i].id != rows[j].id
  {
    var l, p := s.ledger, op.scope;
    RowOrder();
    hide RowLess, RowKeys, RunWallets;
    forall i | 0 <= i < |rows|
      ensures exists key ::
              key in RowKeys(l, p) && rows[i] == RowOf(l, p, op.runId, key, op.rowIds(key))
              && rows[i].id == op.rowIds(key)
    {
      assert rows[i] in Elements(rows);
      var key :| key in RowKeys(l, p) && rows[i] == RowOf(l, p, op.runId, key, op.rowIds(key));
      RowHeader(l, p, op.runId, key, op.rowIds(key));
    }
    hide RowOf, BuiltRows;
    forall i, j | 0 <= i < j < |rows| ensures rows[i].id != rows[j].id {
      assert rows[i] != rows[j];
    }
  }

  lemma SnapshotsAreFresh(s: Store, op: StoreOp, snapshots: seq<Snapshot>)
    requires op.Reconcile? && FreshRows(s, op.scope, op.runId, op.rowIds, op.snapshotIds)
    requires SortedListing(snapshots, BuiltSnapshots(s.ledger, op.scope, op.runId, op.snapshotIds, op.now),
                           SnapshotLess)
    ensures forall i :: 0 <= i < |snapshots| ==> snapshots[i].id !in s.reports.snapshots
    ensures forall i, j :: 0 <= i < j < |snapshots| ==> snapshots[i].id != snapshots[j].id
  {
    var l, p := s.ledger, op.scope;
    SnapshotOrder();
    hide SnapshotLess, RowKeys, RunWallets;
    forall i | 0 <= i < |snapshots|
      ensures exists w ::
                w in RunWallets(l, p) && w in l.wallets
                && snapshots[i] == SnapshotOf(l, p, op.runId, w, op.snapshotIds(w), op.now)
                && snapshots[i].id == op.snapshotIds(w)
    {
      assert snapshots[i] in Elements(snapshots);
      var w :| w in RunWallets(l, p) && snapshots[i] == SnapshotOf(l, p, op.runId, w, op.snapshotIds(w), op.now);
      SnapshotIdIs(l, p, op.runId, w, op.snapshotIds(w), op.now);
    }
    hide SnapshotOf, BuiltSnapshots;
    forall i, j | 0 <= i < j < |snapshots| ensures snapshots[i].id != snapshots[j].id {
      assert snapshots[i] != snapshots[j];
    }
  }

  lemma SnapshotIdIs(l: Ledger, p: Scope, runId: Id, w: Id, id: Id, now: Time)
    requires w in l.wallets
    ensures SnapshotOf(l, p, runId, w, id, now).id == id
  {
  }

  /** Once all its rows and snapshots are written, a run is stored as the mathematical store says. */
  lemma RunWritten(s: Store, op: StoreOp, report: Report, now: Reports)
    requires op.Reconcile? && FreshRows(s, op.scope, op.runId, op.rowIds, op.snapshotIds)
    requires ShowsRun(report, s.ledger, op.scope, op.now, op.runId, op.rowIds, op.snapshotIds)
    requires now.runs == s.reports.runs[op.runId := report.run]
    requires SnapshotsWritten(s.reports.snapshots, report.snapshots, |report.snapshots|, now.snapshots)
    requires RowsWritten(s.reports.rows, report.rows, |report.rows|, now.rows)
    ensures now == WithRun(s, op.scope, op.now, op.runId, op.rowIds, op.snapshotIds)
  {
    hide FreshRows, SortedListing, RowTable, SnapshotTable, Totals, RowsWritten, SnapshotsWritten, BuiltRows,
         BuiltSnapshots, ShownExceptions, Lists;
    RowsStored(s, op, report.rows, now.rows);
    SnapshotsStored(s, op, report.snapshots, now.snapshots);
  }

  lemma RowsStored(s: Store, op: StoreOp, rows: seq<SettlementRow>, now: map<Id, SettlementRow>)
    requires op.Reconcile? && FreshRows(s, op.scope, op.runId, op.rowIds, op.snapshotIds)
    requires SortedListing(rows, BuiltRows(s.ledger, op.scope, op.runId, op.rowIds), RowLess)
    requires RowsWritten(s.reports.rows, rows, |rows|, now)
    ensures now == s.reports.rows + RowTable(s.ledger, op.scope, op.runId, RowKeys(s.ledger, op.scope), op.rowIds)
  {
    var l, p := s.ledger, op.scope;
    var table := RowTable(l, p, op.runId, RowKeys(l, p), op.rowIds);
    RowTableComplete(l, p, op.runId, op.rowIds);
    RowsAreFresh(s, op, rows);
    forall id | id in table ensures table[id].id == id && table[id] in rows {
      RowTableRows(l, p, op.runId, op.rowIds, id);
      assert table[id] in Elements(rows);
    }
    forall i | 0 <= i < |rows| ensures rows[i].id in table && table[rows[i].id] == rows[i] {
      assert rows[i] in Elements(rows);
    }
    hide RowTable, RowKeys, BuiltRows, RowLess, FreshRows, SortedListing;
    WrittenIsMerged(s.reports.rows, rows, table, now);
  }

  lemma WrittenIsMerged(before: map<Id, SettlementRow>, rows: seq<SettlementRow>, table: map<Id, SettlementRow>,
                        now: map<Id, SettlementRow>)
    requires RowsWritten(before, rows, |rows|, now)
    requires forall id :: id in table ==> table[id].id == id && table[id] in rows
    requires forall i :: 0 <= i < |rows| ==>
             rows[i].id in table && table[rows[i].id] == rows[i] && rows[i].id !in before
    ensures now == before + table
  {
    forall id | id in table ensures id in now && now[id] == table[id] {
      var j :| 0 <= j < |rows| && rows[j] == table[id];
    }
  }

  lemma SnapshotsStored(s: Store, op: StoreOp, snapshots: seq<Snapshot>, now: map<Id, Snapshot>)
    requires op.Reconcile? && FreshRows(s, op.scope, op.runId, op.rowIds, op.snapshotIds)
    requires SortedListing(snapshots, BuiltSnapshots(s.ledger, op.scope, op.runId, op.snapshotIds, op.now),
                           SnapshotLess)
    requires SnapshotsWritten(s.reports.snapshots, snapshots, |snapshots|, now)
    ensures now == s.reports.snapshots
            + SnapshotTable(s.ledger, op.scope, op.runId, RunWallets(s.ledger, op.scope), op.snapshotIds, op.now)
  {
    var l, p := s.ledger, op.scope;
    var table := SnapshotTable(l, p, op.runId, RunWallets(l, p), op.snapshotIds, op.now);
    SnapshotsAreFresh(s, op, snapshots);
    forall id | id in table ensures table[id].id == id && table[id] in snapshots {
      SnapshotTableRows(l, p, op.runId, op.snapshotIds, op.now, id);
      assert table[id] in Elements(snapshots);
    }
    forall i | 0 <= i < |snapshots| ensures snapshots[i].id in table && table[snapshots[i].id] == snapshots[i] {
      assert snapshots[i] in Elements(snapshots);
      SnapshotTableComplete(s, op, snapshots[i]);
    }
    hide SnapshotTable, RunWallets, BuiltSnapshots, SnapshotLess, FreshRows, SortedListing;
    SnapshotsMerged(s.reports.snapshots, snapshots, table, now);
  }

  lemma SnapshotTableComplete(s: Store, op: StoreOp, x: Snapshot)
    requires op.Reconcile? && FreshRows(s, op.scope, op.runId, op.rowIds, op.snapshotIds)
    requires x in BuiltSnapshots(s.ledger, op.scope, op.runId, op.snapshotIds, op.now)
    ensures var table := SnapshotTable(s.ledger, op.scope, op.runId, RunWallets(s.ledger, op.scope), op.snapshotIds,
                                       op.now);
            x.id in table && table[x.id] == x
  {
    var l, p := s.ledger, op.scope;
    var w :| w in RunWallets(l, p) && x == SnapshotOf(l, p, op.runId, w, op.snapshotIds(w), op.now);
    SnapshotIdIs(l, p, op.runId, w, op.snapshotIds(w), op.now);
    hide SnapshotOf, RunWallets, RowKeys;
  }

  lemma SnapshotsMerged(before: map<Id, Snapshot>, list: seq<Snapshot>, table: map<Id, Snapshot>,
                        now: map<Id, Snapshot>)
    requires SnapshotsWritten(before, list, |list|, now)
    requires forall id :: id in table ==> table[id].id == id && table[id] in list
    requires forall i :: 0 <= i < |list| ==>
             list[i].id in table && table[list[i].id] == list[i] && list[i].id !in before
    ensures now == before + table
  {
    forall id | id in table ensures id in now && now[id] == table[id] {
      var j :| 0 <= j < |list| && list[j] == table[id];
    }
  }

  // ---------- tables keyed by identifier ----------

  lemma SnapshotsDiffer(s: Store)
    requires StoreOk(s)
    ensures ReportsOk(s.reports) && SnapshotsApart(s.reports.snapshots)
    ensures forall a, b ::
              && a in s.reports.snapshots && b in s.reports.snapshots
              && s.reports.snapshots[a] == s.reports.snapshots[b]
              ==> a == b
  {
    hide Inv;
  }

  lemma StoredSnapshotsAreKept(s: Store, b: Id, runId: Id)
    requires StoreOk(s)
    ensures var stored := s.reports.snapshots;
            && Kept(stored, SnapshotInRun(b, runId)) == StoredSnapshots(stored, b, runId)
            && StrictOrder(SnapshotLess) && TotalOn(StoredSnapshots(stored, b, runId), SnapshotLess)
            && (forall x, y :: x in stored && y in stored && stored[x] == stored[y] ==> x == y)
  {
    hide *;
    SnapshotsDiffer(s);
    StoredAreKept(s.reports, b, runId);
  }

  lemma RowsDiffer(s: Store)
    requires StoreOk(s)
    ensures forall a, b ::
            a in s.reports.rows && b in s.reports.rows && s.reports.rows[a] == s.reports.rows[b] ==> a == b
  {
    hide Inv;
  }

  lemma EventsDiffer(s: Store, b: Id, requestId: Id)
    requires StoreOk(s)
    ensures forall e :: e in s.ledger.events ==> s.ledger.events[e].id == e
    ensures Kept(s.ledger.events, EventInReceipt(b, requestId)) == EventsOfRequest(s.ledger.events, b, requestId)
  {
    var l := s.ledger;
    assert EventsOk(l.requests, l.matches, l.events);
    hide StoreOk;
    forall e | e in l.events ensures l.events[e].id == e { assert EventOk(l.requests, l.matches, e, l.events[e]); }
  }

  lemma ListsIs<T(!new)>(list: seq<T>, s: set<T>)
    requires Lists(list, s)
    ensures Elements(list) == s && (forall i, j :: 0 <= i < j < |list| ==> list[i] != list[j])
  {
  }

  // ---------- the signature index ----------

  ghost predicate Indexed(ts: Transactions, scope: string, id: Id) {
    exists t :: t in ts && ScopeOf(ts[t]) == scope && ts[t].id == id
  }

  /** Whatever order the rebuilding loop visits transactions in, it restores the index that was maintained. */
  lemma IndexIsRestored(s: Store, index: map<string, Id>)
    requires StoreOk(s)
    requires forall t :: t in s.ledger.transactions ==> ScopeOf(s.ledger.transactions[t]) in index
    requires forall scope :: scope in index ==> Indexed(s.ledger.transactions, scope, index[scope])
    ensures index == s.ledger.signatures
  {
    TransactionsKeyed(s);
    hide StoreOk, ScopeOf;
    var ts, kept := s.ledger.transactions, s.ledger.signatures;
    forall scope | scope in index ensures scope in kept && kept[scope] == index[scope] {
      var t :| t in ts && ScopeOf(ts[t]) == scope && ts[t].id == index[scope];
    }
    forall scope | scope in kept ensures scope in index {
      assert ScopeOf(ts[kept[scope]]) == scope;
    }
  }

  /** The tables of a file, with the two indexes. */
  ghost function OnFile(i: Persistence.Image, index: map<string, Id>, hashes: map<string, Id>): Store {
    Store(Ledger(i.wallets, i.requests, i.transactions, index, i.matches, i.exceptions, i.events, i.idempotency),
          Hooks(i.subscriptions, i.deliveries), i.reports, Keys(i.apiKeys, hashes))
  }

  /** Tables loaded from a file, with their indexes rebuilt, are the saved store without its webhook secrets. */
  lemma Restored(saved: Store, i: Persistence.Image, index: map<string, Id>, hashes: map<string, Id>, v: Store)
    requires v == OnFile(i, index, hashes)
    requires forall t :: t in i.transactions ==> ScopeOf(i.transactions[t]) in index
    requires forall scope :: scope in index ==> Indexed(i.transactions, scope, index[scope])
    requires forall k :: k in i.apiKeys ==> i.apiKeys[k].secretHash in hashes
    requires forall h :: h in hashes ==> HashIndexed(i.apiKeys, h, hashes[h])
    requires i == Encode(saved) && StoreOk(saved)
    ensures v == Forget(saved) && StoreOk(v)
  {
    KeysAreOk(saved);
    hide StoreOk, ScopeOf, Indexed, WithoutSecrets, KeysOk, HashIndexed;
    HashesAreRestored(saved.keys, hashes);
    assert i.transactions == saved.ledger.transactions;
    IndexIsRestored(saved, index);
    ForgetKeepsOk(saved);
  }

  lemma Subscribed(s: Store, sub: Subscription)
    requires StoreOk(s) && sub.id != "" && sub.id !in s.hooks.subscriptions && sub.enabled
    ensures var s' := Next(s, Subscribe(sub));
            StoreOk(s') && s' == s.(hooks := s.hooks.(subscriptions := s.hooks.subscriptions[sub.id := sub]))
  {
    hide StoreOk;
    NextKeepsOk(s, Subscribe(sub));
  }

  lemma KeyCreated(s: Store, key: ApiKey)
    requires StoreOk(s) && FreshKey(s.keys, key)
    ensures StoreOk(Next(s, CreateKey(key))) && Next(s, CreateKey(key)) == s.(keys := WithKey(s.keys, key))
    ensures Authenticated(WithKey(s.keys, key), key.secretHash) == Success(key)
  {
    hide StoreOk;
    NextKeepsOk(s, CreateKey(key));
  }

  lemma KeyRevoked(s: Store, businessId: Id, id: Id, now: Clock)
    requires StoreOk(s)
    ensures var op := RevokeKey(businessId, id, now);
            StoreOk(Next(s, op)) && Next(s, op) == s.(keys := WithRevoked(s.keys, businessId, id, now))
    ensures KeysOk(s.keys)
  {
    hide *;
    KeysAreOk(s);
    RevocationIsAStep(s, businessId, id, now);
    NextKeepsOk(s, RevokeKey(businessId, id, now));
  }

  /** A revocation can always happen, and touches the keys only. */
  lemma RevocationIsAStep(s: Store, businessId: Id, id: Id, now: Clock)
    ensures var op := RevokeKey(businessId, id, now);
            CanHappen(s, op) && Next(s, op) == s.(keys := WithRevoked(s.keys, businessId, id, now))
  {
  }

  lemma KeysAreOk(s: Store)
    requires StoreOk(s)
    ensures KeysOk(s.keys)
  {
  }

  lemma TransactionsKeyed(s: Store)
    requires StoreOk(s)
    ensures SignaturesOk(s.ledger.transactions, s.ledger.signatures)
    ensures forall t :: t in s.ledger.transactions ==> s.ledger.transactions[t].id == t
  {
    assert TransactionsOk(s.ledger.wallets, s.ledger.transactions);
    hide StoreOk, ScopeOf;
    forall t | t in s.ledger.transactions ensures s.ledger.transactions[t].id == t {
      assert TransactionOk(s.ledger.wallets, t, s.ledger.transactions[t]);
    }
  }

  // ---------- metrics ----------

  /** Visiting one more request in the counting loop. */
  lemma RequestCounted(l: Ledger, b: Id, todo: set<Id>, id: Id)
    requires id in todo && id in l.requests
    ensures var mine, status := l.requests[id].businessId == b, l.requests[id].status;
            var left := todo - {id};
            && |RequestsOf(l, b) - left| == |RequestsOf(l, b) - todo| + (if mine then 1 else 0)
            && |RequestsIn(l, b, Underpaid) - left| ==
               |RequestsIn(l, b, Underpaid) - todo| + (if mine && status == Underpaid then 1 else 0)
            && |RequestsIn(l, b, Overpaid) - left| ==
               |RequestsIn(l, b, Overpaid) - todo| + (if mine && status == Overpaid then 1 else 0)
            && |RequestsIn(l, b, Expired) - left| ==
               |RequestsIn(l, b, Expired) - todo| + (if mine && status == Expired then 1 else 0)
  {
    CountVisited(RequestsOf(l, b), todo, id);
    CountVisited(RequestsIn(l, b, Underpaid), todo, id);
    CountVisited(RequestsIn(l, b, Overpaid), todo, id);
    CountVisited(RequestsIn(l, b, Expired), todo, id);
  }

  lemma RequestCountEnds(l: Ledger, b: Id)
    ensures |RequestsOf(l, b) - l.requests.Keys| == 0 && RequestsOf(l, b) - {} == RequestsOf(l, b)
    ensures forall s :: |RequestsIn(l, b, s) - l.requests.Keys| == 0 && RequestsIn(l, b, s) - {} == RequestsIn(l, b, s)
  {
    CountNone(RequestsOf(l, b), l.requests.Keys);
    forall s ensures |RequestsIn(l, b, s) - l.requests.Keys| == 0 && RequestsIn(l, b, s) - {} == RequestsIn(l, b, s) {
      CountNone(RequestsIn(l, b, s), l.requests.Keys);
    }
  }

  lemma TransactionCountEnds(l: Ledger, b: Id)
    ensures |TransactionsOf(l, b) - l.transactions.Keys| == 0 && TransactionsOf(l, b) - {} == TransactionsOf(l, b)
    ensures forall s ::
              |TransactionsIn(l, b, s) - l.transactions.Keys| == 0
              && TransactionsIn(l, b, s) - {} == TransactionsIn(l, b, s)
  {
    CountNone(TransactionsOf(l, b), l.transactions.Keys);
    forall s
      ensures |TransactionsIn(l, b, s) - l.transactions.Keys| == 0
              && TransactionsIn(l, b, s) - {} == TransactionsIn(l, b, s)
    {
      CountNone(TransactionsIn(l, b, s), l.transactions.Keys);
    }
  }

  /** Visiting one more transaction in the counting loop. */
  lemma TransactionCounted(l: Ledger, b: Id, todo: set<Id>, id: Id)
    requires id in todo && id in l.transactions
    ensures var mine, status := l.transactions[id].businessId == b, l.transactions[id].status;
            var left := todo - {id};
            && |TransactionsOf(l, b) - left| == |TransactionsOf(l, b) - todo| + (if mine then 1 else 0)
            && |TransactionsIn(l, b, MatchedToRequest) - left| ==
               |TransactionsIn(l, b, MatchedToRequest) - todo| + (if mine && status == MatchedToRequest then 1 else 0)
            && |TransactionsIn(l, b, Orphaned) - left| ==
               |TransactionsIn(l, b, Orphaned) - todo| + (if mine && status == Orphaned then 1 else 0)
  {
    CountVisited(TransactionsOf(l, b), todo, id);
    CountVisited(TransactionsIn(l, b, MatchedToRequest), todo, id);
    CountVisited(TransactionsIn(l, b, Orphaned), todo, id);
  }
}
