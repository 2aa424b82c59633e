/** Whole reports are functions of the business's own records. */
module ReportTenancy {
  import opened Amounts
  import opened Models
  import opened LedgerModel
  import opened LedgerInvariant
  import opened Tenancy
  import opened Reconciliation
  import opened ReportTheorems
  import opened ReportScopes

  /** An exception names records of its own business only, so the unfiltered wallet lookup sees the same. */
  lemma WalletLookupLocal(l: Ledger, p: Scope, x: Id)
    requires Inv(l) && x in l.exceptions && l.exceptions[x].businessId == p.businessId
    ensures var q, e := Project(l, p.businessId), l.exceptions[x];
            ExceptionInWallet(p, q.requests, q.transactions, e) <==> ExceptionInWallet(p, l.requests, l.transactions, e)
  {
    hide Inv, Project;
    ExceptionOwnerIs(l, x);
    OwnerOf(l, x);
    ProjectionSees(l, p.businessId);
  }

  lemma ExceptionsSeen(l: Ledger, b: Id)
    ensures var xs := Project(l, b).exceptions;
            && (forall x :: x in xs <==> x in l.exceptions && l.exceptions[x].businessId == b)
            && (forall x :: x in xs ==> xs[x] == l.exceptions[x])
  {
  }

  lemma RunExceptionsLocal(l: Ledger, p: Scope)
    requires Inv(l)
    ensures RunExceptions(Project(l, p.businessId), p) == RunExceptions(l, p)
  {
    var q := Project(l, p.businessId);
    hide Inv, Project, ExceptionInWallet, InPeriod;
    ExceptionsSeen(l, p.businessId);
    forall x | x in l.exceptions && l.exceptions[x].businessId == p.businessId
      ensures CoversException(p, q.requests, q.transactions, l.exceptions[x]) <==>
              CoversException(p, l.requests, l.transactions, l.exceptions[x])
    {
      WalletLookupLocal(l, p, x);
    }
  }

  /** The counts of a run are local. */
  lemma RunTotalsLocal(l: Ledger, p: Scope)
    requires Inv(l)
    ensures Totals(Project(l, p.businessId), p) == Totals(l, p)
  {
    var q := Project(l, p.businessId);
    hide Inv, Project, Reportable, RunRequests, RunTransactions, RunMatches, RunExceptions, RowMatches,
         MatchedTransactions, MatchedRequests, TotalReceived;
    InvReportable(l);
    RunSetsLocal(l, p);
    RunExceptionsLocal(l, p);
    RowMatchesLocal(l, p);
    MatchedSame(l, q, p);
    TotalsLocal(l, p);
    ConfirmedLocal(l, p);
    OpenLocal(l, p);
  }

  lemma ConfirmedLocal(l: Ledger, p: Scope)
    requires Inv(l)
    ensures var q := Project(l, p.businessId);
            (set r | r in RunRequests(q, p) && q.requests[r].status == Confirmed) ==
              set r | r in RunRequests(l, p) && l.requests[r].status == Confirmed
  {
    hide *;
    InvReportable(l);
    RunSetsLocal(l, p);
    ProjectionSees(l, p.businessId);
    RunRequestsStored(l, Project(l, p.businessId), p);
  }

  lemma OpenLocal(l: Ledger, p: Scope)
    requires Inv(l)
    ensures var q := Project(l, p.businessId);
            (set x | x in RunExceptions(q, p) && q.exceptions[x].status == Open) ==
              set x | x in RunExceptions(l, p) && l.exceptions[x].status == Open
  {
    hide *;
    RunExceptionsLocal(l, p);
    ExceptionsSeen(l, p.businessId);
    RunExceptionsStored(l, Project(l, p.businessId), p);
  }

  lemma RunRequestsStored(l: Ledger, q: Ledger, p: Scope)
    requires RunRequests(q, p) == RunRequests(l, p) && Sees(l, q, p.businessId)
    ensures forall r :: r in RunRequests(l, p) ==> r in l.requests && r in q.requests && q.requests[r] == l.requests[r]
  {
    hide CoversRequest;
  }

  lemma RunExceptionsStored(l: Ledger, q: Ledger, p: Scope)
    requires RunExceptions(q, p) == RunExceptions(l, p)
    requires (forall x :: x in q.exceptions && x in l.exceptions ==> q.exceptions[x] == l.exceptions[x])
    ensures forall x :: x in RunExceptions(l, p) ==>
            x in l.exceptions && x in q.exceptions && q.exceptions[x] == l.exceptions[x]
  {
    hide CoversException;
  }

  lemma SnapshotLocal(l: Ledger, p: Scope, runId: Id, w: Id, id: Id, now: Time)
    requires Inv(l) && w in RunWallets(l, p) && w in l.wallets && w in Project(l, p.businessId).wallets
    ensures SnapshotOf(Project(l, p.businessId), p, runId, w, id, now) == SnapshotOf(l, p, runId, w, id, now)
  {
    var q := Project(l, p.businessId);
    hide Inv, Project, Reportable, RunTransactions, RunWallets, Print;
    InvReportable(l);
    RunSetsLocal(l, p);
    ProjectionSees(l, p.businessId);
    RunTransactionsStored(l, q, p);
    assert WalletTransactions(q, p, w) == WalletTransactions(l, p, w);
    SumCongruent(WalletTransactions(l, p, w), TransactionValue(q.transactions), TransactionValue(l.transactions));
  }

  lemma RunTransactionsStored(l: Ledger, q: Ledger, p: Scope)
    requires RunTransactions(q, p) == RunTransactions(l, p) && Sees(l, q, p.businessId)
    ensures forall t :: t in RunTransactions(l, p) ==>
            t in l.transactions && t in q.transactions && q.transactions[t] == l.transactions[t]
  {
    hide CoversTransaction;
  }

  /**
   The totals, rows and snapshots of a run are those that the business's own records
   alone would give: nothing another business stores shows in them.
   */
  lemma WholeReportsAreLocal(l: Ledger, p: Scope, runId: Id, rowIds: RowKey -> Id, snapshotIds: Id -> Id, now: Time)
    requires Inv(l)
    ensures var own := Project(l, p.businessId);
            && Totals(own, p) == Totals(l, p)
            && BuiltRows(own, p, runId, rowIds) == BuiltRows(l, p, runId, rowIds)
            && BuiltSnapshots(own, p, runId, snapshotIds, now) == BuiltSnapshots(l, p, runId, snapshotIds, now)
  {
    hide Inv, Project, Totals, RowKeys, RowOf, HasRow, SnapshotOf;
    RunTotalsLocal(l, p);
    RowsLocal(l, p, runId, rowIds);
    SnapshotsLocal(l, p, runId, snapshotIds, now);
  }

  lemma RowsLocal(l: Ledger, p: Scope, runId: Id, rowIds: RowKey -> Id)
    requires Inv(l)
    ensures BuiltRows(Project(l, p.businessId), p, runId, rowIds) == BuiltRows(l, p, runId, rowIds)
  {
    var q := Project(l, p.businessId);
    hide Inv, Project, RowKeys, RowOf, HasRow, TotalReceived;
    RowKeysLocal(l, p);
    assert RowKeys(q, p) == RowKeys(l, p);
    forall key | key in RowKeys(l, p)
      ensures RowOf(q, p, runId, key, rowIds(key)) == RowOf(l, p, runId, key, rowIds(key))
    {
      ReportsAreLocal(l, p, runId, key, rowIds(key));
    }
  }

  lemma SnapshotsLocal(l: Ledger, p: Scope, runId: Id, snapshotIds: Id -> Id, now: Time)
    requires Inv(l)
    ensures BuiltSnapshots(Project(l, p.businessId), p, runId, snapshotIds, now) ==
            BuiltSnapshots(l, p, runId, snapshotIds, now)
  {
    var q := Project(l, p.businessId);
    hide Inv, Project, Reportable, SnapshotOf, RunTransactions, RunRequests, RunMatches, Sees;
    InvReportable(l);
    RunSetsLocal(l, p);
    forall w | w in RunWallets(l, p)
      ensures SnapshotOf(q, p, runId, w, snapshotIds(w), now) == SnapshotOf(l, p, runId, w, snapshotIds(w), now)
    {
      SnapshotLocal(l, p, runId, w, snapshotIds(w), now);
    }
  }
}
