/** How reports relate across periods and across businesses. */
module ReportScopes {
  import opened Finite
  import opened Models
  import opened LedgerModel
  import opened LedgerInvariant
  import opened Metrics
  import opened Tenancy
  import opened Reconciliation
  import opened ReportTheorems

  // ---------- adjacent periods ----------

  /** [start, mid) and [mid, end) of the same business and wallet. */
  predicate Adjacent(first: Scope, second: Scope, whole: Scope) {
    && first == whole.(end := first.end)
    && second == whole.(start := first.end)
    && whole.start <= first.end <= whole.end
  }

  lemma TransactionsSplit(l: Ledger, first: Scope, second: Scope, whole: Scope)
    requires Reportable(l) && Adjacent(first, second, whole)
    ensures RunTransactions(l, first) !! RunTransactions(l, second)
    ensures RunTransactions(l, whole) == RunTransactions(l, first) + RunTransactions(l, second)
  {
    forall t | t in l.transactions ensures l.transactions[t].detectedAt == l.transactions[t].createdAt {
      assert TransactionOk(l.wallets, t, l.transactions[t]);
    }
    hide Reportable;
  }

  lemma MatchesSplit(l: Ledger, first: Scope, second: Scope, whole: Scope)
    requires Adjacent(first, second, whole)
    ensures RunMatches(l, first) !! RunMatches(l, second)
    ensures RunMatches(l, whole) == RunMatches(l, first) + RunMatches(l, second)
  {
  }

  /** Transactions, matches and money of adjacent periods add up to those of the whole. */
  lemma AdjacentPeriodsAdd(l: Ledger, first: Scope, second: Scope, whole: Scope)
    requires Inv(l) && Adjacent(first, second, whole)
    ensures |RunTransactions(l, whole)| == |RunTransactions(l, first)| + |RunTransactions(l, second)|
    ensures |RunMatches(l, whole)| == |RunMatches(l, first)| + |RunMatches(l, second)|
    ensures TotalReceived(l, whole) == TotalReceived(l, first) + TotalReceived(l, second)
  {
    InvReportable(l);
    TransactionsSplit(l, first, second, whole);
    MatchesSplit(l, first, second, whole);
    hide Inv, Reportable, RunTransactions, RunMatches;
    SumUnion(RunTransactions(l, first), RunTransactions(l, second), TransactionValue(l.transactions));
  }

  /** A request created in one of the periods and last updated in the other. */
  ghost function Straddling(l: Ledger, first: Scope, second: Scope): set<Id> {
    RunRequests(l, first) * RunRequests(l, second)
  }

  /** Request counts add up exactly when no request straddles the boundary. */
  lemma RequestsAddUnlessStraddling(l: Ledger, first: Scope, second: Scope, whole: Scope)
    requires Adjacent(first, second, whole)
    ensures |RunRequests(l, whole)| ==
            |RunRequests(l, first)| + |RunRequests(l, second)| - |Straddling(l, first, second)|
    ensures |RunRequests(l, whole)| == |RunRequests(l, first)| + |RunRequests(l, second)| <==>
            forall r :: r in l.requests && CoversRequest(whole, l.requests[r]) ==>
              (InPeriod(first, l.requests[r].createdAt) || InPeriod(first, l.requests[r].updatedAt)) !=
              (InPeriod(second, l.requests[r].createdAt) || InPeriod(second, l.requests[r].updatedAt))
  {
    StraddlingIs(l, first, second, whole);
    hide *;
    var a, b, both := RunRequests(l, first), RunRequests(l, second), Straddling(l, first, second);
    assert |a + b| == |a| + |b| - |a * b|;
    assert |both| == 0 <==> both == {};
  }

  lemma StraddlingIs(l: Ledger, first: Scope, second: Scope, whole: Scope)
    requires Adjacent(first, second, whole)
    ensures RunRequests(l, whole) == RunRequests(l, first) + RunRequests(l, second)
    ensures Straddling(l, first, second) == RunRequests(l, first) * RunRequests(l, second)
    ensures forall r :: r in Straddling(l, first, second) ==> r in l.requests && CoversRequest(whole, l.requests[r])
    ensures forall r :: r in l.requests && CoversRequest(whole, l.requests[r]) ==>
              (r in Straddling(l, first, second) <==>
                (InPeriod(first, l.requests[r].createdAt) || InPeriod(first, l.requests[r].updatedAt)) ==
                (InPeriod(second, l.requests[r].createdAt) || InPeriod(second, l.requests[r].updatedAt)))
  {
  }

  // ---------- reports see one business only ----------

  /** What the projection holds. */
  ghost predicate Sees(l: Ledger, q: Ledger, b: Id) {
    && (forall k :: k in q.wallets <==> k in l.wallets && l.wallets[k].businessId == b)
    && (forall k :: k in q.requests <==> k in l.requests && l.requests[k].businessId == b)
    && (forall k :: k in q.transactions <==> k in l.transactions && l.transactions[k].businessId == b)
    && (forall k :: k in q.matches <==> k in l.matches && l.matches[k].businessId == b)
    && (forall k :: k in q.wallets ==> q.wallets[k] == l.wallets[k])
    && (forall k :: k in q.requests ==> q.requests[k] == l.requests[k])
    && (forall k :: k in q.transactions ==> q.transactions[k] == l.transactions[k])
    && (forall k :: k in q.matches ==> q.matches[k] == l.matches[k])
  }

  lemma ProjectionSees(l: Ledger, b: Id)
    ensures Sees(l, Project(l, b), b)
  {
  }

  lemma RunSetsSeen(l: Ledger, q: Ledger, p: Scope)
    requires Sees(l, q, p.businessId)
    requires forall m :: m in l.matches ==> l.matches[m].transactionId in l.transactions
                                            && l.transactions[l.matches[m].transactionId].businessId ==
                                               l.matches[m].businessId
    ensures RunTransactions(q, p) == RunTransactions(l, p)
    ensures RunRequests(q, p) == RunRequests(l, p)
    ensures RunMatches(q, p) == RunMatches(l, p)
    ensures RunWallets(q, p) == RunWallets(l, p)
  {
    hide InPeriod, Includes;
  }

  lemma RunSetsLocal(l: Ledger, p: Scope)
    requires Reportable(l)
    ensures RunTransactions(Project(l, p.businessId), p) == RunTransactions(l, p)
    ensures RunRequests(Project(l, p.businessId), p) == RunRequests(l, p)
    ensures RunMatches(Project(l, p.businessId), p) == RunMatches(l, p)
    ensures RunWallets(Project(l, p.businessId), p) == RunWallets(l, p)
  {
    forall m | m in l.matches
      ensures l.matches[m].transactionId in l.transactions
      ensures l.transactions[l.matches[m].transactionId].businessId == l.matches[m].businessId
    {
      assert MatchOk(l.requests, l.transactions, m, l.matches[m]);
    }
    hide Reportable, Project, Sees, RunTransactions, RunRequests, RunMatches, RunWallets;
    ProjectionSees(l, p.businessId);
    RunSetsSeen(l, Project(l, p.businessId), p);
  }

  /** Whichever exception the unfiltered lookup returns, the business's own lookup returns it too. */
  lemma FindLocal(l: Ledger, b: Id, r: Id, t: Id)
    requires Inv(l)
    requires r != "" ==> r in l.requests && l.requests[r].businessId == b
    requires t != "" ==> t in l.transactions && l.transactions[t].businessId == b
    ensures FindException(Project(l, b).exceptions, r, t) == FindException(l.exceptions, r, t)
  {
    var xs, ys := l.exceptions, Project(l, b).exceptions;
    hide WalletsOk, RequestsOk, TransactionsOk, SignaturesOk, MatchesOk, MatchesUnique, MatchesCover, ExceptionsOk,
         ExceptionsCover, EventsOk, EventsUnique, EventsCover, IdempotencyOk;
    forall x | x in xs && Concerns(xs[x], r, t) ensures xs[x].businessId == b {
      ExceptionFacts(l, x);
      ExceptionOwnerIs(l, x);
    }
    assert forall x :: x in ys ==> x in xs && ys[x] == xs[x];
    assert Found(xs, r, t, FindException(ys, r, t));
    FoundIsUnique(xs, r, t, FindException(xs, r, t), FindException(ys, r, t));
  }

  lemma ExceptionOwnerIs(l: Ledger, x: Id)
    requires Inv(l) && x in l.exceptions
    ensures l.exceptions[x].transactionId in l.transactions
    ensures l.exceptions[x].businessId == l.transactions[l.exceptions[x].transactionId].businessId
  {
    assert ExceptionOk(l.requests, l.transactions, l.matches, x, l.exceptions[x]);
  }

  lemma MatchSides(l: Ledger, m: Id)
    requires Inv(l) && m in l.matches
    ensures var mm := l.matches[m];
            && mm.requestId in l.requests && mm.transactionId in l.transactions
            && l.requests[mm.requestId].businessId == mm.businessId == l.transactions[mm.transactionId].businessId
            && l.requests[mm.requestId].id == mm.requestId && l.transactions[mm.transactionId].id == mm.transactionId
  {
    var mm := l.matches[m];
    assert MatchOk(l.requests, l.transactions, m, mm);
    assert RequestOk(l.wallets, mm.requestId, l.requests[mm.requestId]);
    assert TransactionOk(l.wallets, mm.transactionId, l.transactions[mm.transactionId]);
  }

  lemma RowKeysLocal(l: Ledger, p: Scope)
    requires Inv(l)
    ensures forall key :: HasRow(Project(l, p.businessId), p, key) <==> HasRow(l, p, key)
  {
    hide Inv, Reportable, Project, RowMatches, MatchedTransactions, MatchedRequests, RunMatches, RunTransactions,
         RunRequests;
    InvReportable(l);
    RunSetsLocal(l, p);
    RowMatchesLocal(l, p);
    MatchedSame(l, Project(l, p.businessId), p);
  }

  lemma RowMatchesLocal(l: Ledger, p: Scope)
    requires Inv(l)
    ensures var q := Project(l, p.businessId);
            && RowMatches(q, p) == RowMatches(l, p)
            && forall m :: m in RowMatches(l, p) ==> m in q.matches && m in l.matches && q.matches[m] == l.matches[m]
  {
    hide Inv, Reportable, Project;
    var q := Project(l, p.businessId);
    InvReportable(l);
    RunSetsLocal(l, p);
    ProjectionSees(l, p.businessId);
    forall m | m in RunMatches(l, p)
      ensures m in l.matches && m in q.matches && q.matches[m] == l.matches[m]
      ensures l.matches[m].requestId in q.requests && l.matches[m].requestId in l.requests
    {
      MatchSides(l, m);
    }
    hide Sees, RunMatches;
  }

  lemma MatchedSame(l: Ledger, q: Ledger, p: Scope)
    requires RowMatches(q, p) == RowMatches(l, p)
    requires forall m :: m in RowMatches(l, p) ==> q.matches[m] == l.matches[m]
    ensures MatchedTransactions(q, p) == MatchedTransactions(l, p)
    ensures MatchedRequests(q, p) == MatchedRequests(l, p)
  {
  }

  lemma MatchRowLocal(l: Ledger, p: Scope, runId: Id, m: Id, id: Id)
    requires Inv(l) && HasRow(l, p, OfMatch(m)) && HasRow(Project(l, p.businessId), p, OfMatch(m))
    ensures RowOf(Project(l, p.businessId), p, runId, OfMatch(m), id) == RowOf(l, p, runId, OfMatch(m), id)
  {
    hide FindException, InPeriod, MakeRow, Includes, Project, Inv;
    ProjectionSees(l, p.businessId);
    MatchSides(l, m);
    FindLocal(l, p.businessId, l.matches[m].requestId, l.matches[m].transactionId);
    hide RowMatches;
  }

  lemma TransactionRowLocal(l: Ledger, p: Scope, runId: Id, t: Id, id: Id)
    requires Inv(l) && HasRow(l, p, OfTransaction(t)) && HasRow(Project(l, p.businessId), p, OfTransaction(t))
    ensures RowOf(Project(l, p.businessId), p, runId, OfTransaction(t), id) == RowOf(l, p, runId, OfTransaction(t), id)
  {
    hide FindException, InPeriod, MakeRow, Includes, Project, Inv, MatchedTransactions;
    ProjectionSees(l, p.businessId);
    TransactionNamed(l, t);
    FindLocal(l, p.businessId, "", t);
  }

  lemma RequestRowLocal(l: Ledger, p: Scope, runId: Id, r: Id, id: Id)
    requires Inv(l) && HasRow(l, p, OfRequest(r)) && HasRow(Project(l, p.businessId), p, OfRequest(r))
    ensures RowOf(Project(l, p.businessId), p, runId, OfRequest(r), id) == RowOf(l, p, runId, OfRequest(r), id)
  {
    hide FindException, InPeriod, MakeRow, Includes, Project, Inv, MatchedRequests;
    ProjectionSees(l, p.businessId);
    RequestNamedSelf(l, r);
    FindLocal(l, p.businessId, r, "");
  }

  /**
   Reports depend on the business's own records only, although the exception lookup
   behind each row does not filter by business.
   */
  lemma ReportsAreLocal(l: Ledger, p: Scope, runId: Id, key: RowKey, id: Id)
    requires Inv(l)
    ensures HasRow(Project(l, p.businessId), p, key) <==> HasRow(l, p, key)
    ensures HasRow(l, p, key) ==> RowOf(Project(l, p.businessId), p, runId, key, id) == RowOf(l, p, runId, key, id)
    ensures TotalReceived(Project(l, p.businessId), p) == TotalReceived(l, p)
  {
    hide Inv, Project, HasRow, RowOf, TotalReceived;
    RowKeysLocal(l, p);
    TotalsLocal(l, p);
    if HasRow(l, p, key) {
      match key {
        case OfMatch(m) => MatchRowLocal(l, p, runId, m, id);
        case OfTransaction(t) => TransactionRowLocal(l, p, runId, t, id);
        case OfRequest(r) => RequestRowLocal(l, p, runId, r, id);
      }
    }
  }

  lemma TransactionNamed(l: Ledger, t: Id)
    requires Inv(l) && t in l.transactions
    ensures l.transactions[t].id == t != ""
  {
    assert TransactionOk(l.wallets, t, l.transactions[t]);
  }

  lemma RequestNamedSelf(l: Ledger, r: Id)
    requires Inv(l) && r in l.requests
    ensures l.requests[r].id == r != ""
  {
    assert RequestOk(l.wallets, r, l.requests[r]);
  }

  lemma TotalsLocal(l: Ledger, p: Scope)
    requires Inv(l)
    ensures TotalReceived(Project(l, p.businessId), p) == TotalReceived(l, p)
  {
    InvReportable(l);
    RunSetsLocal(l, p);
    var q := Project(l, p.businessId);
    forall t | t in RunTransactions(l, p)
      ensures TransactionValue(q.transactions)(t) == TransactionValue(l.transactions)(t)
    {
    }
    hide Inv, Reportable, Project, RunTransactions, TransactionValue;
    SumCongruent(RunTransactions(l, p), TransactionValue(q.transactions), TransactionValue(l.transactions));
  }
}
