/** Usage metrics: the counts a business sees, and how the invariant ties them together. */
module Metrics {
  import opened Finite
  import opened Models
  import opened LedgerModel
  import opened LedgerInvariant
  import opened LedgerPreservation

  /** The counters of usageMetricsLocked that count payment records. */
  datatype UsageMetrics = UsageMetrics(
    connectedWallets: nat, paymentRequestsCreated: nat, underpaidPayments: nat, overpaidPayments: nat,
    lateOrExpiredPayments: nat, transactionsDetected: nat, transactionsMatched: nat, orphanTransactions: nat,
    openExceptions: nat, resolvedExceptions: nat, receiptsGenerated: nat)

  ghost function WalletsOf(l: Ledger, b: Id): set<Id> {
    set w | w in l.wallets && l.wallets[w].businessId == b && l.wallets[w].archivedAt.None?
  }

  ghost function RequestsOf(l: Ledger, b: Id): set<Id> {
    set r | r in l.requests && l.requests[r].businessId == b
  }

  ghost function RequestsIn(l: Ledger, b: Id, status: PaymentStatus): set<Id> {
    set r | r in l.requests && l.requests[r].businessId == b && l.requests[r].status == status
  }

  ghost function TransactionsOf(l: Ledger, b: Id): set<Id> {
    set t | t in l.transactions && l.transactions[t].businessId == b
  }

  ghost function TransactionsIn(l: Ledger, b: Id, status: TransactionStatus): set<Id> {
    set t | t in l.transactions && l.transactions[t].businessId == b && l.transactions[t].status == status
  }

  ghost function ExceptionsIn(l: Ledger, b: Id, status: ExceptionStatus): set<Id> {
    set x | x in l.exceptions && l.exceptions[x].businessId == b && l.exceptions[x].status == status
  }

  ghost function ReceiptRequests(l: Ledger, b: Id): set<Id> {
    set e | e in l.events && l.events[e].businessId == b :: l.events[e].requestId
  }

  /** usageMetricsLocked */
  ghost function Usage(l: Ledger, b: Id): UsageMetrics {
    UsageMetrics(|WalletsOf(l, b)|, |RequestsOf(l, b)|, |RequestsIn(l, b, Underpaid)|, |RequestsIn(l, b, Overpaid)|,
                 |RequestsIn(l, b, Expired)|, |TransactionsOf(l, b)|, |TransactionsIn(l, b, MatchedToRequest)|,
                 |TransactionsIn(l, b, Orphaned)|, |ExceptionsIn(l, b, Open)|, |ExceptionsIn(l, b, Resolved)|,
                 |ReceiptRequests(l, b)|)
  }

  // ---------- what the counters amount to ----------

  ghost function MatchesOf(l: Ledger, b: Id): set<Id> {
    set m | m in l.matches && l.matches[m].businessId == b
  }

  ghost function SettledRequests(l: Ledger, b: Id): set<Id> {
    set r | r in l.requests && l.requests[r].businessId == b && l.requests[r].status != AwaitingPayment
  }

  /** Exceptions of one kind and status. */
  ghost function ExceptionsOfKind(l: Ledger, b: Id, kind: ExceptionType, status: ExceptionStatus): set<Id> {
    set x | x in l.exceptions && l.exceptions[x].businessId == b && l.exceptions[x].kind == kind
      && l.exceptions[x].status == status
  }

  ghost function TransactionTied(ms: Matches): Id -> Id {
    m => if m in ms then ms[m].transactionId else ""
  }

  ghost function RequestTied(ms: Matches): Id -> Id {
    m => if m in ms then ms[m].requestId else ""
  }

  ghost function RequestFlagged(xs: Exceptions): Id -> Id {
    x => if x in xs then xs[x].requestId else ""
  }

  ghost function TransactionFlagged(xs: Exceptions): Id -> Id {
    x => if x in xs then xs[x].transactionId else ""
  }

  /** The parts of the invariant that tie matches to their two sides. */
  lemma MatchesTie(l: Ledger, b: Id)
    requires MatchesOk(l.requests, l.transactions, l.matches) && MatchesUnique(l.matches)
    requires MatchesCover(l.requests, l.transactions, l.matches)
    ensures Image(MatchesOf(l, b), TransactionTied(l.matches)) == TransactionsIn(l, b, MatchedToRequest)
    ensures Image(MatchesOf(l, b), RequestTied(l.matches)) == SettledRequests(l, b)
  {
    TransactionsTie(l, b);
    RequestsTie(l, b);
  }

  lemma TransactionsTie(l: Ledger, b: Id)
    requires MatchesOk(l.requests, l.transactions, l.matches) && MatchesCover(l.requests, l.transactions, l.matches)
    ensures Image(MatchesOf(l, b), TransactionTied(l.matches)) == TransactionsIn(l, b, MatchedToRequest)
  {
    forall m | m in l.matches ensures MatchOk(l.requests, l.transactions, m, l.matches[m]) {
    }
    hide MatchesOk;
    var ts := Image(MatchesOf(l, b), TransactionTied(l.matches));
    forall t | t in TransactionsIn(l, b, MatchedToRequest) ensures t in ts {
      var m, r :| Ties(l.matches, m, r, t);
      assert m in MatchesOf(l, b) && TransactionTied(l.matches)(m) == t;
    }
  }

  lemma RequestsTie(l: Ledger, b: Id)
    requires MatchesOk(l.requests, l.transactions, l.matches) && MatchesCover(l.requests, l.transactions, l.matches)
    ensures Image(MatchesOf(l, b), RequestTied(l.matches)) == SettledRequests(l, b)
  {
    forall m | m in l.matches ensures MatchOk(l.requests, l.transactions, m, l.matches[m]) {
    }
    hide MatchesOk;
    var rs := Image(MatchesOf(l, b), RequestTied(l.matches));
    forall r | r in SettledRequests(l, b) ensures r in rs {
      var m, t :| Ties(l.matches, m, r, t);
      assert m in MatchesOf(l, b) && RequestTied(l.matches)(m) == r;
    }
  }

  lemma TiesCount(ms: Matches, s: set<Id>)
    requires MatchesUnique(ms) && s <= ms.Keys
    ensures |Image(s, TransactionTied(ms))| == |s|
    ensures |Image(s, RequestTied(ms))| == |s|
  {
    CountImage(s, TransactionTied(ms));
    CountImage(s, RequestTied(ms));
  }

  /** Matches, matched transactions and settled requests are equally many. */
  lemma MatchedCounts(l: Ledger, b: Id)
    requires Inv(l)
    ensures Usage(l, b).transactionsMatched == |MatchesOf(l, b)| == |SettledRequests(l, b)|
  {
    hide MatchesOk, MatchesUnique, MatchesCover, WalletsOk, RequestsOk, TransactionsOk, SignaturesOk, ExceptionsOk,
         ExceptionsUnique, ExceptionsCover, EventsOk, EventsUnique, EventsCover, IdempotencyOk;
    MatchesTie(l, b);
    TiesCount(l.matches, MatchesOf(l, b));
  }

  /** Each orphaned transaction has its orphan exception, open or resolved. */
  lemma OrphanCounts(l: Ledger, b: Id)
    requires Inv(l)
    ensures Usage(l, b).orphanTransactions
         == |ExceptionsOfKind(l, b, OrphanType, Open)| + |ExceptionsOfKind(l, b, OrphanType, Resolved)|
  {
    FlagCounts(l, b, OrphanType, Orphaned);
  }

  /** Each ambiguous transaction has its exception too. */
  lemma AmbiguousCounts(l: Ledger, b: Id)
    requires Inv(l)
    ensures |TransactionsIn(l, b, ConfirmedOnchain)|
         == |ExceptionsOfKind(l, b, AmbiguousType, Open)| + |ExceptionsOfKind(l, b, AmbiguousType, Resolved)|
  {
    FlagCounts(l, b, AmbiguousType, ConfirmedOnchain);
  }

  lemma FlagCounts(l: Ledger, b: Id, kind: ExceptionType, status: TransactionStatus)
    requires Inv(l) && FlagsTransaction(status, kind)
    ensures |TransactionsIn(l, b, status)| ==
            |ExceptionsOfKind(l, b, kind, Open)| + |ExceptionsOfKind(l, b, kind, Resolved)|
  {
    hide MatchesOk, MatchesUnique, MatchesCover, WalletsOk, RequestsOk, TransactionsOk, SignaturesOk, ExceptionsOk,
         ExceptionsUnique, ExceptionsCover, EventsOk, EventsUnique, EventsCover, IdempotencyOk;
    var open, resolved := ExceptionsOfKind(l, b, kind, Open), ExceptionsOfKind(l, b, kind, Resolved);
    assert open !! resolved;
    FlagsAre(l, b, kind, status);
    FlagsCount(l.exceptions, open + resolved);
  }

  lemma FlagsCount(xs: Exceptions, s: set<Id>)
    requires ExceptionsUnique(xs) && s <= xs.Keys
    ensures |Image(s, TransactionFlagged(xs))| == |s|
    ensures (forall x :: x in s ==> xs[x].requestId != "") ==> |Image(s, RequestFlagged(xs))| == |s|
  {
    CountImage(s, TransactionFlagged(xs));
    if forall x :: x in s ==> xs[x].requestId != "" {
      CountImage(s, RequestFlagged(xs));
    }
  }

  lemma FlagsAre(l: Ledger, b: Id, kind: ExceptionType, status: TransactionStatus)
    requires ExceptionsOk(l.requests, l.transactions, l.matches, l.exceptions)
    requires ExceptionsCover(l.requests, l.transactions, l.exceptions)
    requires FlagsTransaction(status, kind)
    ensures var both := ExceptionsOfKind(l, b, kind, Open) + ExceptionsOfKind(l, b, kind, Resolved);
            Image(both, TransactionFlagged(l.exceptions)) == TransactionsIn(l, b, status)
  {
    hide ExceptionsOk, ExceptionsCover, ExceptionsOfKind, TransactionsIn, TransactionFlagged;
    var both := ExceptionsOfKind(l, b, kind, Open) + ExceptionsOfKind(l, b, kind, Resolved);
    forall t | t in TransactionsIn(l, b, status)
      ensures exists x :: x in both && TransactionFlagged(l.exceptions)(x) == t
    {
      var x := FlagOf(l, b, kind, status, t);
    }
    forall x | x in both ensures TransactionFlagged(l.exceptions)(x) in TransactionsIn(l, b, status) {
      FlagIn(l, b, kind, status, x);
    }
  }

  /** A transaction in this status has an exception of this kind. */
  lemma FlagOf(l: Ledger, b: Id, kind: ExceptionType, status: TransactionStatus, t: Id) returns (x: Id)
    requires ExceptionsOk(l.requests, l.transactions, l.matches, l.exceptions)
    requires ExceptionsCover(l.requests, l.transactions, l.exceptions)
    requires FlagsTransaction(status, kind) && t in TransactionsIn(l, b, status)
    ensures x in ExceptionsOfKind(l, b, kind, Open) + ExceptionsOfKind(l, b, kind, Resolved)
    ensures TransactionFlagged(l.exceptions)(x) == t
  {
    hide ExceptionsOk;
    x :| Explains(l.exceptions, x, "", t);
    FlagSays(l, x, kind, status);
  }

  /** An exception of this kind flags a transaction in this status. */
  lemma FlagIn(l: Ledger, b: Id, kind: ExceptionType, status: TransactionStatus, x: Id)
    requires ExceptionsOk(l.requests, l.transactions, l.matches, l.exceptions) && FlagsTransaction(status, kind)
    requires x in ExceptionsOfKind(l, b, kind, Open) + ExceptionsOfKind(l, b, kind, Resolved)
    ensures TransactionFlagged(l.exceptions)(x) in TransactionsIn(l, b, status)
  {
    hide ExceptionsOk;
    FlagSays(l, x, kind, status);
  }

  /** An exception has this kind exactly when it flags a transaction in this status. */
  lemma FlagSays(l: Ledger, x: Id, kind: ExceptionType, status: TransactionStatus)
    requires ExceptionsOk(l.requests, l.transactions, l.matches, l.exceptions) && x in l.exceptions
    requires FlagsTransaction(status, kind)
    ensures var e := l.exceptions[x];
            && e.transactionId in l.transactions && e.businessId == l.transactions[e.transactionId].businessId
            && (e.kind == kind <==> e.requestId == "" && l.transactions[e.transactionId].status == status)
  {
    assert ExceptionOk(l.requests, l.transactions, l.matches, x, l.exceptions[x]);
    hide ExceptionsOk;
  }

  /** Open (or resolved) exceptions that name a request, and the status that request waits in. */
  lemma RequestFlags(l: Ledger, b: Id, kind: ExceptionType)
    requires Inv(l) && kind in {UnderpaidType, OverpaidType, ExpiredType}
    ensures |ExceptionsOfKind(l, b, kind, Open)| == |RequestsIn(l, b, Pends(kind))|
  {
    hide MatchesOk, MatchesUnique, MatchesCover, WalletsOk, RequestsOk, TransactionsOk, SignaturesOk, ExceptionsOk,
         ExceptionsUnique, ExceptionsCover, EventsOk, EventsUnique, EventsCover, IdempotencyOk;
    RequestFlagsAre(l, b, kind);
    FlagsCount(l.exceptions, ExceptionsOfKind(l, b, kind, Open));
  }

  lemma RequestFlagsAre(l: Ledger, b: Id, kind: ExceptionType)
    requires Inv(l) && kind in {UnderpaidType, OverpaidType, ExpiredType}
    ensures forall x :: x in ExceptionsOfKind(l, b, kind, Open) ==> l.exceptions[x].requestId != ""
    ensures Image(ExceptionsOfKind(l, b, kind, Open), RequestFlagged(l.exceptions)) == RequestsIn(l, b, Pends(kind))
  {
    hide WalletsOk, RequestsOk, TransactionsOk, SignaturesOk, MatchesOk, MatchesUnique, MatchesCover, ExceptionsOk,
         ExceptionsUnique, EventsOk, EventsUnique, EventsCover, IdempotencyOk;
    var rs := Image(ExceptionsOfKind(l, b, kind, Open), RequestFlagged(l.exceptions));
    forall x | x in l.exceptions
      ensures var e := l.exceptions[x];
              && (e.requestId == "" ==> e.kind in {OrphanType, AmbiguousType})
              && (e.requestId != "" ==> e.requestId in l.requests && FlagsRequest(l.requests[e.requestId], e)
                                        && l.requests[e.requestId].businessId == e.businessId)
    {
      ExceptionFacts(l, x);
    }
    forall r | r in RequestsIn(l, b, Pends(kind)) ensures r in rs {
      assert r != "" by { RequestNamed(l, r); }
      var x, t :| Explains(l.exceptions, x, r, t);
      assert x in ExceptionsOfKind(l, b, kind, Open) && RequestFlagged(l.exceptions)(x) == r;
    }
  }

  lemma ExceptionFacts(l: Ledger, x: Id)
    requires Inv(l) && x in l.exceptions
    ensures var e := l.exceptions[x];
            && (e.requestId == "" ==> e.kind in {OrphanType, AmbiguousType})
            && (e.requestId != "" ==> e.requestId in l.requests && FlagsRequest(l.requests[e.requestId], e)
                                      && l.requests[e.requestId].businessId == e.businessId)
  {
    var e := l.exceptions[x];
    assert ExceptionOk(l.requests, l.transactions, l.matches, x, e);
    hide MatchesOk, MatchesUnique, MatchesCover, WalletsOk, RequestsOk, TransactionsOk, SignaturesOk, ExceptionsOk,
         ExceptionsUnique, ExceptionsCover, EventsOk, EventsUnique, EventsCover, IdempotencyOk;
    if e.requestId != "" { ExceptionOwner(l, e); }
  }

  lemma RequestNamed(l: Ledger, r: Id)
    requires Inv(l) && r in l.requests
    ensures r != ""
  {
    assert RequestOk(l.wallets, r, l.requests[r]);
  }

  /**
   The open exceptions are the underpaid, overpaid and expired requests, plus the open
   orphan and ambiguous exceptions; nothing else is ever open.
   */
  lemma OpenExceptionCounts(l: Ledger, b: Id)
    requires Inv(l)
    ensures var u := Usage(l, b);
            u.openExceptions == u.underpaidPayments + u.overpaidPayments + u.lateOrExpiredPayments
              + |ExceptionsOfKind(l, b, OrphanType, Open)| + |ExceptionsOfKind(l, b, AmbiguousType, Open)|
  {
    hide Inv;
    RequestFlags(l, b, UnderpaidType);
    RequestFlags(l, b, OverpaidType);
    RequestFlags(l, b, ExpiredType);
    ByKind(l, b, Open);
  }

  /** Exceptions of a status, counted kind by kind. */
  lemma ByKind(l: Ledger, b: Id, status: ExceptionStatus)
    ensures |ExceptionsIn(l, b, status)|
         == |ExceptionsOfKind(l, b, UnderpaidType, status)| + |ExceptionsOfKind(l, b, OverpaidType, status)|
          + |ExceptionsOfKind(l, b, ExpiredType, status)| + |ExceptionsOfKind(l, b, OrphanType, status)|
          + |ExceptionsOfKind(l, b, AmbiguousType, status)|
  {
    var u, o, e := ExceptionsOfKind(l, b, UnderpaidType, status), ExceptionsOfKind(l, b, OverpaidType, status),
                   ExceptionsOfKind(l, b, ExpiredType, status);
    var p, a := ExceptionsOfKind(l, b, OrphanType, status), ExceptionsOfKind(l, b, AmbiguousType, status);
    KindsCover(l, b, status);
    hide ExceptionsIn, ExceptionsOfKind;
    FiveParts(u, o, e, p, a);
  }

  /** The kinds partition the exceptions of a status. */
  lemma KindsCover(l: Ledger, b: Id, status: ExceptionStatus)
    ensures var u, o, e := ExceptionsOfKind(l, b, UnderpaidType, status), ExceptionsOfKind(l, b, OverpaidType, status),
            ExceptionsOfKind(l, b, ExpiredType, status);
            var p, a := ExceptionsOfKind(l, b, OrphanType, status), ExceptionsOfKind(l, b, AmbiguousType, status);
            && ExceptionsIn(l, b, status) == u + o + e + p + a
            && u !! o && (u + o) !! e && (u + o + e) !! p && (u + o + e + p) !! a
  {
  }

  lemma FiveParts(a: set<Id>, b: set<Id>, c: set<Id>, d: set<Id>, e: set<Id>)
    requires a !! b && (a + b) !! c && (a + b + c) !! d && (a + b + c + d) !! e
    ensures |a + b + c + d + e| == |a| + |b| + |c| + |d| + |e|
  {
    assert |a + b| == |a| + |b|;
    assert |a + b + c| == |a + b| + |c|;
    assert |a + b + c + d| == |a + b + c| + |d|;
  }

  /** Every request has a receipt, and nothing but requests has one. */
  lemma ReceiptCounts(l: Ledger, b: Id)
    requires Inv(l)
    ensures Usage(l, b).receiptsGenerated == Usage(l, b).paymentRequestsCreated
  {
    hide MatchesOk, MatchesUnique, MatchesCover, WalletsOk, RequestsOk, TransactionsOk, SignaturesOk, ExceptionsOk,
         ExceptionsUnique, ExceptionsCover, EventsUnique, IdempotencyOk;
    forall r | r in RequestsOf(l, b) ensures r in ReceiptRequests(l, b) {
      assert Expected(l.requests[r].status, RequestCreated);
      var e :| Records(l.events, e, r, RequestCreated);
      assert EventOk(l.requests, l.matches, e, l.events[e]);
    }
    forall r | r in ReceiptRequests(l, b) ensures r in RequestsOf(l, b) {
      var e :| e in l.events && l.events[e].businessId == b && l.events[e].requestId == r;
      assert EventOk(l.requests, l.matches, e, l.events[e]);
    }
    assert ReceiptRequests(l, b) == RequestsOf(l, b);
  }

  /** Every detected transaction is pending, matched, orphaned or ambiguous, and is counted once. */
  lemma DetectedCounts(l: Ledger, b: Id)
    ensures var u := Usage(l, b);
            u.transactionsDetected == u.transactionsMatched + u.orphanTransactions
              + |TransactionsIn(l, b, PendingFinality)| + |TransactionsIn(l, b, ConfirmedOnchain)|
  {
    StatusesCover(l, b);
    hide TransactionsOf, TransactionsIn, WalletsOf, RequestsOf, RequestsIn, ExceptionsIn, ReceiptRequests;
    FourParts(TransactionsIn(l, b, MatchedToRequest), TransactionsIn(l, b, Orphaned),
              TransactionsIn(l, b, PendingFinality), TransactionsIn(l, b, ConfirmedOnchain));
  }

  /** The statuses partition the transactions. */
  lemma StatusesCover(l: Ledger, b: Id)
    ensures var m, o := TransactionsIn(l, b, MatchedToRequest), TransactionsIn(l, b, Orphaned);
            var p, c := TransactionsIn(l, b, PendingFinality), TransactionsIn(l, b, ConfirmedOnchain);
            TransactionsOf(l, b) == m + o + p + c && m !! o && (m + o) !! p && (m + o + p) !! c
  {
  }

  lemma FourParts(a: set<Id>, b: set<Id>, c: set<Id>, d: set<Id>)
    requires a !! b && (a + b) !! c && (a + b + c) !! d
    ensures |a + b + c + d| == |a| + |b| + |c| + |d|
  {
    assert |a + b| == |a| + |b|;
    assert |a + b + c| == |a + b| + |c|;
  }
}
