/** Reconciliation runs: which records a period covers, and the rows, totals and snapshots made of them. */
module Reconciliation {
  import opened Wrappers
  import opened Finite
  import opened Amounts
  import opened Models
  import opened LedgerModel
  import opened LedgerInvariant

  /** What a run covers: one business, one wallet or ("") all, and a half-open period. */
  datatype Scope = Scope(businessId: Id, walletId: Id, start: Time, end: Time)

  /** periodContains */
  predicate InPeriod(p: Scope, time: Time) {
    time != ZERO_TIME && p.start <= time < p.end
  }

  /** runIncludesWallet */
  predicate Includes(p: Scope, walletId: Id) {
    p.walletId == "" || p.walletId == walletId
  }

  // ---------- the records of a run ----------

  predicate CoversTransaction(p: Scope, t: StablecoinTransaction) {
    t.businessId == p.businessId && Includes(p, t.walletId) && (InPeriod(p, t.detectedAt) || InPeriod(p, t.createdAt))
  }

  predicate CoversRequest(p: Scope, r: PaymentRequest) {
    r.businessId == p.businessId && Includes(p, r.walletId) && (InPeriod(p, r.createdAt) || InPeriod(p, r.updatedAt))
  }

  predicate CoversMatch(p: Scope, ts: Transactions, m: TransactionMatch) {
    && m.businessId == p.businessId && InPeriod(p, m.createdAt)
    && m.transactionId in ts && Includes(p, ts[m.transactionId].walletId)
  }

  /** exceptionMatchesRunWalletLocked */
  predicate ExceptionInWallet(p: Scope, rs: Requests, ts: Transactions, x: PaymentException) {
    || p.walletId == ""
    || (x.requestId != "" && x.requestId in rs && rs[x.requestId].walletId == p.walletId)
    || (x.transactionId != "" && x.transactionId in ts && ts[x.transactionId].walletId == p.walletId)
  }

  predicate CoversException(p: Scope, rs: Requests, ts: Transactions, x: PaymentException) {
    && x.businessId == p.businessId
    && (InPeriod(p, x.createdAt) || (x.resolvedAt.Some? && InPeriod(p, x.resolvedAt.value)))
    && ExceptionInWallet(p, rs, ts, x)
  }

  predicate CoversWallet(p: Scope, w: Wallet) {
    w.businessId == p.businessId && w.archivedAt.None? && Includes(p, w.id)
  }

  ghost function RunTransactions(l: Ledger, p: Scope): set<Id> {
    set t | t in l.transactions && CoversTransaction(p, l.transactions[t])
  }

  ghost function RunRequests(l: Ledger, p: Scope): set<Id> {
    set r | r in l.requests && CoversRequest(p, l.requests[r])
  }

  ghost function RunMatches(l: Ledger, p: Scope): set<Id> {
    set m | m in l.matches && CoversMatch(p, l.transactions, l.matches[m])
  }

  ghost function RunExceptions(l: Ledger, p: Scope): set<Id> {
    set x | x in l.exceptions && CoversException(p, l.requests, l.transactions, l.exceptions[x])
  }

  ghost function RunWallets(l: Ledger, p: Scope): set<Id> {
    set w | w in l.wallets && CoversWallet(p, l.wallets[w])
  }

  // ---------- rows ----------

  datatype RowStatus = Reconciled | Unmatched | Pending | ExceptionRow

  datatype SettlementRow = SettlementRow(
    id: Id, businessId: Id, runId: Id,
    requestId: Id, customerId: string, invoiceId: string, orderId: string, paymentStatus: Option<PaymentStatus>,
    expectedAmount: Amount, receivedAmount: Amount, token: string, chain: string, walletId: Id, walletAddress: string,
    transactionId: Id, signature: string, transactionStatus: Option<TransactionStatus>,
    matchId: Id, matchStatus: Option<MatchStatus>,
    exceptionId: Id, exceptionKind: Option<ExceptionType>, exceptionStatus: Option<ExceptionStatus>,
    status: RowStatus, createdAt: Time)

  /** settlementRowLocked */
  function MakeRow(id: Id, businessId: Id, runId: Id, r: Option<PaymentRequest>, t: Option<StablecoinTransaction>,
                   m: Option<TransactionMatch>, x: Option<PaymentException>, status: RowStatus,
                   createdAt: Time): SettlementRow
  {
    SettlementRow(
      id, businessId, runId,
      if r.Some? then r.value.id else "",
      if r.Some? then r.value.customerId else "",
      if r.Some? then r.value.invoiceId else "",
      if r.Some? then r.value.orderId else "",
      if r.Some? then Some(r.value.status) else None,
      if m.Some? then m.value.expectedAmount else if r.Some? then r.value.amount else NO_AMOUNT,
      if m.Some? then m.value.receivedAmount else if t.Some? then t.value.amount else NO_AMOUNT,
      if r.Some? && r.value.token != "" then r.value.token else if t.Some? then t.value.token else "",
      if r.Some? && r.value.chain != "" then r.value.chain else if t.Some? then t.value.chain else "",
      if r.Some? && r.value.walletId != "" then r.value.walletId else if t.Some? then t.value.walletId else "",
      if r.Some? && r.value.destinationAddress != "" then r.value.destinationAddress
      else if t.Some? then t.value.destinationOwner else "",
      if t.Some? then t.value.id else "",
      if t.Some? then t.value.signature else "",
      if t.Some? then Some(t.value.status) else None,
      if m.Some? then m.value.id else "",
      if m.Some? then Some(m.value.status) else None,
      if x.Some? then x.value.id else "",
      if x.Some? then Some(x.value.kind) else None,
      if x.Some? then Some(x.value.status) else None,
      status, createdAt)
  }

  /** The filter of findExceptionForReconciliationLocked; it does not look at the business. */
  predicate Concerns(x: PaymentException, requestId: Id, transactionId: Id) {
    && (requestId != "" || transactionId != "")
    && (requestId != "" ==> x.requestId == requestId)
    && (transactionId != "" ==> x.transactionId == transactionId)
  }

  /** The loop returns some exception that passes the filter, or none when none does. */
  ghost predicate Found(xs: Exceptions, requestId: Id, transactionId: Id, result: Option<PaymentException>) {
    if result.Some? then exists x :: x in xs && xs[x] == result.value && Concerns(xs[x], requestId, transactionId)
    else forall x :: x in xs ==> !Concerns(xs[x], requestId, transactionId)
  }

  ghost function FindException(xs: Exceptions, requestId: Id, transactionId: Id): (result: Option<PaymentException>)
    ensures Found(xs, requestId, transactionId, result)
  {
    if exists x :: x in xs && Concerns(xs[x], requestId, transactionId) then
      var x :| x in xs && Concerns(xs[x], requestId, transactionId);
      Some(xs[x])
    else None
  }

  /** At most one exception concerns a request or a transaction, so map order does not matter. */
  lemma FoundIsUnique(xs: Exceptions, requestId: Id, transactionId: Id, a: Option<PaymentException>,
                      b: Option<PaymentException>)
    requires ExceptionsUnique(xs)
    requires Found(xs, requestId, transactionId, a) && Found(xs, requestId, transactionId, b)
    ensures a == b
  {
  }

  /** What a row is about. */
  datatype RowKey = OfMatch(id: Id) | OfTransaction(id: Id) | OfRequest(id: Id)

  /** The matches that get a row: those whose two sides are both stored. */
  ghost function RowMatches(l: Ledger, p: Scope): set<Id> {
    set m | m in RunMatches(l, p) && l.matches[m].requestId in l.requests
  }

  ghost function MatchedTransactions(l: Ledger, p: Scope): set<Id> {
    set m | m in RowMatches(l, p) :: l.matches[m].transactionId
  }

  ghost function MatchedRequests(l: Ledger, p: Scope): set<Id> {
    set m | m in RowMatches(l, p) :: l.matches[m].requestId
  }

  ghost predicate HasRow(l: Ledger, p: Scope, key: RowKey) {
    match key
    case OfMatch(m) => m in RowMatches(l, p)
    case OfTransaction(t) => t in RunTransactions(l, p) && t !in MatchedTransactions(l, p)
    case OfRequest(r) => r in RunRequests(l, p) && r !in MatchedRequests(l, p)
  }

  ghost function MatchKeys(l: Ledger, p: Scope): set<RowKey> {
    set m | m in RowMatches(l, p) :: OfMatch(m)
  }

  ghost function TransactionKeys(l: Ledger, p: Scope): set<RowKey> {
    set t | t in RunTransactions(l, p) && t !in MatchedTransactions(l, p) :: OfTransaction(t)
  }

  ghost function RequestKeys(l: Ledger, p: Scope): set<RowKey> {
    set r | r in RunRequests(l, p) && r !in MatchedRequests(l, p) :: OfRequest(r)
  }

  ghost function RowKeys(l: Ledger, p: Scope): (keys: set<RowKey>)
    ensures forall key :: key in keys <==> HasRow(l, p, key)
  {
    MatchKeys(l, p) + TransactionKeys(l, p) + RequestKeys(l, p)
  }

  /** The row that buildReconciliationReportLocked makes for a key. */
  ghost function RowOf(l: Ledger, p: Scope, runId: Id, key: RowKey, id: Id): SettlementRow
    requires HasRow(l, p, key)
  {
    match key
    case OfMatch(mid) =>
      var m := l.matches[mid];
      var r, t := l.requests[m.requestId], l.transactions[m.transactionId];
      var x := FindException(l.exceptions, r.id, t.id);
      MakeRow(id, p.businessId, runId, Some(r), Some(t), Some(m), x,
              if m.status != ExactMatch || x.Some? then ExceptionRow else Reconciled, m.createdAt)
    case OfTransaction(tid) =>
      var t := l.transactions[tid];
      MakeRow(id, p.businessId, runId, None, Some(t), None, FindException(l.exceptions, "", t.id), Unmatched,
              t.createdAt)
    case OfRequest(rid) =>
      var r := l.requests[rid];
      var x := FindException(l.exceptions, r.id, "");
      MakeRow(id, p.businessId, runId, Some(r), None, None, x, if x.Some? then ExceptionRow else Pending, r.updatedAt)
  }

  // ---------- totals ----------

  ghost function TransactionValue(ts: Transactions): Id -> real {
    t => if t in ts then ts[t].amount.Value() else 0.0
  }

  ghost function WalletOf(ts: Transactions): Id -> Id {
    t => if t in ts then ts[t].walletId else ""
  }

  ghost function TotalReceived(l: Ledger, p: Scope): real {
    Sum(RunTransactions(l, p), TransactionValue(l.transactions))
  }

  datatype RunTotals = RunTotals(
    paymentRequests: nat, confirmedRequests: nat, transactions: nat, matchedTransactions: nat,
    unmatchedTransactions: int, matches: nat, exceptions: nat, openExceptions: nat, totalReceived: string)

  ghost function Totals(l: Ledger, p: Scope): RunTotals {
    var transactions, matched := |RunTransactions(l, p)|, |MatchedTransactions(l, p)|;
    RunTotals(|RunRequests(l, p)|, |set r | r in RunRequests(l, p) && l.requests[r].status == Confirmed|,
              transactions, matched, transactions - matched, |RunMatches(l, p)|,
              |RunExceptions(l, p)|, |set x | x in RunExceptions(l, p) && l.exceptions[x].status == Open|,
              Print(TotalReceived(l, p)))
  }

  // ---------- wallet snapshots ----------

  datatype Snapshot = Snapshot(id: Id, businessId: Id, runId: Id, walletId: Id, walletAddress: string, chain: string,
                               observedInbound: string, transactionCount: nat, capturedAt: Time)

  ghost function WalletTransactions(l: Ledger, p: Scope, w: Id): set<Id> {
    Group(RunTransactions(l, p), WalletOf(l.transactions), w)
  }

  ghost function WalletReceived(l: Ledger, p: Scope): Id -> real {
    w => Sum(WalletTransactions(l, p, w), TransactionValue(l.transactions))
  }

  ghost function SnapshotOf(l: Ledger, p: Scope, runId: Id, w: Id, id: Id, now: Time): Snapshot
    requires w in l.wallets
  {
    Snapshot(id, p.businessId, runId, w, l.wallets[w].address, l.wallets[w].chain,
             Print(WalletReceived(l, p)(w)), |WalletTransactions(l, p, w)|, now)
  }

  // ---------- reports ----------

  /** The rows and snapshots that creating a run computes. */
  ghost function BuiltRows(l: Ledger, p: Scope, runId: Id, rowIds: RowKey -> Id): set<SettlementRow> {
    set key | key in RowKeys(l, p) :: RowOf(l, p, runId, key, rowIds(key))
  }

  ghost function BuiltSnapshots(l: Ledger, p: Scope, runId: Id, snapshotIds: Id -> Id, now: Time): set<Snapshot> {
    set w | w in RunWallets(l, p) :: SnapshotOf(l, p, runId, w, snapshotIds(w), now)
  }

  /** newID gives different rows different identifiers. */
  ghost predicate DifferentIds(l: Ledger, p: Scope, rowIds: RowKey -> Id) {
    forall a, b :: a in RowKeys(l, p) && b in RowKeys(l, p) && rowIds(a) == rowIds(b) ==> a == b
  }

  /** newID gives different snapshots different identifiers. */
  ghost predicate DifferentSnapshots(l: Ledger, p: Scope, snapshotIds: Id -> Id) {
    forall a, b :: a in RunWallets(l, p) && b in RunWallets(l, p) && snapshotIds(a) == snapshotIds(b) ==> a == b
  }
}
