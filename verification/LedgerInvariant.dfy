/**
 The invariant that the payment tables satisfy in every reachable state, although no
 function of the source states it: matches tie settled requests to matched
 transactions one to one, every other finalized transaction carries exactly one
 exception, and each request has exactly the receipt events its status calls for.
 Each predicate takes only the tables it speaks about.
 */
module LedgerInvariant {
  import opened Wrappers
  import opened Amounts
  import opened Models
  import opened LedgerModel

  type Wallets = map<Id, Wallet>
  type Requests = map<Id, PaymentRequest>
  type Transactions = map<Id, StablecoinTransaction>
  type Matches = map<Id, TransactionMatch>
  type Exceptions = map<Id, PaymentException>
  type Events = map<Id, ReceiptEvent>

  // ---------- wallets ----------

  ghost predicate WalletOk(id: Id, w: Wallet) {
    id != "" && w.id == id && IsBusiness(w.businessId) && w.chain == CHAIN_SOLANA && w.archivedAt.None?
  }

  ghost predicate WalletsOk(ws: Wallets) {
    && (forall id :: id in ws ==> WalletOk(id, ws[id]))
    && (forall a, b :: a in ws && b in ws && SameWallet(ws[a], ws[b].businessId, ws[b].chain, ws[b].address) ==> a == b)
  }

  // ---------- requests and transactions ----------

  ghost predicate Owned(ws: Wallets, walletId: Id, businessId: Id) {
    walletId in ws && ws[walletId].businessId == businessId
  }

  ghost predicate RequestOk(ws: Wallets, id: Id, r: PaymentRequest) {
    && id != "" && r.id == id && IsBusiness(r.businessId) && Owned(ws, r.walletId, r.businessId)
    && Valid(r.amount) && r.token == TOKEN_USDC && r.chain == CHAIN_SOLANA
    && r.createdAt > ZERO_TIME && r.updatedAt > ZERO_TIME
    && r.status != ExceptionHold
    && (r.status == AwaitingPayment ==> r.updatedAt == r.createdAt)
  }

  ghost predicate RequestsOk(ws: Wallets, rs: Requests) {
    forall id :: id in rs ==> RequestOk(ws, id, rs[id])
  }

  ghost predicate TransactionOk(ws: Wallets, id: Id, t: StablecoinTransaction) {
    && id != "" && t.id == id && IsBusiness(t.businessId) && Owned(ws, t.walletId, t.businessId)
    && Valid(t.amount) && t.token == TOKEN_USDC && t.chain == CHAIN_SOLANA
    && t.createdAt > ZERO_TIME && t.detectedAt == t.createdAt
    && (t.status == PendingFinality <==> t.confirmationStatus != "finalized")
  }

  ghost predicate TransactionsOk(ws: Wallets, ts: Transactions) {
    forall id :: id in ts ==> TransactionOk(ws, id, ts[id])
  }

  /** The signature index is exactly the inverse of the transactions' scopes. */
  ghost predicate SignaturesOk(ts: Transactions, index: map<string, Id>) {
    && (forall id :: id in ts ==> ScopeOf(ts[id]) in index && index[ScopeOf(ts[id])] == id)
    && (forall s :: s in index ==> index[s] in ts && ScopeOf(ts[index[s]]) == s)
  }

  // ---------- matches ----------

  /** The match of a request agrees with its status, unless an operator has resolved it since. */
  predicate Agrees(r: PaymentStatus, m: MatchStatus) {
    r == StatusOf(m) || (r == ManuallyResolved && m != ExactMatch)
  }

  ghost predicate MatchOk(rs: Requests, ts: Transactions, id: Id, m: TransactionMatch) {
    && id != "" && m.id == id
    && m.requestId in rs && m.transactionId in ts
    && MatchFits(rs[m.requestId], ts[m.transactionId], m)
  }

  ghost predicate MatchFits(r: PaymentRequest, t: StablecoinTransaction, m: TransactionMatch) {
    && m.businessId == r.businessId == t.businessId
    && r.walletId == t.walletId
    && m.expectedAmount == r.amount && m.receivedAmount == t.amount
    && m.createdAt == t.createdAt
    && t.status == MatchedToRequest
    && Agrees(r.status, m.status)
    && (r.status != ManuallyResolved ==> r.updatedAt == m.createdAt)
  }

  ghost predicate MatchesOk(rs: Requests, ts: Transactions, ms: Matches) {
    forall id :: id in ms ==> MatchOk(rs, ts, id, ms[id])
  }

  ghost predicate MatchesUnique(ms: Matches) {
    && (forall a, b :: a in ms && b in ms && ms[a].requestId == ms[b].requestId ==> a == b)
    && (forall a, b :: a in ms && b in ms && ms[a].transactionId == ms[b].transactionId ==> a == b)
  }

  /** Match m ties request r to transaction t. */
  ghost predicate Ties(ms: Matches, m: Id, r: Id, t: Id) {
    m in ms && ms[m].requestId == r && ms[m].transactionId == t
  }

  /** Every settled request and every matched transaction has its match. */
  ghost predicate MatchesCover(rs: Requests, ts: Transactions, ms: Matches) {
    && (forall r :: r in rs && rs[r].status != AwaitingPayment ==> exists m, t :: Ties(ms, m, r, t))
    && (forall t :: t in ts && ts[t].status == MatchedToRequest ==> exists m, r :: Ties(ms, m, r, t))
  }

  // ---------- exceptions ----------

  /** The request status that an open exception of this kind stands for. */
  function Pends(kind: ExceptionType): PaymentStatus {
    match kind
    case UnderpaidType => Underpaid
    case OverpaidType => Overpaid
    case ExpiredType => Expired
    case OrphanType => ExceptionHold
    case AmbiguousType => ExceptionHold
  }

  ghost predicate ExceptionOk(rs: Requests, ts: Transactions, ms: Matches, id: Id, x: PaymentException) {
    && id != "" && x.id == id
    && x.transactionId in ts
    && x.businessId == ts[x.transactionId].businessId
    && x.createdAt == ts[x.transactionId].createdAt
    && (x.status == Resolved <==> x.resolvedAt.Some?)
    && if x.requestId == "" then FlagsTransaction(ts[x.transactionId].status, x.kind)
       else x.requestId in rs && FlagsRequest(rs[x.requestId], x)
            && exists m :: Ties(ms, m, x.requestId, x.transactionId) && StatusOf(ms[m].status) == Pends(x.kind)
  }

  /** An exception without a request explains an orphaned or an ambiguous transaction. */
  predicate FlagsTransaction(status: TransactionStatus, kind: ExceptionType) {
    (kind == OrphanType && status == Orphaned) || (kind == AmbiguousType && status == ConfirmedOnchain)
  }

  /** An exception with a request is open exactly while the request waits for it. */
  ghost predicate FlagsRequest(r: PaymentRequest, x: PaymentException) {
    && x.kind in {UnderpaidType, OverpaidType, ExpiredType}
    && r.status == (if x.status == Open then Pends(x.kind) else ManuallyResolved)
    && (x.status == Resolved ==> x.resolvedAt == Some(r.updatedAt))
  }

  ghost predicate ExceptionsOk(rs: Requests, ts: Transactions, ms: Matches, xs: Exceptions) {
    forall id :: id in xs ==> ExceptionOk(rs, ts, ms, id, xs[id])
  }

  ghost predicate ExceptionsUnique(xs: Exceptions) {
    && (forall a, b :: a in xs && b in xs && xs[a].transactionId == xs[b].transactionId ==> a == b)
    && (forall a, b :: a in xs && b in xs && xs[a].requestId == xs[b].requestId != "" ==> a == b)
  }

  ghost predicate Explains(xs: Exceptions, x: Id, r: Id, t: Id) {
    x in xs && xs[x].requestId == r && xs[x].transactionId == t
  }

  /** Every inexactly settled request and every unmatched finalized transaction has its exception. */
  ghost predicate ExceptionsCover(rs: Requests, ts: Transactions, xs: Exceptions) {
    && (forall r :: r in rs && rs[r].status !in {AwaitingPayment, Confirmed} ==> exists x, t :: Explains(xs, x, r, t))
    && (forall t :: t in ts && ts[t].status in {Orphaned, ConfirmedOnchain} ==> exists x :: Explains(xs, x, "", t))
  }

  // ---------- receipt events ----------

  /** The receipt events that a request in this status has. */
  predicate Expected(status: PaymentStatus, kind: EventType) {
    match kind
    case RequestCreated => true
    case PaymentDetected => status != AwaitingPayment
    case TransactionVerified => status != AwaitingPayment
    case TransactionMatched => status != AwaitingPayment
    case PaymentConfirmed => status == Confirmed
    case PaymentExceptioned => status !in {AwaitingPayment, Confirmed}
    case ExceptionResolved => status == ManuallyResolved
  }

  ghost predicate EventOk(rs: Requests, ms: Matches, id: Id, e: ReceiptEvent) {
    && e.id == id
    && e.requestId in rs
    && e.businessId == rs[e.requestId].businessId
    && Expected(rs[e.requestId].status, e.kind)
    && match e.kind
       case RequestCreated => e.createdAt == rs[e.requestId].createdAt
       case ExceptionResolved => e.createdAt == rs[e.requestId].updatedAt
       case _ => exists m :: Ties(ms, m, e.requestId, e.transactionId) && e.createdAt == ms[m].createdAt
  }

  ghost predicate EventsOk(rs: Requests, ms: Matches, es: Events) {
    forall id :: id in es ==> EventOk(rs, ms, id, es[id])
  }

  ghost predicate EventsUnique(es: Events) {
    forall a, b :: a in es && b in es && es[a].requestId == es[b].requestId && es[a].kind == es[b].kind ==> a == b
  }

  ghost predicate Records(es: Events, e: Id, r: Id, kind: EventType) {
    e in es && es[e].requestId == r && es[e].kind == kind
  }

  ghost predicate EventsCover(rs: Requests, es: Events) {
    forall r, kind :: r in rs && Expected(rs[r].status, kind) ==> exists e :: Records(es, e, r, kind)
  }

  // ---------- idempotency ----------

  ghost predicate RecordOk(rs: Requests, scope: string, record: IdempotencyRecord) {
    && record.requestId in rs
    && BodyOf(rs[record.requestId]) == record.body
    && ValidTerms(record.body)
    && rs[record.requestId].businessId + "|" <= scope
  }

  ghost predicate IdempotencyOk(rs: Requests, records: map<string, IdempotencyRecord>) {
    forall s :: s in records ==> RecordOk(rs, s, records[s])
  }

  // ---------- the invariant ----------

  ghost predicate Inv(l: Ledger) {
    && WalletsOk(l.wallets)
    && RequestsOk(l.wallets, l.requests)
    && TransactionsOk(l.wallets, l.transactions)
    && SignaturesOk(l.transactions, l.signatures)
    && MatchesOk(l.requests, l.transactions, l.matches)
    && MatchesUnique(l.matches)
    && MatchesCover(l.requests, l.transactions, l.matches)
    && ExceptionsOk(l.requests, l.transactions, l.matches, l.exceptions)
    && ExceptionsUnique(l.exceptions)
    && ExceptionsCover(l.requests, l.transactions, l.exceptions)
    && EventsOk(l.requests, l.matches, l.events)
    && EventsUnique(l.events)
    && EventsCover(l.requests, l.events)
    && IdempotencyOk(l.requests, l.idempotency)
  }
}
