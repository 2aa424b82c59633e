/**
 The records of internal/core/models.go. Strings are Go byte strings, identifiers are
 strings, and "" is the absent identifier, as in the source.
 */
module Models {
  import opened Wrappers
  import opened Amounts

  type Id = string

  /** Nanoseconds since the zero time.Time. */
  type Time = int

  const ZERO_TIME: Time := 0

  /** What time.Now() returns: never the zero time. */
  type Clock = t: Time | t > ZERO_TIME witness 1

  /** time.Unix(0, 0), one second and one minute, on the same scale. */
  const UNIX_EPOCH: Time := 62135596800 * 1000000000
  const SECOND: Time := 1000000000
  const MINUTE: Time := 60 * SECOND

  const CHAIN_SOLANA := "solana"
  const TOKEN_USDC := "USDC"
  const SOLANA_USDC_MINT := "EPjFWdd5AufqSSqeM2qN1xzybapC8G4wEGGkZwyTDt1v"

  datatype PaymentStatus =
    AwaitingPayment | Confirmed | Underpaid | Overpaid | Expired | ExceptionHold | ManuallyResolved

  datatype TransactionStatus = PendingFinality | ConfirmedOnchain | MatchedToRequest | Orphaned

  datatype MatchStatus = ExactMatch | UnderpaidMatch | OverpaidMatch | ExpiredMatch

  datatype ExceptionType = UnderpaidType | OverpaidType | ExpiredType | OrphanType | AmbiguousType

  datatype ExceptionStatus = Open | Resolved

  datatype Severity = Medium | High

  datatype EventType =
    RequestCreated | PaymentDetected | TransactionVerified | TransactionMatched
    | PaymentConfirmed | PaymentExceptioned | ExceptionResolved

  datatype Wallet = Wallet(id: Id, businessId: Id, name: string, chain: string, address: string,
                           createdAt: Time, archivedAt: Option<Time>)

  datatype PaymentRequest = PaymentRequest(
    id: Id, businessId: Id, walletId: Id, customerId: string, invoiceId: string, orderId: string,
    amount: Amount, token: string, chain: string, destinationAddress: string, expiresAt: Time,
    metadata: map<string, string>, status: PaymentStatus, createdAt: Time, updatedAt: Time)

  datatype StablecoinTransaction = StablecoinTransaction(
    id: Id, businessId: Id, walletId: Id, chain: string, signature: string, slot: nat,
    blockTime: Option<int>, confirmationStatus: string,
    sourceAddress: string, sourceOwner: string, destinationAddress: string, destinationOwner: string,
    token: string, mint: string, amount: Amount, amountAtomic: string, decimals: nat,
    status: TransactionStatus, detectedAt: Time, createdAt: Time)

  datatype TransactionMatch = TransactionMatch(
    id: Id, businessId: Id, requestId: Id, transactionId: Id, status: MatchStatus,
    expectedAmount: Amount, receivedAmount: Amount, createdAt: Time)

  datatype PaymentException = PaymentException(
    id: Id, businessId: Id, requestId: Id, transactionId: Id, kind: ExceptionType,
    status: ExceptionStatus, severity: Severity, resolutionReason: string, resolvedBy: string,
    createdAt: Time, resolvedAt: Option<Time>)

  datatype ReceiptEvent = ReceiptEvent(
    id: Id, businessId: Id, requestId: Id, transactionId: Id, matchId: Id, exceptionId: Id,
    kind: EventType, createdAt: Time)

  /** The normalized body of a create call; its SHA-256 hash is modelled as the body itself. */
  datatype RequestBody = RequestBody(
    walletId: Id, customerId: string, invoiceId: string, orderId: string, amount: Amount,
    token: string, chain: string, expiresAt: Time, metadata: map<string, string>)

  datatype IdempotencyRecord = IdempotencyRecord(body: RequestBody, requestId: Id)

  /** Normalized transaction evidence, as the watcher posts it. */
  datatype Evidence = Evidence(
    chain: string, signature: string, slot: nat, blockTime: Option<int>, confirmationStatus: string,
    sourceAddress: string, sourceOwner: string, destinationAddress: string, destinationOwner: string,
    token: string, mint: string, amount: Amount, amountAtomic: string, decimals: nat)

  /** The status a match leaves its request in. */
  function StatusOf(m: MatchStatus): PaymentStatus {
    match m
    case ExactMatch => Confirmed
    case UnderpaidMatch => Underpaid
    case OverpaidMatch => Overpaid
    case ExpiredMatch => Expired
  }

  /** The exception an inexact match raises. */
  function ExceptionOf(m: MatchStatus): ExceptionType
    requires m != ExactMatch
  {
    match m
    case UnderpaidMatch => UnderpaidType
    case OverpaidMatch => OverpaidType
    case ExpiredMatch => ExpiredType
  }

  function SeverityOf(m: MatchStatus): Severity {
    if m == UnderpaidMatch then High else Medium
  }

  /** The body a stored request was created from. */
  function BodyOf(r: PaymentRequest): RequestBody {
    RequestBody(r.walletId, r.customerId, r.invoiceId, r.orderId, r.amount, r.token, r.chain, r.expiresAt, r.metadata)
  }
}
