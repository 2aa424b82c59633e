/**
 The payment ledger as a mathematical object: what each locked operation of
 internal/core/store.go does to the payment tables. Every operation is described by the
 table entries it writes, so that the new ledger is the old one with those entries
 written over it. Fresh identifiers, clock readings and the wallet that map iteration
 happens to visit first are inputs of the operation.
 */
module LedgerModel {
  import opened Wrappers
  import opened Amounts
  import opened Models

  /** The payment tables of MemoryStore, or a set of entries to write into them. */
  datatype Ledger = Ledger(
    wallets: map<Id, Wallet>,
    requests: map<Id, PaymentRequest>,
    transactions: map<Id, StablecoinTransaction>,
    signatures: map<string, Id>,
    matches: map<Id, TransactionMatch>,
    exceptions: map<Id, PaymentException>,
    events: map<Id, ReceiptEvent>,
    idempotency: map<string, IdempotencyRecord>)
  {
    /** Write the entries of d. */
    function Plus(d: Ledger): Ledger {
      Ledger(wallets + d.wallets, requests + d.requests, transactions + d.transactions,
             signatures + d.signatures, matches + d.matches, exceptions + d.exceptions,
             events + d.events, idempotency + d.idempotency)
    }
  }

  const EMPTY := Ledger(map[], map[], map[], map[], map[], map[], map[], map[])

  // ---------- operations ----------

  datatype IngestIds = IngestIds(transaction: Id, settlement: Id, exception: Id,
                                 detected: Id, verified: Id, matched: Id, final: Id)

  datatype LedgerOp =
    | RegisterWallet(businessId: Id, name: string, chain: string, address: string, now: Clock, walletId: Id)
    | CreateRequest(businessId: Id, key: string, body: RequestBody, readAt: Clock, now: Clock, requestId: Id,
                    eventId: Id)
    | Ingest(businessId: Id, evidence: Evidence, pick: Id, now: Clock, ids: IngestIds)
    | ResolveException(businessId: Id, actorId: Id, exceptionId: Id, reason: string, now: Clock, eventId: Id)

  datatype Response =
    | WalletCreated(wallet: Wallet)
    | RequestStored(request: PaymentRequest, replayed: bool)
    | Ingested(transaction: StablecoinTransaction, settlement: Option<TransactionMatch>,
               exception: Option<PaymentException>, replayed: bool)
    | ExceptionClosed(closed: PaymentException)

  /** What one operation writes, the receipt events it emits in order, and what it returns. */
  datatype Change = Change(delta: Ledger, emitted: seq<ReceiptEvent>, result: Result<Response>)

  function Refuse(e: ErrorCode): Change {
    Change(EMPTY, [], Failure(e))
  }

  function Unchanged(r: Response): Change {
    Change(EMPTY, [], Success(r))
  }

  // ---------- validation ----------

  /** validateAddress */
  predicate ValidAddress(address: string) {
    && 32 <= |address| <= 64
    && forall i :: 0 <= i < |address| ==> address[i] !in " 0OIl"
  }

  /** normalizePaymentRequestInput, after trimming and case folding. */
  predicate ValidBody(body: RequestBody, readAt: Clock) {
    ValidTerms(body) && body.expiresAt > readAt
  }

  /** Everything normalizePaymentRequestInput checks except the clock. */
  predicate ValidTerms(body: RequestBody) {
    && body.walletId != "" && body.customerId != "" && body.invoiceId != ""
    && Valid(body.amount)
    && body.token == TOKEN_USDC
    && body.chain == CHAIN_SOLANA
    && body.expiresAt != ZERO_TIME
  }

  predicate Base10(text: string) {
    var digits := if text != "" && (text[0] == '-' || text[0] == '+') then text[1..] else text;
    digits != "" && AllDigits(digits)
  }

  /** normalizeStablecoinTransactionInput, after trimming, case folding and defaulting the owner. */
  predicate ValidEvidence(e: Evidence) {
    && e.chain == CHAIN_SOLANA
    && e.signature != ""
    && e.slot != 0
    && e.confirmationStatus in {"processed", "confirmed", "finalized"}
    && ValidAddress(e.sourceAddress)
    && ValidAddress(e.destinationAddress)
    && ValidAddress(e.destinationOwner)
    && (e.sourceOwner != "" ==> ValidAddress(e.sourceOwner))
    && e.token == TOKEN_USDC
    && e.mint == SOLANA_USDC_MINT
    && e.decimals == 6
    && Base10(e.amountAtomic)
    && e.amountAtomic[0] != '-' && e.amountAtomic != "0"
    && Valid(e.amount)
  }

  // ---------- index keys ----------

  function IdempotencyScope(businessId: Id, key: string): string {
    businessId + "|payment_request.create|" + key
  }

  function SignatureScope(businessId: Id, chain: string, signature: string): string {
    businessId + "|" + chain + "|" + signature
  }

  function ScopeOf(t: StablecoinTransaction): string {
    SignatureScope(t.businessId, t.chain, t.signature)
  }

  // ---------- RegisterWallet ----------

  function RegisterWalletChange(l: Ledger, businessId: Id, name: string, chain: string, address: string, now: Clock,
                                walletId: Id): Change
  {
    if name == "" || chain != CHAIN_SOLANA || !ValidAddress(address) then Refuse(InvalidArgument)
    else if exists w | w in l.wallets :: SameWallet(l.wallets[w], businessId, chain, address) then Refuse(Conflict)
    else
      var wallet := Wallet(walletId, businessId, name, chain, address, now, None);
      Change(EMPTY.(wallets := map[walletId := wallet]), [], Success(WalletCreated(wallet)))
  }

  predicate SameWallet(w: Wallet, businessId: Id, chain: string, address: string) {
    w.businessId == businessId && w.chain == chain && w.address == address && w.archivedAt.None?
  }

  // ---------- CreatePaymentRequest ----------

  function NewRequest(businessId: Id, wallet: Wallet, body: RequestBody, now: Clock, requestId: Id): PaymentRequest {
    PaymentRequest(requestId, businessId, wallet.id, body.customerId, body.invoiceId, body.orderId,
                   body.amount, body.token, body.chain, wallet.address, body.expiresAt, body.metadata,
                   AwaitingPayment, now, now)
  }

  function CreatedEvent(r: PaymentRequest, eventId: Id): ReceiptEvent {
    ReceiptEvent(eventId, r.businessId, r.id, "", "", "", RequestCreated, r.createdAt)
  }

  function CreateRequestChange(l: Ledger, businessId: Id, key: string, body: RequestBody, readAt: Clock, now: Clock,
                               requestId: Id, eventId: Id): Change {
    var scope := IdempotencyScope(businessId, key);
    if key == "" || |key| > 160 || !ValidBody(body, readAt) then Refuse(InvalidArgument)
    else if scope in l.idempotency then
      var record := l.idempotency[scope];
      if record.body != body then Refuse(Conflict)
      else if record.requestId !in l.requests then Refuse(NotFound)
      else Unchanged(RequestStored(l.requests[record.requestId], true))
    else if body.walletId !in l.wallets
            || l.wallets[body.walletId].businessId != businessId
            || l.wallets[body.walletId].archivedAt.Some? then Refuse(NotFound)
    else if l.wallets[body.walletId].chain != body.chain then Refuse(InvalidArgument)
    else
      var request := NewRequest(businessId, l.wallets[body.walletId], body, now, requestId);
      var event := CreatedEvent(request, eventId);
      Change(EMPTY.(requests := map[requestId := request],
                    idempotency := map[scope := IdempotencyRecord(body, requestId)],
                    events := map[eventId := event]),
             [event], Success(RequestStored(request, false)))
  }

  // ---------- IngestStablecoinTransaction ----------

  /** findWalletForTransactionLocked: the wallets that the loop may return. */
  predicate Receives(w: Wallet, businessId: Id, e: Evidence) {
    && w.businessId == businessId && w.chain == e.chain && w.archivedAt.None?
    && (w.address == e.destinationOwner || w.address == e.destinationAddress)
  }

  predicate SameEvidence(t: StablecoinTransaction, e: Evidence) {
    && t.amountAtomic == e.amountAtomic
    && t.destinationAddress == e.destinationAddress
    && t.destinationOwner == e.destinationOwner
    && t.mint == e.mint
  }

  function NewTransaction(businessId: Id, e: Evidence, walletId: Id, now: Clock, id: Id): StablecoinTransaction {
    StablecoinTransaction(id, businessId, walletId, e.chain, e.signature, e.slot, e.blockTime, e.confirmationStatus,
                          e.sourceAddress, e.sourceOwner, e.destinationAddress, e.destinationOwner,
                          e.token, e.mint, e.amount, e.amountAtomic, e.decimals,
                          if e.confirmationStatus == "finalized" then ConfirmedOnchain else PendingFinality, now, now)
  }

  /** When the payment happened: the block time if the chain reported one. */
  function PaymentTime(t: StablecoinTransaction): Time {
    if t.blockTime.Some? then UNIX_EPOCH + t.blockTime.value * SECOND else t.detectedAt
  }

  /** The filter of the matching loop. */
  predicate IsCandidate(r: PaymentRequest, t: StablecoinTransaction) {
    && r.businessId == t.businessId && r.walletId == t.walletId && r.chain == t.chain && r.token == t.token
    && r.status == AwaitingPayment
    && Compare(t.amount, r.amount).Success?
  }

  predicate Late(r: PaymentRequest, t: StablecoinTransaction) {
    PaymentTime(t) > r.expiresAt
  }

  predicate Exact(r: PaymentRequest, t: StablecoinTransaction) {
    Compare(t.amount, r.amount) == Success(0)
  }

  ghost function Candidates(requests: map<Id, PaymentRequest>, t: StablecoinTransaction, late: bool): set<Id> {
    set id | id in requests && IsCandidate(requests[id], t) && Late(requests[id], t) == late
  }

  ghost function ExactCandidates(requests: map<Id, PaymentRequest>, t: StablecoinTransaction, late: bool): set<Id> {
    set id | id in Candidates(requests, t, late) && Exact(requests[id], t)
  }

  /** What the matching switch decides about a finalized transaction. */
  datatype Verdict =
    | Settle(requestId: Id, status: MatchStatus)
    | Ambiguous(severity: Severity)
    | Unclaimed

  ghost function Only(ids: set<Id>): (id: Id)
    requires ids != {}
    ensures id in ids
  {
    var id :| id in ids; id
  }

  /** The matching switch of matchTransactionLocked over the four candidate lists. */
  ghost function Decide(requests: map<Id, PaymentRequest>, t: StablecoinTransaction): (v: Verdict)
    ensures v.Settle? ==> v.requestId in requests
  {
    var active, late := Candidates(requests, t, false), Candidates(requests, t, true);
    var activeExact, lateExact := ExactCandidates(requests, t, false), ExactCandidates(requests, t, true);
    if |activeExact| == 1 then Settle(Only(activeExact), ExactMatch)
    else if |activeExact| > 1 then Ambiguous(High)
    else if |active| == 1 then
      Settle(Only(active),
             if Compare(t.amount, requests[Only(active)].amount) == Success(-1) then UnderpaidMatch else OverpaidMatch)
    else if |active| > 1 then Ambiguous(High)
    else if |lateExact| == 1 then Settle(Only(lateExact), ExpiredMatch)
    else if |lateExact| > 1 || |late| > 1 then Ambiguous(Medium)
    else if |late| == 1 then Settle(Only(late), ExpiredMatch)
    else Unclaimed
  }

  function NewMatch(r: PaymentRequest, t: StablecoinTransaction, status: MatchStatus, now: Clock,
                    id: Id): TransactionMatch
  {
    TransactionMatch(id, r.businessId, r.id, t.id, status, r.amount, t.amount, now)
  }

  function NewException(businessId: Id, requestId: Id, transactionId: Id, kind: ExceptionType, severity: Severity,
                        now: Clock, id: Id): PaymentException
  {
    PaymentException(id, businessId, requestId, transactionId, kind, Open, severity, "", "", now, None)
  }

  /** recordPaymentReceiptEventsLocked */
  function SettlementEvents(r: PaymentRequest, t: StablecoinTransaction, m: TransactionMatch, exceptionId: Id,
                            now: Clock, ids: IngestIds): seq<ReceiptEvent>
  {
    [ReceiptEvent(ids.detected, r.businessId, r.id, t.id, "", "", PaymentDetected, now),
     ReceiptEvent(ids.verified, r.businessId, r.id, t.id, "", "", TransactionVerified, now),
     ReceiptEvent(ids.matched, r.businessId, r.id, t.id, m.id, "", TransactionMatched, now),
     ReceiptEvent(ids.final, r.businessId, r.id, t.id, m.id, exceptionId,
                  if m.status == ExactMatch then PaymentConfirmed else PaymentExceptioned, now)]
  }

  function EventTable(events: seq<ReceiptEvent>): map<Id, ReceiptEvent> {
    if events == [] then map[] else EventTable(events[..|events| - 1])[events[|events| - 1].id := events[|events| - 1]]
  }

  /** Everything a settlement writes on top of the transaction itself. */
  function SettleChange(r: PaymentRequest, t: StablecoinTransaction, status: MatchStatus, now: Clock,
                        ids: IngestIds): Change
  {
    var m := NewMatch(r, t, status, now, ids.settlement);
    var done := t.(status := MatchedToRequest);
    var exception :=
      if status == ExactMatch then None
      else Some(NewException(t.businessId, r.id, t.id, ExceptionOf(status), SeverityOf(status), now, ids.exception));
    var events := SettlementEvents(r, t, m, if exception.Some? then ids.exception else "", now, ids);
    Change(EMPTY.(requests := map[r.id := r.(status := StatusOf(status), updatedAt := now)],
                  transactions := map[t.id := done],
                  signatures := map[ScopeOf(t) := t.id],
                  matches := map[m.id := m],
                  exceptions := if exception.Some? then map[ids.exception := exception.value] else map[],
                  events := EventTable(events)),
           events, Success(Ingested(done, Some(m), exception, false)))
  }

  /** A transaction that settles nothing: an exception is raised on it unless it is not final yet. */
  function UnsettledChange(t: StablecoinTransaction, kind: Option<ExceptionType>, severity: Severity, now: Clock,
                           ids: IngestIds): Change
  {
    var done := if kind == Some(OrphanType) then t.(status := Orphaned) else t;
    var exception :=
      if kind.None? then None
      else Some(NewException(t.businessId, "", t.id, kind.value, severity, now, ids.exception));
    Change(EMPTY.(transactions := map[t.id := done],
                  signatures := map[ScopeOf(t) := t.id],
                  exceptions := if exception.Some? then map[ids.exception := exception.value] else map[]),
           [], Success(Ingested(done, None, exception, false)))
  }

  /** Storing a new transaction and matching it. */
  ghost function RecordChange(l: Ledger, t: StablecoinTransaction, now: Clock, ids: IngestIds): Change {
    if t.status == PendingFinality then UnsettledChange(t, None, Medium, now, ids)
    else
      match Decide(l.requests, t)
      case Settle(r, status) => SettleChange(l.requests[r], t, status, now, ids)
      case Ambiguous(severity) => UnsettledChange(t, Some(AmbiguousType), severity, now, ids)
      case Unclaimed => UnsettledChange(t, Some(OrphanType), Medium, now, ids)
  }

  ghost function IngestChange(l: Ledger, businessId: Id, e: Evidence, pick: Id, now: Clock, ids: IngestIds): Change {
    var scope := SignatureScope(businessId, e.chain, e.signature);
    if !ValidEvidence(e) then Refuse(InvalidArgument)
    else if pick !in l.wallets || !Receives(l.wallets[pick], businessId, e) then Refuse(NotFound)
    else if scope in l.signatures then
      if l.signatures[scope] !in l.transactions
         || !SameEvidence(l.transactions[l.signatures[scope]], e) then Refuse(Conflict)
      else Unchanged(Ingested(l.transactions[l.signatures[scope]], None, None, true))
    else RecordChange(l, NewTransaction(businessId, e, pick, now, ids.transaction), now, ids)
  }

  // ---------- ResolveException ----------

  function ResolvedEvent(x: PaymentException, now: Clock, eventId: Id): ReceiptEvent {
    ReceiptEvent(eventId, x.businessId, x.requestId, x.transactionId, "", x.id, ExceptionResolved, now)
  }

  function ResolveChange(l: Ledger, businessId: Id, actorId: Id, exceptionId: Id, reason: string, now: Clock,
                         eventId: Id): Change
  {
    if reason == "" then Refuse(InvalidArgument)
    else if exceptionId !in l.exceptions || l.exceptions[exceptionId].businessId != businessId then Refuse(NotFound)
    else
      var x := l.exceptions[exceptionId];
      var closed := x.(status := Resolved, resolutionReason := reason, resolvedBy := actorId, resolvedAt := Some(now));
      if x.status == Resolved then Unchanged(ExceptionClosed(x))
      else if x.requestId == "" || x.requestId !in l.requests then
        Change(EMPTY.(exceptions := map[exceptionId := closed]), [], Success(ExceptionClosed(closed)))
      else
        var event := ResolvedEvent(x, now, eventId);
        Change(EMPTY.(exceptions := map[exceptionId := closed],
                      requests := map[x.requestId := l.requests[x.requestId].(status := ManuallyResolved,
                                                                              updatedAt := now)],
                      events := map[eventId := event]),
               [event], Success(ExceptionClosed(closed)))
  }

  // ---------- steps and runs ----------

  ghost function Perform(l: Ledger, op: LedgerOp): Change {
    match op
    case RegisterWallet(b, name, chain, address, now, id) => RegisterWalletChange(l, b, name, chain, address, now, id)
    case CreateRequest(b, key, body, readAt, now, id, eventId) =>
      CreateRequestChange(l, b, key, body, readAt, now, id, eventId)
    case Ingest(b, e, pick, now, ids) => IngestChange(l, b, e, pick, now, ids)
    case ResolveException(b, actor, x, reason, now, eventId) => ResolveChange(l, b, actor, x, reason, now, eventId)
  }

  ghost function Step(l: Ledger, op: LedgerOp): Ledger {
    l.Plus(Perform(l, op).delta)
  }

  /** Business identifiers come from newID and hold no separator. */
  predicate IsBusiness(b: Id) { '|' !in b }

  predicate Distinct4(a: Id, b: Id, c: Id, d: Id) {
    a != b && a != c && a != d && b != c && b != d && c != d
  }

  /**
   What newID and map iteration guarantee about the inputs of an operation: the
   identifiers are non-empty and fresh, and the wallet visited first receives the
   payment whenever some wallet does.
   */
  ghost predicate Admissible(l: Ledger, op: LedgerOp) {
    && IsBusiness(op.businessId)
    && match op
       case RegisterWallet(_, _, _, _, _, id) => id != "" && id !in l.wallets
       case CreateRequest(_, _, _, _, _, id, eventId) => id != "" && id !in l.requests && eventId !in l.events
       case Ingest(b, e, pick, _, ids) =>
         && ids.transaction != "" && ids.transaction !in l.transactions
         && ids.settlement != "" && ids.settlement !in l.matches
         && ids.exception != "" && ids.exception !in l.exceptions
         && ids.detected !in l.events && ids.verified !in l.events && ids.matched !in l.events && ids.final !in l.events
         && Distinct4(ids.detected, ids.verified, ids.matched, ids.final)
         && ((exists w :: w in l.wallets && Receives(l.wallets[w], b, e)) ==>
             pick in l.wallets && Receives(l.wallets[pick], b, e))
       case ResolveException(_, _, _, _, _, eventId) => eventId !in l.events
  }

  ghost function Run(l: Ledger, ops: seq<LedgerOp>): Ledger
    decreases |ops|
  {
    if ops == [] then l else Step(Run(l, ops[..|ops| - 1]), ops[|ops| - 1])
  }

  ghost predicate AdmissibleRun(l: Ledger, ops: seq<LedgerOp>)
    decreases |ops|
  {
    ops == [] || (AdmissibleRun(l, ops[..|ops| - 1]) && Admissible(Run(l, ops[..|ops| - 1]), ops[|ops| - 1]))
  }
}
