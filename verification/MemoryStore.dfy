/**
 MemoryStore of internal/core/store.go: the tables as fields, the locked operations as
 methods. Each method is proved to do to the tables what the mathematical store says.
 Identifiers, clock readings and the network are inputs; Go's map iteration order is an
 arbitrary choice at every step of a loop.
 */
module MemoryStoreClass {
  import opened Wrappers
  import opened Finite
  import opened Amounts
  import opened Models
  import opened LedgerModel
  import opened LedgerInvariant
  import opened LedgerSteps
  import opened ApiKeys
  import opened Webhooks
  import opened WebhookTheorems
  import opened Reconciliation
  import opened ReportHistory
  import opened StoreModel
  import opened Persistence
  import opened StoreGlue
  import opened ReportGlue
  import opened Receipts
  import opened Metrics
  import opened ServiceMetrics

  class MemoryStore {
    var wallets: map<Id, Wallet>
    var paymentRequests: map<Id, PaymentRequest>
    var stablecoinTransactions: map<Id, StablecoinTransaction>
    var transactionBySignature: map<string, Id>
    var transactionMatches: map<Id, TransactionMatch>
    var exceptions: map<Id, PaymentException>
    var receiptEvents: map<Id, ReceiptEvent>
    var idempotency: map<string, IdempotencyRecord>
    var webhookSubscriptions: map<Id, Subscription>
    var webhookDeliveries: map<Id, Delivery>
    var reconciliationRuns: map<Id, RunRecord>
    var walletSnapshots: map<Id, Snapshot>
    var settlementRows: map<Id, SettlementRow>
    var apiKeys: map<Id, ApiKey>
    var apiKeyHash: map<string, Id>

    // ---------- the mathematical store ----------

    ghost function Tables(): Ledger
      reads this
    {
      Ledger(wallets, paymentRequests, stablecoinTransactions, transactionBySignature, transactionMatches,
             exceptions, receiptEvents, idempotency)
    }

    ghost function WebhookTables(): Hooks
      reads this
    {
      Hooks(webhookSubscriptions, webhookDeliveries)
    }

    ghost function ReportTables(): Reports
      reads this
    {
      Reports(reconciliationRuns, walletSnapshots, settlementRows)
    }

    ghost function KeyTables(): Keys
      reads this
    {
      Keys(apiKeys, apiKeyHash)
    }

    ghost function View(): Store
      reads this
    {
      Store(Tables(), WebhookTables(), ReportTables(), KeyTables())
    }

    ghost predicate Valid()
      reads this
    {
      StoreOk(View())
    }

    /** NewMemoryStore */
    constructor ()
      ensures Valid() && View() == NO_STORE
    {
      wallets, paymentRequests, stablecoinTransactions, transactionBySignature := map[], map[], map[], map[];
      transactionMatches, exceptions, receiptEvents, idempotency := map[], map[], map[], map[];
      webhookSubscriptions, webhookDeliveries := map[], map[];
      reconciliationRuns, walletSnapshots, settlementRows := map[], map[], map[];
      apiKeys, apiKeyHash := map[], map[];
      new;
      NewStoreOk();
    }

    // ---------- webhooks ----------

    /** attemptWebhookDeliveryLocked */
    method AttemptWebhookDelivery(deliveryId: Id, outcome: Outcome, now: Clock)
      modifies `webhookDeliveries
      ensures deliveryId !in old(webhookDeliveries) ==> webhookDeliveries == old(webhookDeliveries)
      ensures deliveryId in old(webhookDeliveries) ==>
                var d := old(webhookDeliveries)[deliveryId];
                var s := if d.subscriptionId in webhookSubscriptions
                         then Some(webhookSubscriptions[d.subscriptionId]) else None;
                webhookDeliveries == old(webhookDeliveries)[deliveryId := Attempt(d, s, outcome, now)]
    {
      if deliveryId !in webhookDeliveries {
        return;
      }
      var delivery := webhookDeliveries[deliveryId];
      if delivery.subscriptionId !in webhookSubscriptions || !webhookSubscriptions[delivery.subscriptionId].enabled {
        delivery := delivery.(status := Failed, lastError := "webhook subscription is disabled or missing",
                              updatedAt := now);
        webhookDeliveries := webhookDeliveries[deliveryId := delivery];
        return;
      }
      delivery := delivery.(attempts := delivery.attempts + 1);
      if !outcome.Answered? {
        delivery := delivery.(status := Failed, lastError := outcome.error, nextAttemptAt := Some(now + MINUTE),
                              updatedAt := now);
        webhookDeliveries := webhookDeliveries[deliveryId := delivery];
        return;
      }
      delivery := delivery.(lastStatusCode := outcome.code, updatedAt := now);
      if 200 <= outcome.code < 300 {
        delivery := delivery.(status := Delivered, lastError := "", nextAttemptAt := None, deliveredAt := Some(now));
      } else {
        delivery := delivery.(status := Failed, lastError := outcome.statusText, nextAttemptAt := Some(now + MINUTE));
      }
      webhookDeliveries := webhookDeliveries[deliveryId := delivery];
    }

    /** One round of the enqueueing loop: store a pending delivery and attempt it at once. */
    method PostTo(subscription: Subscription, event: ReceiptEvent, now: Clock, posting: Posting)
      requires subscription.id in webhookSubscriptions && webhookSubscriptions[subscription.id] == subscription
      modifies `webhookDeliveries
      ensures webhookDeliveries ==
              old(webhookDeliveries)[posting.deliveryId := FirstAttempt(subscription, event, now, posting)]
    {
      var delivery := NewDelivery(subscription, event, now, posting.deliveryId);
      webhookDeliveries := webhookDeliveries[delivery.id := delivery];
      AttemptWebhookDelivery(delivery.id, posting.outcome, now);
      hide Attempt;
    }

    /** enqueueWebhookDeliveriesLocked: subscriptions are visited in any order. */
    method EnqueueWebhookDeliveries(event: ReceiptEvent, now: Clock, net: Net)
      requires FreshPosting(WebhookTables(), event, net)
      requires forall s :: s in webhookSubscriptions ==> webhookSubscriptions[s].id == s
      modifies `webhookDeliveries
      ensures WebhookTables() == Enqueue(old(WebhookTables()), event, now, net)
    {
      hide Posted, FirstAttempt, Wants;
      ghost var start := webhookDeliveries;
      ghost var interested := Interested(webhookSubscriptions, event);
      ghost var done: set<Id> := {};
      var todo := webhookSubscriptions.Keys;
      PostedNone(webhookSubscriptions, event, now, net);
      while todo != {}
        invariant todo <= webhookSubscriptions.Keys && done <= interested && done !! todo
        invariant interested <= done + todo
        invariant webhookDeliveries == start + Posted(webhookSubscriptions, done, event, now, net)
        decreases |todo|
      {
        var id :| id in todo;
        todo := todo - {id};
        var subscription := webhookSubscriptions[id];
        if Wants(subscription, event) {
          var posting := net(event.id, id);
          PostTo(subscription, event, now, posting);
          PostedNext(webhookSubscriptions, done, id, event, now, net);
          AddThenSet(start, Posted(webhookSubscriptions, done, event, now, net), posting.deliveryId,
                     FirstAttempt(subscription, event, now, posting));
          done := done + {id};
        }
      }
      assert done == interested;
    }

    /** createReceiptEventLocked */
    method CreateReceiptEvent(event: ReceiptEvent, now: Clock, net: Net)
      requires FreshPosting(WebhookTables(), event, net)
      requires forall s :: s in webhookSubscriptions ==> webhookSubscriptions[s].id == s
      modifies `receiptEvents, `webhookDeliveries
      ensures receiptEvents == old(receiptEvents)[event.id := event]
      ensures WebhookTables() == Enqueue(old(WebhookTables()), event, now, net)
    {
      receiptEvents := receiptEvents[event.id := event];
      EnqueueWebhookDeliveries(event, now, net);
    }

    // ---------- RegisterWallet ----------

    /** The conflict loop: some unarchived wallet of the business already has this address. */
    method IsRegistered(businessId: Id, chain: string, address: string) returns (found: bool)
      ensures found <==> exists w | w in wallets :: SameWallet(wallets[w], businessId, chain, address)
    {
      var todo := wallets.Keys;
      while todo != {}
        invariant todo <= wallets.Keys
        invariant forall w :: w in wallets && w !in todo ==> !SameWallet(wallets[w], businessId, chain, address)
        decreases |todo|
      {
        var id :| id in todo;
        todo := todo - {id};
        if SameWallet(wallets[id], businessId, chain, address) {
          return true;
        }
      }
      return false;
    }

    method RegisterWallet(businessId: Id, name: string, chain: string, address: string, now: Clock, walletId: Id)
      returns (result: Result<Response>)
      requires Valid() && IsBusiness(businessId) && walletId != "" && walletId !in wallets
      modifies `wallets
      ensures Valid()
      ensures var op := LedgerOp.RegisterWallet(businessId, name, chain, address, now, walletId);
              Tables() == Step(old(Tables()), op) && result == Perform(old(Tables()), op).result
    {
      ghost var op := LedgerOp.RegisterWallet(businessId, name, chain, address, now, walletId);
      ghost var before := View();
      hide StoreOk, SameWallet, ValidAddress, Step;
      StepKeepsOk(before, op);
      EmptyStep(before.ledger, op);
      if name == "" || chain != CHAIN_SOLANA || !ValidAddress(address) {
        return Failure(InvalidArgument);
      }
      var found := IsRegistered(businessId, chain, address);
      if found {
        return Failure(Conflict);
      }
      var wallet := Wallet(walletId, businessId, name, chain, address, now, None);
      wallets := wallets[walletId := wallet];
      RegisterNext(before.ledger, op, wallet);
      return Success(WalletCreated(wallet));
    }

    // ---------- CreatePaymentRequest ----------

    method CreatePaymentRequest(businessId: Id, key: string, body: RequestBody, readAt: Clock, now: Clock,
                                requestId: Id, eventId: Id, net: Net)
      returns (result: Result<Response>)
      requires Valid()
      requires CanHappen(View(), LedgerCall(CreateRequest(businessId, key, body, readAt, now, requestId, eventId), net))
      modifies `paymentRequests, `idempotency, `receiptEvents, `webhookDeliveries
      ensures CarriedOut(old(View()), CreateRequest(businessId, key, body, readAt, now, requestId, eventId), net,
                         View(), result)
    {
      hide CarriedOut, StoreOk, CanHappen, Perform, Next, ValidBody, IdempotencyScope;
      ghost var op := CreateRequest(businessId, key, body, readAt, now, requestId, eventId);
      ghost var before := View();
      CallDone(before, op, net);
      CreatePerforms(before.ledger, op);
      NothingHappens(before, op, net);
      if key == "" || |key| > 160 || !ValidBody(body, readAt) {
        return Failure(InvalidArgument);
      }
      var scope := IdempotencyScope(businessId, key);
      if scope in idempotency {
        var record := idempotency[scope];
        if record.body != body {
          return Failure(Conflict);
        }
        if record.requestId !in paymentRequests {
          return Failure(NotFound);
        }
        return Success(RequestStored(paymentRequests[record.requestId], true));
      }
      if body.walletId !in wallets || wallets[body.walletId].businessId != businessId
         || wallets[body.walletId].archivedAt.Some? {
        return Failure(NotFound);
      }
      var wallet := wallets[body.walletId];
      if wallet.chain != body.chain {
        return Failure(InvalidArgument);
      }
      result := StoreRequest(NewRequest(businessId, wallet, body, now, requestId), scope, body, now, eventId, net, op);
    }

    /** The accepting path of CreatePaymentRequest. */
    method StoreRequest(request: PaymentRequest, scope: string, body: RequestBody, now: Clock, eventId: Id, net: Net,
                        ghost op: LedgerOp)
      returns (result: Result<Response>)
      requires Valid() && op.CreateRequest? && op.now == now && CanHappen(View(), LedgerCall(op, net))
      requires Creates(Perform(Tables(), op), request, scope, body, CreatedEvent(request, eventId))
      modifies `paymentRequests, `idempotency, `receiptEvents, `webhookDeliveries
      ensures CarriedOut(old(View()), op, net, View(), result)
    {
      hide CarriedOut, StoreOk, CanHappen, Perform, Next, Enqueue, FreshPosting, FreshPostings;
      ghost var before := View();
      var event := CreatedEvent(request, eventId);
      CallDone(before, op, net);
      CallFacts(before, op, net);
      CreateNext(before, op, net, scope, body, request, event);
      hide CreatedEvent, Creates;
      paymentRequests := paymentRequests[request.id := request];
      idempotency := idempotency[scope := IdempotencyRecord(body, request.id)];
      CreateReceiptEvent(event, now, net);
      return Success(RequestStored(request, false));
    }

    // ---------- ResolveException ----------

    method ResolveException(businessId: Id, actorId: Id, exceptionId: Id, reason: string, now: Clock, eventId: Id,
                            net: Net)
      returns (result: Result<Response>)
      requires Valid()
      requires CanHappen(View(),
                         LedgerCall(LedgerOp.ResolveException(businessId, actorId, exceptionId, reason, now, eventId),
                                    net))
      modifies `paymentRequests, `exceptions, `receiptEvents, `webhookDeliveries
      ensures var op := LedgerOp.ResolveException(businessId, actorId, exceptionId, reason, now, eventId);
              CarriedOut(old(View()), op, net, View(), result)
    {
      hide CarriedOut, StoreOk, CanHappen, Perform, Next;
      ghost var op := LedgerOp.ResolveException(businessId, actorId, exceptionId, reason, now, eventId);
      ghost var before := View();
      CallDone(before, op, net);
      ResolvePerforms(before.ledger, op);
      NothingHappens(before, op, net);
      if reason == "" {
        return Failure(InvalidArgument);
      }
      if exceptionId !in exceptions || exceptions[exceptionId].businessId != businessId {
        return Failure(NotFound);
      }
      var exception := exceptions[exceptionId];
      if exception.status == Resolved {
        return Success(ExceptionClosed(exception));
      }
      ExceptionNames(before, exceptionId);
      exception := exception.(status := Resolved, resolutionReason := reason, resolvedBy := actorId,
                              resolvedAt := Some(now));
      if exception.requestId != "" {
        result := CloseWithRequest(exception, businessId, now, eventId, net, op);
      } else {
        exceptions := exceptions[exception.id := exception];
        CloseFlagNext(before, op, net, exception);
        result := Success(ExceptionClosed(exception));
      }
    }

    /** Closing an exception that holds up a request. */
    method CloseWithRequest(exception: PaymentException, businessId: Id, now: Clock, eventId: Id, net: Net,
                            ghost op: LedgerOp)
      returns (result: Result<Response>)
      requires Valid() && op.ResolveException? && op.now == now && CanHappen(View(), LedgerCall(op, net))
      requires exception.requestId in paymentRequests && paymentRequests[exception.requestId].id == exception.requestId
      requires ClosesWith(Perform(Tables(), op), exception,
                          paymentRequests[exception.requestId].(status := ManuallyResolved, updatedAt := now),
                          ReceiptEvent(eventId, businessId, exception.requestId, exception.transactionId, "",
                                       exception.id, ExceptionResolved, now))
      modifies `paymentRequests, `exceptions, `receiptEvents, `webhookDeliveries
      ensures CarriedOut(old(View()), op, net, View(), result)
    {
      hide CarriedOut, StoreOk, CanHappen, Perform, Next, Enqueue, FreshPosting, FreshPostings;
      ghost var before := View();
      var request := paymentRequests[exception.requestId];
      request := request.(status := ManuallyResolved, updatedAt := now);
      var event := ReceiptEvent(eventId, businessId, request.id, exception.transactionId, "", exception.id,
                                ExceptionResolved, now);
      CallDone(before, op, net);
      CallFacts(before, op, net);
      CloseNext(before, op, net, exception, request, event);
      assert FreshPosting(WebhookTables(), event, net)
             && Perform(before.ledger, op).result == Success(ExceptionClosed(exception));
      hide ClosesWith;
      exceptions := exceptions[exception.id := exception];
      paymentRequests := paymentRequests[request.id := request];
      CreateReceiptEvent(event, now, net);
      return Success(ExceptionClosed(exception));
    }

    // ---------- IngestStablecoinTransaction ----------

    /** findWalletForTransactionLocked: whichever receiving wallet the iteration meets first. */
    method FindWalletForTransaction(businessId: Id, e: Evidence) returns (found: Option<Id>)
      ensures found.Some? ==> found.value in wallets && Receives(wallets[found.value], businessId, e)
      ensures found.None? ==> forall w :: w in wallets ==> !Receives(wallets[w], businessId, e)
    {
      var todo := wallets.Keys;
      while todo != {}
        invariant todo <= wallets.Keys
        invariant forall w :: w in wallets && w !in todo ==> !Receives(wallets[w], businessId, e)
        decreases |todo|
      {
        var id :| id in todo;
        todo := todo - {id};
        if Receives(wallets[id], businessId, e) {
          return Some(id);
        }
      }
      return None;
    }

    /** The matching loop: requests are visited in any order and sorted into the four candidate lists. */
    method CollectCandidates(t: StablecoinTransaction) returns (lists: Lists4)
      requires forall r :: r in paymentRequests ==> paymentRequests[r].id == r
      ensures Sorted(lists, paymentRequests, t, {})
    {
      hide *;
      lists := Lists4([], [], [], []);
      var todo := paymentRequests.Keys;
      NoneSorted(paymentRequests, t);
      while todo != {}
        invariant todo <= paymentRequests.Keys
        invariant Sorted(lists, paymentRequests, t, todo)
        decreases |todo|
      {
        var id :| id in todo;
        lists := SortCandidate(t, paymentRequests[id], lists, todo);
        todo := todo - {id};
      }
    }

    /** One round of the matching loop. */
    method SortCandidate(t: StablecoinTransaction, request: PaymentRequest, lists: Lists4, ghost todo: set<Id>)
      returns (next: Lists4)
      requires request.id in todo && request.id in paymentRequests && paymentRequests[request.id] == request
      requires Sorted(lists, paymentRequests, t, todo)
      ensures Sorted(next, paymentRequests, t, todo - {request.id})
    {
      hide Sorted;
      SortedNext(lists, paymentRequests, t, todo, request);
      if request.businessId != t.businessId || request.walletId != t.walletId || request.chain != t.chain
         || request.token != t.token || request.status != AwaitingPayment {
        return lists;
      }
      var compare := Compare(t.amount, request.amount);
      if compare.Failure? {
        return lists;
      }
      if PaymentTime(t) > request.expiresAt {
        next := lists.(late := lists.late + [request]);
        if compare.value == 0 {
          next := next.(lateExact := next.lateExact + [request]);
        }
        return;
      }
      next := lists.(active := lists.active + [request]);
      if compare.value == 0 {
        next := next.(activeExact := next.activeExact + [request]);
      }
    }

    /** createTransactionMatchLocked */
    method CreateTransactionMatch(r: PaymentRequest, t: StablecoinTransaction, status: MatchStatus, now: Clock, id: Id)
      returns (m: TransactionMatch)
      modifies `transactionMatches
      ensures m == NewMatch(r, t, status, now, id)
      ensures transactionMatches == old(transactionMatches)[id := m]
    {
      m := TransactionMatch(id, r.businessId, r.id, t.id, status, r.amount, t.amount, now);
      transactionMatches := transactionMatches[m.id := m];
    }

    /** createExceptionLocked */
    method CreateException(businessId: Id, requestId: Id, transactionId: Id, kind: ExceptionType, severity: Severity,
                           now: Clock, id: Id)
      returns (x: PaymentException)
      modifies `exceptions
      ensures x == NewException(businessId, requestId, transactionId, kind, severity, now, id)
      ensures exceptions == old(exceptions)[id := x]
    {
      x := PaymentException(id, businessId, requestId, transactionId, kind, Open, severity, "", "", now, None);
      exceptions := exceptions[x.id := x];
    }

    /** updatePaymentRequestStatusLocked */
    method UpdatePaymentRequestStatus(id: Id, status: PaymentStatus, now: Clock)
      requires id in paymentRequests
      modifies `paymentRequests
      ensures paymentRequests ==
              old(paymentRequests)[id := old(paymentRequests)[id].(status := status, updatedAt := now)]
    {
      var request := paymentRequests[id];
      request := request.(status := status, updatedAt := now);
      paymentRequests := paymentRequests[id := request];
    }

    /** updateTransactionStatusLocked */
    method UpdateTransactionStatus(id: Id, status: TransactionStatus)
      requires id in stablecoinTransactions
      modifies `stablecoinTransactions
      ensures stablecoinTransactions ==
              old(stablecoinTransactions)[id := old(stablecoinTransactions)[id].(status := status)]
    {
      var transaction := stablecoinTransactions[id];
      transaction := transaction.(status := status);
      stablecoinTransactions := stablecoinTransactions[id := transaction];
    }

    /** recordPaymentReceiptEventsLocked */
    method RecordPaymentReceiptEvents(r: PaymentRequest, t: StablecoinTransaction, m: TransactionMatch, exceptionId: Id,
                                      now: Clock, ids: IngestIds, net: Net)
      requires HooksOk(WebhookTables())
      requires FreshPostings(WebhookTables(), SettlementEvents(r, t, m, exceptionId, now, ids), net)
      modifies `receiptEvents, `webhookDeliveries
      ensures receiptEvents == old(receiptEvents) + EventTable(SettlementEvents(r, t, m, exceptionId, now, ids))
      ensures WebhookTables() ==
              EnqueueAll(old(WebhookTables()), SettlementEvents(r, t, m, exceptionId, now, ids), now, net)
    {
      var events := SettlementEvents(r, t, m, exceptionId, now, ids);
      ghost var h := WebhookTables();
      SubscriptionsKeyed(h);
      assert |events| == 4;
      hide HooksOk, FreshPosting, FreshPostings, Enqueue, EnqueueAll, EventTable, SettlementEvents;
      FourFresh(h, events, now, net);
      CreateReceiptEvent(events[0], now, net);
      CreateReceiptEvent(events[1], now, net);
      CreateReceiptEvent(events[2], now, net);
      CreateReceiptEvent(events[3], now, net);
      WriteFour(old(receiptEvents), events);
    }

    /** The five writes that every settling case of the matching switch makes. */
    method WriteSettlement(r: PaymentRequest, t: StablecoinTransaction, status: MatchStatus, now: Clock,
                           ids: IngestIds, net: Net)
      returns (m: TransactionMatch, x: Option<PaymentException>)
      requires r.id in paymentRequests && paymentRequests[r.id] == r
      requires t.id in stablecoinTransactions && stablecoinTransactions[t.id] == t
      requires HooksOk(WebhookTables())
      requires FreshPostings(WebhookTables(), SettleChange(r, t, status, now, ids).emitted, net)
      modifies `paymentRequests, `stablecoinTransactions, `transactionMatches, `exceptions, `receiptEvents,
               `webhookDeliveries
      ensures var c := SettleChange(r, t, status, now, ids);
              && paymentRequests == old(paymentRequests) + c.delta.requests
              && stablecoinTransactions == old(stablecoinTransactions) + c.delta.transactions
              && transactionMatches == old(transactionMatches) + c.delta.matches
              && exceptions == old(exceptions) + c.delta.exceptions
              && receiptEvents == old(receiptEvents) + c.delta.events
              && WebhookTables() == EnqueueAll(old(WebhookTables()), c.emitted, now, net)
              && c.result.Success? && c.result.value.Ingested?
              && c.result.value.settlement == Some(m) && c.result.value.exception == x
    {
      hide HooksOk, FreshPostings, EnqueueAll, EventTable, SettlementEvents;
      m := CreateTransactionMatch(r, t, status, now, ids.settlement);
      x := None;
      if status != ExactMatch {
        var raised := CreateException(t.businessId, r.id, t.id, ExceptionOf(status), SeverityOf(status), now,
                                      ids.exception);
        x := Some(raised);
        MergeOne(old(exceptions), ids.exception, raised);
      } else {
        MergeEmpty(old(exceptions), map[]);
      }
      UpdatePaymentRequestStatus(r.id, StatusOf(status), now);
      UpdateTransactionStatus(t.id, MatchedToRequest);
      MergeOne(old(paymentRequests), r.id, r.(status := StatusOf(status), updatedAt := now));
      MergeOne(old(stablecoinTransactions), t.id, t.(status := MatchedToRequest));
      MergeOne(old(transactionMatches), m.id, m);
      RecordPaymentReceiptEvents(r, t, m, if x.Some? then ids.exception else "", now, ids, net);
    }

    /** A case that settles nothing: an exception on the transaction, which is orphaned if no request waited for it. */
    method RaiseFlag(t: StablecoinTransaction, kind: ExceptionType, severity: Severity, now: Clock, ids: IngestIds)
      returns (x: PaymentException)
      requires t.id in stablecoinTransactions && stablecoinTransactions[t.id] == t
      modifies `stablecoinTransactions, `exceptions
      ensures var c := UnsettledChange(t, Some(kind), severity, now, ids);
              && stablecoinTransactions == old(stablecoinTransactions) + c.delta.transactions
              && exceptions == old(exceptions) + c.delta.exceptions
              && c.result.Success? && c.result.value.Ingested?
              && c.result.value.settlement == None && c.result.value.exception == Some(x)
    {
      x := CreateException(t.businessId, "", t.id, kind, severity, now, ids.exception);
      MergeOne(old(exceptions), ids.exception, x);
      if kind == OrphanType {
        UpdateTransactionStatus(t.id, Orphaned);
        MergeOne(old(stablecoinTransactions), t.id, t.(status := Orphaned));
      } else {
        MergeOne(old(stablecoinTransactions), t.id, t);
      }
    }

    /** The switch of matchTransactionLocked. The dead branches of the source are the two `assert false`. */
    method ChooseVerdict(t: StablecoinTransaction, ghost l: Ledger) returns (v: Verdict)
      requires l.requests == paymentRequests && RequestsOk(l.wallets, l.requests) && Amounts.Valid(t.amount)
      ensures v == Decide(paymentRequests, t)
    {
      hide Decide, Candidates, ExactCandidates, Holds, Sorted, RequestsOk, Amounts.Valid;
      RequestsKeyed(l);
      var lists := CollectCandidates(t);
      var active, late, activeExact, lateExact := lists.active, lists.late, lists.activeExact, lists.lateExact;
      AllSorted(lists, l, t);
      ListsDecide(l, t, active, late, activeExact, lateExact);
      if |activeExact| == 1 {
        return Settle(activeExact[0].id, ExactMatch);
      } else if |activeExact| > 1 {
        return Ambiguous(High);
      } else if |active| == 1 {
        var compare := Compare(t.amount, active[0].amount);
        if compare.Failure? {
          assert false;
        } else if compare.value < 0 {
          return Settle(active[0].id, UnderpaidMatch);
        } else if compare.value > 0 {
          return Settle(active[0].id, OverpaidMatch);
        } else {
          assert false;
        }
      } else if |active| > 1 {
        return Ambiguous(High);
      } else if |lateExact| == 1 {
        return Settle(lateExact[0].id, ExpiredMatch);
      } else if |lateExact| > 1 || |late| > 1 {
        return Ambiguous(Medium);
      } else if |late| == 1 {
        return Settle(late[0].id, ExpiredMatch);
      } else {
        return Unclaimed;
      }
    }

    /** matchTransactionLocked */
    method MatchTransaction(t: StablecoinTransaction, now: Clock, ids: IngestIds, net: Net, ghost l: Ledger)
      returns (m: Option<TransactionMatch>, x: Option<PaymentException>)
      requires l.requests == paymentRequests && RequestsOk(l.wallets, l.requests)
      requires t.id in stablecoinTransactions && stablecoinTransactions[t.id] == t && Amounts.Valid(t.amount)
      requires t.status in {PendingFinality, ConfirmedOnchain}
      requires HooksOk(WebhookTables()) && FreshPostings(WebhookTables(), RecordChange(l, t, now, ids).emitted, net)
      modifies `paymentRequests, `stablecoinTransactions, `transactionMatches, `exceptions, `receiptEvents,
               `webhookDeliveries
      ensures var c := RecordChange(l, t, now, ids);
              && paymentRequests == old(paymentRequests) + c.delta.requests
              && stablecoinTransactions == old(stablecoinTransactions) + c.delta.transactions
              && transactionMatches == old(transactionMatches) + c.delta.matches
              && exceptions == old(exceptions) + c.delta.exceptions
              && receiptEvents == old(receiptEvents) + c.delta.events
              && WebhookTables() == EnqueueAll(old(WebhookTables()), c.emitted, now, net)
              && c.result.Success? && c.result.value.Ingested?
              && c.result.value.settlement == m && c.result.value.exception == x
    {
      hide HooksOk, FreshPostings, EnqueueAll, SettleChange, Decide, RequestsOk, Amounts.Valid;
      NothingWritten(l, t, now, ids, Tables());
      assert EnqueueAll(WebhookTables(), [], now, net) == WebhookTables() by { EnqueueNone(WebhookTables(), now, net); }
      m, x := None, None;
      if t.status != ConfirmedOnchain {
        return;
      }
      var verdict := ChooseVerdict(t, l);
      match verdict {
        case Settle(requestId, status) =>
          RequestsKeyed(l);
          RecordSettles(l, t, now, ids, requestId, status);
          var made, raised := WriteSettlement(paymentRequests[requestId], t, status, now, ids, net);
          m, x := Some(made), raised;
        case Ambiguous(severity) =>
          var raised := RaiseFlag(t, AmbiguousType, severity, now, ids);
          x := Some(raised);
        case Unclaimed =>
          var raised := RaiseFlag(t, OrphanType, Medium, now, ids);
          x := Some(raised);
      }
    }

    /**
     IngestStablecoinTransaction. `pick` is the wallet that the iteration met first, or any
     identifier when no wallet receives the payment.
     */
    method IngestStablecoinTransaction(businessId: Id, e: Evidence, now: Clock, ids: IngestIds, net: Net)
      returns (result: Result<Response>, ghost pick: Id)
      requires Valid() && CanIngest(View(), businessId, e, now, ids, net)
      modifies `paymentRequests, `stablecoinTransactions, `transactionBySignature, `transactionMatches, `exceptions,
               `receiptEvents, `webhookDeliveries
      ensures var op := Ingest(businessId, e, pick, now, ids);
              Admissible(old(Tables()), op) && CarriedOut(old(View()), op, net, View(), result)
    {
      hide CarriedOut, StoreOk, CanIngest, CanHappen, Admissible, Perform, Next, ValidEvidence, SignatureScope,
           RecordChange, SameEvidence, EnqueueAll, HooksOk, FreshPostings, RequestsOk, ScopeOf, Amounts.Valid,
           NewTransaction;
      ghost var before := View();
      pick := SomePick(wallets, businessId, e);
      if !ValidEvidence(e) {
        PickedCanHappen(before, businessId, e, now, ids, net, pick);
        CallDone(before, Ingest(businessId, e, pick, now, ids), net);
        IngestPerforms(before.ledger, Ingest(businessId, e, pick, now, ids));
        NothingHappens(before, Ingest(businessId, e, pick, now, ids), net);
        return Failure(InvalidArgument), pick;
      }
      var found := FindWalletForTransaction(businessId, e);
      pick := if found.Some? then found.value else pick;
      ghost var op := Ingest(businessId, e, pick, now, ids);
      PickedCanHappen(before, businessId, e, now, ids, net, pick);
      CallDone(before, op, net);
      IngestPerforms(before.ledger, op);
      NothingHappens(before, op, net);
      if found.None? {
        return Failure(NotFound), pick;
      }
      result := IngestReceived(businessId, e, found.value, now, ids, net, op);
    }

    /** The part of IngestStablecoinTransaction that follows once a wallet has been found. */
    method IngestReceived(businessId: Id, e: Evidence, walletId: Id, now: Clock, ids: IngestIds, net: Net,
                          ghost op: LedgerOp)
      returns (result: Result<Response>)
      requires Valid() && op == Ingest(businessId, e, walletId, now, ids) && CanHappen(View(), LedgerCall(op, net))
      requires ValidEvidence(e) && walletId in wallets && Receives(wallets[walletId], businessId, e)
      modifies `paymentRequests, `stablecoinTransactions, `transactionBySignature, `transactionMatches, `exceptions,
               `receiptEvents, `webhookDeliveries
      ensures CarriedOut(old(View()), op, net, View(), result)
    {
      hide CarriedOut, StoreOk, CanHappen, Perform, Next, ValidEvidence, SignatureScope, RecordChange, Receives,
           SameEvidence;
      ghost var before := View();
      CallDone(before, op, net);
      IngestPerforms(before.ledger, op);
      NothingHappens(before, op, net);
      var scope := SignatureScope(businessId, e.chain, e.signature);
      if scope in transactionBySignature {
        if transactionBySignature[scope] !in stablecoinTransactions {
          return Failure(Conflict);
        }
        var existing := stablecoinTransactions[transactionBySignature[scope]];
        if !SameEvidence(existing, e) {
          return Failure(Conflict);
        }
        return Success(Ingested(existing, None, None, true));
      }
      result := IngestUnseen(businessId, e, walletId, now, ids, net, op);
    }

    /** The part of IngestStablecoinTransaction that follows once the signature is known to be new. */
    method IngestUnseen(businessId: Id, e: Evidence, walletId: Id, now: Clock, ids: IngestIds, net: Net,
                        ghost op: LedgerOp)
      returns (result: Result<Response>)
      requires ValidEvidence(e) && walletId in wallets && Receives(wallets[walletId], businessId, e)
      requires SignatureScope(businessId, e.chain, e.signature) !in transactionBySignature
      requires op == Ingest(businessId, e, walletId, now, ids) && CanHappen(View(), LedgerCall(op, net)) && Valid()
      modifies `paymentRequests, `stablecoinTransactions, `transactionBySignature, `transactionMatches, `exceptions,
               `receiptEvents, `webhookDeliveries
      ensures CarriedOut(old(View()), op, net, View(), result)
    {
      hide CarriedOut, StoreOk, CanHappen, Perform, Next, ValidEvidence, SignatureScope, RecordChange, Receives,
           EnqueueAll, HooksOk, FreshPostings, RequestsOk, ScopeOf, Amounts.Valid, NewTransaction;
      ghost var before := View();
      CallDone(before, op, net);
      var transaction := NewTransaction(businessId, e, walletId, now, ids.transaction);
      IngestRecords(before, businessId, e, walletId, now, ids, net);
      RecordNext(before, op, net, transaction);
      result := StoreAndMatch(transaction, now, ids, net, before.ledger);
    }

    /** The accepting path: store the transaction, index its signature, match it. */
    method StoreAndMatch(t: StablecoinTransaction, now: Clock, ids: IngestIds, net: Net, ghost l: Ledger)
      returns (result: Result<Response>)
      requires l.requests == paymentRequests && RequestsOk(l.wallets, l.requests)
      requires Amounts.Valid(t.amount) && t.status in {PendingFinality, ConfirmedOnchain}
      requires HooksOk(WebhookTables()) && FreshPostings(WebhookTables(), RecordChange(l, t, now, ids).emitted, net)
      modifies `paymentRequests, `stablecoinTransactions, `transactionBySignature, `transactionMatches, `exceptions,
               `receiptEvents, `webhookDeliveries
      ensures var c := RecordChange(l, t, now, ids);
              && paymentRequests == old(paymentRequests) + c.delta.requests
              && stablecoinTransactions == old(stablecoinTransactions) + c.delta.transactions
              && transactionBySignature == old(transactionBySignature)[ScopeOf(t) := t.id]
              && transactionMatches == old(transactionMatches) + c.delta.matches
              && exceptions == old(exceptions) + c.delta.exceptions
              && receiptEvents == old(receiptEvents) + c.delta.events
              && WebhookTables() == EnqueueAll(old(WebhookTables()), c.emitted, now, net)
              && result == c.result
    {
      hide RecordChange, EnqueueAll, HooksOk, FreshPostings, RequestsOk, ScopeOf;
      RecordShape(l, t, now, ids);
      stablecoinTransactions := stablecoinTransactions[t.id := t];
      transactionBySignature := transactionBySignature[ScopeOf(t) := t.id];
      var settlement, exception := MatchTransaction(t, now, ids, net, l);
      OverwriteOne(old(stablecoinTransactions), t.id, t, RecordChange(l, t, now, ids).delta.transactions);
      var transaction := stablecoinTransactions[t.id];
      return Success(Ingested(transaction, settlement, exception, false));
    }

    // ---------- webhook subscriptions and replays ----------

    /** CreateWebhookSubscription, once the URL and the event types have been accepted. */
    method CreateWebhookSubscription(businessId: Id, url: string, secret: string, eventTypes: seq<EventType>,
                                     now: Clock, id: Id)
      returns (subscription: Subscription)
      requires id != "" && id !in webhookSubscriptions && Valid()
      modifies `webhookSubscriptions
      ensures Valid()
      ensures View() == Next(old(View()), Subscribe(subscription))
      ensures subscription.businessId == businessId && subscription.enabled && subscription.secret == secret
      ensures forall kind :: kind in subscription.eventTypes <==> eventTypes == [] || kind in eventTypes
      ensures NoRepeats(subscription.eventTypes)
    {
      ghost var before := View();
      var kinds := NormalEventTypes(eventTypes);
      subscription := Subscription(id, businessId, url, secret, kinds, true, now, now);
      hide StoreOk, Next;
      Subscribed(before, subscription);
      webhookSubscriptions := webhookSubscriptions[subscription.id := subscription];
    }

    /** ReplayWebhookDelivery */
    method ReplayWebhookDelivery(businessId: Id, deliveryId: Id, outcome: Outcome, now: Clock)
      returns (result: Result<Delivery>)
      requires Valid()
      modifies `webhookDeliveries
      ensures Valid()
      ensures View() == Next(old(View()), ReplayDelivery(businessId, deliveryId, outcome, now))
      ensures if deliveryId in old(webhookDeliveries) && old(webhookDeliveries)[deliveryId].businessId == businessId
              then deliveryId in webhookDeliveries && result == Success(webhookDeliveries[deliveryId])
              else result == Failure(NotFound)
    {
      hide StoreOk, Attempt, Next, CanHappen;
      PossibleReplay(View(), ReplayDelivery(businessId, deliveryId, outcome, now));
      NextKeepsOk(View(), ReplayDelivery(businessId, deliveryId, outcome, now));
      ReplayNext(View(), businessId, deliveryId, outcome, now);
      if deliveryId in webhookDeliveries { DeliveryIsKeyed(View(), deliveryId); }
      if deliveryId !in webhookDeliveries || webhookDeliveries[deliveryId].businessId != businessId {
        return Failure(NotFound);
      }
      var delivery := webhookDeliveries[deliveryId];
      delivery := delivery.(status := PendingDelivery, lastError := "", nextAttemptAt := None, updatedAt := now);
      webhookDeliveries := webhookDeliveries[delivery.id := delivery];
      AttemptWebhookDelivery(delivery.id, outcome, now);
      assert webhookDeliveries == old(webhookDeliveries)[deliveryId := webhookDeliveries[deliveryId]];
      assert View() == Next(old(View()), ReplayDelivery(businessId, deliveryId, outcome, now));
      return Success(webhookDeliveries[deliveryId]);
    }

    // ---------- reconciliation: what a run covers ----------

    /** transactionsForRunLocked */
    method TransactionsForRun(p: Scope) returns (ids: seq<Id>)
      ensures Lists(ids, RunTransactions(Tables(), p))
    {
      hide Lists;
      ids := [];
      var todo := stablecoinTransactions.Keys;
      NoneCovered(RunTransactions(Tables(), p), todo);
      while todo != {}
        invariant todo <= stablecoinTransactions.Keys
        invariant Lists(ids, RunTransactions(Tables(), p) - todo)
        decreases |todo|
      {
        var id :| id in todo;
        NextCovered(RunTransactions(Tables(), p), todo, id, ids);
        todo := todo - {id};
        var transaction := stablecoinTransactions[id];
        if transaction.businessId != p.businessId || !Includes(p, transaction.walletId) {
          continue;
        }
        if InPeriod(p, transaction.detectedAt) || InPeriod(p, transaction.createdAt) {
          ids := ids + [id];
        }
      }
    }

    /** paymentRequestsForRunLocked */
    method PaymentRequestsForRun(p: Scope) returns (ids: seq<Id>)
      ensures Lists(ids, RunRequests(Tables(), p))
    {
      hide Lists;
      ids := [];
      var todo := paymentRequests.Keys;
      NoneCovered(RunRequests(Tables(), p), todo);
      while todo != {}
        invariant todo <= paymentRequests.Keys
        invariant Lists(ids, RunRequests(Tables(), p) - todo)
        decreases |todo|
      {
        var id :| id in todo;
        NextCovered(RunRequests(Tables(), p), todo, id, ids);
        todo := todo - {id};
        var request := paymentRequests[id];
        if request.businessId != p.businessId || !Includes(p, request.walletId) {
          continue;
        }
        if InPeriod(p, request.createdAt) || InPeriod(p, request.updatedAt) {
          ids := ids + [id];
        }
      }
    }

    /** matchesForRunLocked */
    method MatchesForRun(p: Scope) returns (ids: seq<Id>)
      ensures Lists(ids, RunMatches(Tables(), p))
    {
      hide Lists;
      ids := [];
      var todo := transactionMatches.Keys;
      NoneCovered(RunMatches(Tables(), p), todo);
      while todo != {}
        invariant todo <= transactionMatches.Keys
        invariant Lists(ids, RunMatches(Tables(), p) - todo)
        decreases |todo|
      {
        var id :| id in todo;
        NextCovered(RunMatches(Tables(), p), todo, id, ids);
        todo := todo - {id};
        var m := transactionMatches[id];
        if m.businessId != p.businessId || !InPeriod(p, m.createdAt) {
          continue;
        }
        if m.transactionId !in stablecoinTransactions
           || !Includes(p, stablecoinTransactions[m.transactionId].walletId) {
          continue;
        }
        ids := ids + [id];
      }
    }

    /** exceptionMatchesRunWalletLocked */
    method ExceptionMatchesRunWallet(p: Scope, x: PaymentException) returns (matches: bool)
      ensures matches == ExceptionInWallet(p, paymentRequests, stablecoinTransactions, x)
    {
      if p.walletId == "" {
        return true;
      }
      if x.requestId != "" {
        if x.requestId in paymentRequests && paymentRequests[x.requestId].walletId == p.walletId {
          return true;
        }
      }
      if x.transactionId != "" {
        if x.transactionId in stablecoinTransactions && stablecoinTransactions[x.transactionId].walletId == p.walletId {
          return true;
        }
      }
      return false;
    }

    /** exceptionsForRunLocked */
    method ExceptionsForRun(p: Scope) returns (ids: seq<Id>)
      ensures Lists(ids, RunExceptions(Tables(), p))
    {
      hide Lists;
      ids := [];
      var todo := exceptions.Keys;
      NoneCovered(RunExceptions(Tables(), p), todo);
      while todo != {}
        invariant todo <= exceptions.Keys
        invariant Lists(ids, RunExceptions(Tables(), p) - todo)
        decreases |todo|
      {
        var id :| id in todo;
        NextCovered(RunExceptions(Tables(), p), todo, id, ids);
        todo := todo - {id};
        var exception := exceptions[id];
        if exception.businessId != p.businessId {
          continue;
        }
        var inPeriod := InPeriod(p, exception.createdAt);
        if exception.resolvedAt.Some? {
          inPeriod := inPeriod || InPeriod(p, exception.resolvedAt.value);
        }
        var inWallet := ExceptionMatchesRunWallet(p, exception);
        if !inPeriod || !inWallet {
          continue;
        }
        ids := ids + [id];
      }
    }

    /** The wallets of walletSnapshotsForRunLocked, sorted by address. */
    method WalletsForRun(p: Scope) returns (found: seq<Wallet>)
      requires WalletsOk(wallets)
      ensures SortedListing(found, Kept(wallets, WalletInRun(p)), WalletLess)
    {
      hide Lists, WalletsOk, SortedListing, WalletLess, StrictOrder, TotalOn;
      var list := [];
      var todo := wallets.Keys;
      KeptEnds(wallets, WalletInRun(p));
      WalletsDiffer(wallets);
      while todo != {}
        invariant todo <= wallets.Keys
        invariant Lists(list, Kept(wallets - todo, WalletInRun(p)))
        decreases |todo|
      {
        var id :| id in todo;
        KeptNext(wallets, todo, id, list, WalletInRun(p));
        todo := todo - {id};
        var wallet := wallets[id];
        if wallet.businessId == p.businessId && wallet.archivedAt.None? && Includes(p, wallet.id) {
          list := list + [wallet];
        }
      }
      WalletsListed(wallets, p, list);
      found := Sort(list, WalletLess);
    }

    /** findExceptionForReconciliationLocked: the first exception that passes the filter. */
    method FindExceptionForReconciliation(requestId: Id, transactionId: Id) returns (found: Option<PaymentException>)
      ensures Found(exceptions, requestId, transactionId, found)
    {
      var todo := exceptions.Keys;
      while todo != {}
        invariant todo <= exceptions.Keys
        invariant forall x :: x in exceptions && x !in todo ==> !Concerns(exceptions[x], requestId, transactionId)
        decreases |todo|
      {
        var id :| id in todo;
        todo := todo - {id};
        var exception := exceptions[id];
        if requestId != "" && exception.requestId != requestId {
          continue;
        }
        if transactionId != "" && exception.transactionId != transactionId {
          continue;
        }
        if requestId == "" && transactionId == "" {
          continue;
        }
        return Some(exception);
      }
      return None;
    }

    // ---------- reconciliation: rows ----------

    /** settlementRowLocked: the fields are filled in from whichever records are at hand. */
    method FillRow(id: Id, businessId: Id, runId: Id, r: Option<PaymentRequest>, t: Option<StablecoinTransaction>,
                         m: Option<TransactionMatch>, x: Option<PaymentException>, status: RowStatus, createdAt: Time,
                         now: Clock)
      returns (row: SettlementRow)
      ensures row == MakeRow(id, businessId, runId, r, t, m, x, status,
                             if createdAt == ZERO_TIME then now else createdAt)
    {
      row := SettlementRow(id, businessId, runId, "", "", "", "", None, NO_AMOUNT, NO_AMOUNT, "", "", "", "",
                           "", "", None, "", None, "", None, None, status, createdAt);
      if r.Some? {
        var request := r.value;
        row := row.(requestId := request.id, customerId := request.customerId, invoiceId := request.invoiceId,
                    orderId := request.orderId, paymentStatus := Some(request.status), expectedAmount := request.amount,
                    token := request.token, chain := request.chain, walletId := request.walletId,
                    walletAddress := request.destinationAddress);
      }
      if t.Some? {
        var transaction := t.value;
        row := row.(transactionId := transaction.id, signature := transaction.signature,
                    transactionStatus := Some(transaction.status), receivedAmount := transaction.amount);
        if row.token == "" {
          row := row.(token := transaction.token);
        }
        if row.chain == "" {
          row := row.(chain := transaction.chain);
        }
        if row.walletId == "" {
          row := row.(walletId := transaction.walletId);
        }
        if row.walletAddress == "" {
          row := row.(walletAddress := transaction.destinationOwner);
        }
      }
      if m.Some? {
        row := row.(matchId := m.value.id, matchStatus := Some(m.value.status),
                    expectedAmount := m.value.expectedAmount, receivedAmount := m.value.receivedAmount);
      }
      if x.Some? {
        row := row.(exceptionId := x.value.id, exceptionKind := Some(x.value.kind),
                    exceptionStatus := Some(x.value.status));
      }
      if row.createdAt == ZERO_TIME {
        row := row.(createdAt := now);
      }
    }

    /** One round of the row loop over matches. */
    method BuildMatchRow(p: Scope, runId: Id, id: Id, m: Id, now: Clock) returns (row: SettlementRow)
      requires ExceptionsUnique(exceptions) && Timed(Tables()) && m in RowMatches(Tables(), p)
      ensures row == RowOf(Tables(), p, runId, OfMatch(m), id)
    {
      hide ExceptionsUnique, MakeRow, Found, FindException;
      var found := transactionMatches[m];
      var request, transaction := paymentRequests[found.requestId], stablecoinTransactions[found.transactionId];
      var exception := FindExceptionForReconciliation(request.id, transaction.id);
      FoundIsUnique(exceptions, request.id, transaction.id, exception,
                    FindException(exceptions, request.id, transaction.id));
      var status := Reconciled;
      if found.status != ExactMatch || exception.Some? {
        status := ExceptionRow;
      }
      row := FillRow(id, p.businessId, runId, Some(request), Some(transaction), Some(found), exception, status,
                     found.createdAt, now);
    }

    /** One round of the row loop over transactions. */
    method BuildTransactionRow(p: Scope, runId: Id, id: Id, t: Id, now: Clock) returns (row: SettlementRow)
      requires ExceptionsUnique(exceptions) && Timed(Tables()) && HasRow(Tables(), p, OfTransaction(t))
      ensures row == RowOf(Tables(), p, runId, OfTransaction(t), id)
    {
      hide ExceptionsUnique, MakeRow, Found, FindException;
      var transaction := stablecoinTransactions[t];
      var exception := FindExceptionForReconciliation("", transaction.id);
      FoundIsUnique(exceptions, "", transaction.id, exception, FindException(exceptions, "", transaction.id));
      row := FillRow(id, p.businessId, runId, None, Some(transaction), None, exception, Unmatched,
                     transaction.createdAt, now);
    }

    /** One round of the row loop over requests. */
    method BuildRequestRow(p: Scope, runId: Id, id: Id, r: Id, now: Clock) returns (row: SettlementRow)
      requires ExceptionsUnique(exceptions) && Timed(Tables()) && HasRow(Tables(), p, OfRequest(r))
      ensures row == RowOf(Tables(), p, runId, OfRequest(r), id)
    {
      hide ExceptionsUnique, MakeRow, Found, FindException;
      var request := paymentRequests[r];
      var exception := FindExceptionForReconciliation(request.id, "");
      FoundIsUnique(exceptions, request.id, "", exception, FindException(exceptions, request.id, ""));
      var status := Pending;
      if exception.Some? {
        status := ExceptionRow;
      }
      row := FillRow(id, p.businessId, runId, Some(request), None, None, exception, status, request.updatedAt, now);
    }

    /** The row loop over matches. */
    method BuildMatchRows(p: Scope, runId: Id, rowIds: RowKey -> Id, matches: seq<Id>, now: Clock)
      returns (rows: seq<SettlementRow>, ghost keys: seq<RowKey>, matchedTransactions: set<Id>,
               matchedRequests: set<Id>)
      requires ExceptionsUnique(exceptions) && Timed(Tables()) && Lists(matches, RunMatches(Tables(), p))
      ensures RowsOf(rows, keys, Tables(), p, runId, rowIds) && Lists(keys, MatchKeys(Tables(), p))
      ensures matchedTransactions == MatchedTransactions(Tables(), p) && matchedRequests == MatchedRequests(Tables(), p)
    {
      ghost var l := Tables();
      NoKeys(l, p, matches, MatchKey, rowIds, runId);
      TiedEnds(l, p, matches);
      KeysAre(l, p);
      ListsAll(matches);
      forall i | 0 <= i < |matches| ensures matches[i] in RunMatches(l, p) { assert matches[i] in Elements(matches); }
      hide Lists, RowOf, RowsOf, KeysIn, RunMatches, RowMatches, TiedTransactions, TiedRequests, ExceptionsUnique,
           Timed, NoRepeats, MatchKeys, MatchedTransactions, MatchedRequests;
      rows, keys, matchedTransactions, matchedRequests := [], [], {}, {};
      ListsHasNoRepeats(matches, RunMatches(l, p));
      for i := 0 to |matches|
        invariant RowsOf(rows, keys, l, p, runId, rowIds) && Lists(keys, KeysIn(l, p, Elements(matches[..i]), MatchKey))
        invariant matchedTransactions == TiedTransactions(l, p, Elements(matches[..i]))
        invariant matchedRequests == TiedRequests(l, p, Elements(matches[..i]))
      {
        KeysNext(l, p, matches, i, MatchKey, keys);
        TiedNext(l, p, matches, i);
        MatchHasRow(l, p, matches[i]);
        var m := transactionMatches[matches[i]];
        if m.requestId !in paymentRequests || m.transactionId !in stablecoinTransactions
           || !Includes(p, stablecoinTransactions[m.transactionId].walletId) {
          continue;
        }
        var row := BuildMatchRow(p, runId, rowIds(OfMatch(matches[i])), matches[i], now);
        RowsNext(rows, keys, l, p, runId, rowIds, OfMatch(matches[i]));
        rows, keys := rows + [row], keys + [OfMatch(matches[i])];
        matchedTransactions := matchedTransactions + {m.transactionId};
        matchedRequests := matchedRequests + {m.requestId};
      }
    }

    /** The row loop over transactions. */
    method BuildTransactionRows(p: Scope, runId: Id, rowIds: RowKey -> Id, transactions: seq<Id>, matched: set<Id>,
                                now: Clock)
      returns (rows: seq<SettlementRow>, ghost keys: seq<RowKey>)
      requires ExceptionsUnique(exceptions) && Timed(Tables()) && Lists(transactions, RunTransactions(Tables(), p))
      requires matched == MatchedTransactions(Tables(), p)
      ensures RowsOf(rows, keys, Tables(), p, runId, rowIds) && Lists(keys, TransactionKeys(Tables(), p))
    {
      hide *;
      ghost var l := Tables();
      KeysDiffer();
      RowsStart(l, p, runId, rowIds, transactions, TransactionKey);
      rows, keys := [], [];
      for i := 0 to |transactions|
        invariant RowsUpTo(rows, keys, l, p, runId, rowIds, transactions, i, TransactionKey)
      {
        RowsStep(rows, keys, l, p, runId, rowIds, transactions, RunTransactions(l, p), i, TransactionKey);
        TransactionHasRow(l, p, transactions[i]);
        if transactions[i] in matched {
          continue;
        }
        var row := BuildTransactionRow(p, runId, rowIds(OfTransaction(transactions[i])), transactions[i], now);
        rows, keys := rows + [row], keys + [OfTransaction(transactions[i])];
      }
      RowsEnd(rows, keys, l, p, runId, rowIds, transactions, RunTransactions(l, p), TransactionKey);
      KeysAre(l, p);
    }

    /** The row loop over requests. */
    method BuildRequestRows(p: Scope, runId: Id, rowIds: RowKey -> Id, requests: seq<Id>, matched: set<Id>, now: Clock)
      returns (rows: seq<SettlementRow>, ghost keys: seq<RowKey>)
      requires ExceptionsUnique(exceptions) && Timed(Tables()) && Lists(requests, RunRequests(Tables(), p))
      requires matched == MatchedRequests(Tables(), p)
      ensures RowsOf(rows, keys, Tables(), p, runId, rowIds) && Lists(keys, RequestKeys(Tables(), p))
    {
      hide *;
      ghost var l := Tables();
      KeysDiffer();
      RowsStart(l, p, runId, rowIds, requests, RequestKey);
      rows, keys := [], [];
      for i := 0 to |requests|
        invariant RowsUpTo(rows, keys, l, p, runId, rowIds, requests, i, RequestKey)
      {
        RowsStep(rows, keys, l, p, runId, rowIds, requests, RunRequests(l, p), i, RequestKey);
        RequestHasRow(l, p, requests[i]);
        if requests[i] in matched {
          continue;
        }
        var row := BuildRequestRow(p, runId, rowIds(OfRequest(requests[i])), requests[i], now);
        rows, keys := rows + [row], keys + [OfRequest(requests[i])];
      }
      RowsEnd(rows, keys, l, p, runId, rowIds, requests, RunRequests(l, p), RequestKey);
      KeysAre(l, p);
    }

    /** The rows of buildReconciliationReportLocked: three loops, then one sort. */
    method BuildRows(p: Scope, runId: Id, rowIds: RowKey -> Id, transactions: seq<Id>, requests: seq<Id>,
                     matches: seq<Id>, now: Clock)
      returns (rows: seq<SettlementRow>, matched: set<Id>)
      requires ExceptionsUnique(exceptions) && Timed(Tables()) && Lists(transactions, RunTransactions(Tables(), p))
      requires Lists(requests, RunRequests(Tables(), p)) && Lists(matches, RunMatches(Tables(), p))
      requires DifferentIds(Tables(), p, rowIds)
      ensures SortedListing(rows, BuiltRows(Tables(), p, runId, rowIds), RowLess)
      ensures matched == MatchedTransactions(Tables(), p)
    {
      hide Lists, RowsOf, RowKeys, MatchKeys, TransactionKeys, RequestKeys, RunTransactions, RunRequests, RunMatches,
           BuiltRows, MatchedTransactions, MatchedRequests, ExceptionsUnique, Timed, RowLess, SortedListing,
           StrictOrder, TotalOn;
      ghost var l := Tables();
      var ofMatches, matchKeys, matchedTransactions, matchedRequests := BuildMatchRows(p, runId, rowIds, matches, now);
      var ofTransactions, transactionKeys := BuildTransactionRows(p, runId, rowIds, transactions, matchedTransactions,
                                                                  now);
      var ofRequests, requestKeys := BuildRequestRows(p, runId, rowIds, requests, matchedRequests, now);
      JoinRows(ofMatches, matchKeys, ofTransactions, transactionKeys, ofRequests, requestKeys, l, p, runId, rowIds);
      var all := ofMatches + ofTransactions + ofRequests;
      RowsComplete(all, matchKeys + transactionKeys + requestKeys, l, p, runId, rowIds);
      rows := Sort(all, RowLess);
      matched := matchedTransactions;
    }

    // ---------- reconciliation: totals ----------

    /** The sum of the amounts of some transactions; text that cannot be read adds nothing. */
    method AddAmounts(transactions: seq<Id>, ghost all: set<Id>) returns (total: real)
      requires Lists(transactions, all) && all <= stablecoinTransactions.Keys
      ensures total == Sum(all, TransactionValue(stablecoinTransactions))
    {
      total := 0.0;
      ListsAll(transactions);
      forall i | 0 <= i < |transactions|
        ensures transactions[i] in stablecoinTransactions
      {
        assert transactions[i] in Elements(transactions);
      }
      hide Sum;
      SumNone(TransactionValue(stablecoinTransactions));
      assert Elements(transactions[..0]) == {};
      for i := 0 to |transactions|
        invariant total == Sum(Elements(transactions[..i]), TransactionValue(stablecoinTransactions))
      {
        AddNext(transactions, i, TransactionValue(stablecoinTransactions));
        var amount := stablecoinTransactions[transactions[i]].amount;
        if amount.reading.Some? {
          total := total + amount.reading.value;
        }
      }
    }

    method CountConfirmed(requests: seq<Id>, ghost p: Scope) returns (count: nat)
      requires Lists(requests, RunRequests(Tables(), p))
      ensures count == |set r | r in RunRequests(Tables(), p) && paymentRequests[r].status == Confirmed|
    {
      ghost var pass := ConfirmedIn(paymentRequests);
      PassingAll(requests, pass);
      assert (set r | r in RunRequests(Tables(), p) && pass(r)) ==
             set r | r in RunRequests(Tables(), p) && paymentRequests[r].status == Confirmed;
      forall i | 0 <= i < |requests|
        ensures requests[i] in paymentRequests
      {
        assert requests[i] in Elements(requests);
      }
      hide Passing, RunRequests;
      count := 0;
      for i := 0 to |requests|
        invariant count == |Passing(requests, i, pass)|
      {
        CountNext(requests, i, pass);
        if paymentRequests[requests[i]].status == Confirmed {
          count := count + 1;
        }
      }
    }

    method CountOpen(xs: seq<Id>, ghost p: Scope) returns (count: nat)
      requires Lists(xs, RunExceptions(Tables(), p))
      ensures count == |set x | x in RunExceptions(Tables(), p) && exceptions[x].status == Open|
    {
      ghost var pass := OpenIn(exceptions);
      PassingAll(xs, pass);
      assert (set x | x in RunExceptions(Tables(), p) && pass(x)) ==
             set x | x in RunExceptions(Tables(), p) && exceptions[x].status == Open;
      forall i | 0 <= i < |xs| ensures xs[i] in exceptions { assert xs[i] in Elements(xs); }
      hide Passing, RunExceptions;
      count := 0;
      for i := 0 to |xs|
        invariant count == |Passing(xs, i, pass)|
      {
        CountNext(xs, i, pass);
        if exceptions[xs[i]].status == Open {
          count := count + 1;
        }
      }
    }

    /** The totals of buildReconciliationReportLocked. */
    method ComputeTotals(p: Scope, transactions: seq<Id>, requests: seq<Id>, matches: seq<Id>, found: seq<Id>,
                         matched: set<Id>)
      returns (totals: RunTotals)
      requires Lists(transactions, RunTransactions(Tables(), p)) && Lists(requests, RunRequests(Tables(), p))
      requires Lists(matches, RunMatches(Tables(), p)) && Lists(found, RunExceptions(Tables(), p))
      requires matched == MatchedTransactions(Tables(), p)
      ensures totals == Totals(Tables(), p)
    {
      ListsCount(transactions);
      ListsCount(requests);
      ListsCount(matches);
      ListsCount(found);
      hide Lists, RunRequests, RunMatches, RunExceptions, MatchedTransactions, NoRepeats, Print, Sum;
      var confirmed := CountConfirmed(requests, p);
      var open := CountOpen(found, p);
      var total := AddAmounts(transactions, RunTransactions(Tables(), p));
      totals := RunTotals(|requests|, confirmed, |transactions|, |matched|, |transactions| - |matched|,
                          |matches|, |found|, open, Print(total));
    }

    // ---------- reconciliation: wallet snapshots ----------

    /** The inner loop of walletSnapshotsForRunLocked. */
    method WalletInflow(p: Scope, walletId: Id, transactions: seq<Id>) returns (total: real, count: nat)
      requires Lists(transactions, RunTransactions(Tables(), p))
      ensures total == WalletReceived(Tables(), p)(walletId) && count == |WalletTransactions(Tables(), p, walletId)|
    {
      ghost var ts := stablecoinTransactions;
      ghost var inflow := InflowOf(ts, walletId);
      total, count := 0.0, 0;
      InflowEnds(Tables(), p, walletId, transactions);
      hide *;
      for i := 0 to |transactions|
        invariant total == Sum(Passing(transactions, i, inflow), TransactionValue(ts))
        invariant count == |Passing(transactions, i, inflow)|
      {
        InflowNext(ts, walletId, transactions, i);
        var transaction := stablecoinTransactions[transactions[i]];
        if transaction.walletId != walletId {
          continue;
        }
        if transaction.amount.reading.Some? {
          total := total + transaction.amount.reading.value;
        }
        count := count + 1;
      }
    }

    /** walletSnapshotsForRunLocked */
    method WalletSnapshotsForRun(p: Scope, runId: Id, snapshotIds: Id -> Id, transactions: seq<Id>, now: Clock)
      returns (snapshots: seq<Snapshot>)
      requires WalletsOk(wallets) && Lists(transactions, RunTransactions(Tables(), p))
      ensures SortedListing(snapshots, BuiltSnapshots(Tables(), p, runId, snapshotIds, now), SnapshotLess)
    {
      hide Lists, WalletsOk, RunTransactions, SortedListing, BuiltSnapshots, WalletReceived, WalletTransactions, Print,
           WalletLess, SnapshotsOf;
      ghost var l := Tables();
      var found := WalletsForRun(p);
      WalletsSorted(wallets, p, found);
      snapshots := [];
      NoSnapshots(found, l, p, runId, snapshotIds, now);
      for i := 0 to |found|
        invariant SnapshotsOf(snapshots, found[..i], l, p, runId, snapshotIds, now)
      {
        var wallet := found[i];
        var total, count := WalletInflow(p, wallet.id, transactions);
        var snapshot := Snapshot(snapshotIds(wallet.id), p.businessId, runId, wallet.id, wallet.address, wallet.chain,
                                 Print(total), count, now);
        SnapshotsNext(snapshots, found, i, l, p, runId, snapshotIds, now);
        snapshots := snapshots + [snapshot];
      }
      assert found[..|found|] == found;
      SnapshotsComplete(snapshots, found, l, p, runId, snapshotIds, now);
    }

    // ---------- reconciliation: runs ----------

    /** The exceptions that a report shows are looked up when it is read. */
    method ExceptionRecords(p: Scope, ids: seq<Id>) returns (list: seq<PaymentException>)
      requires Inv(Tables()) && Lists(ids, RunExceptions(Tables(), p))
      ensures Lists(list, ShownExceptions(Tables(), p))
    {
      hide Inv, ShownExceptions, CoversException;
      forall i | 0 <= i < |ids| ensures ids[i] in exceptions { assert ids[i] in Elements(ids); }
      hide Lists, RunExceptions;
      list := [];
      for i := 0 to |ids|
        invariant |list| == i && forall j :: 0 <= j < i ==> list[j] == exceptions[ids[j]]
      {
        list := list + [exceptions[ids[i]]];
      }
      RecordsListed(Tables(), p, ids, list);
    }

    /** The three table writes at the end of CreateReconciliationRun. */
    method StoreRun(run: RunRecord, snapshots: seq<Snapshot>, rows: seq<SettlementRow>)
      requires forall i :: 0 <= i < |snapshots| ==> snapshots[i].id !in walletSnapshots
      requires forall i, j :: 0 <= i < j < |snapshots| ==> snapshots[i].id != snapshots[j].id
      requires forall i :: 0 <= i < |rows| ==> rows[i].id !in settlementRows
      requires forall i, j :: 0 <= i < j < |rows| ==> rows[i].id != rows[j].id
      modifies `reconciliationRuns, `walletSnapshots, `settlementRows
      ensures reconciliationRuns == old(reconciliationRuns)[run.id := run]
      ensures SnapshotsWritten(old(walletSnapshots), snapshots, |snapshots|, walletSnapshots)
      ensures RowsWritten(old(settlementRows), rows, |rows|, settlementRows)
    {
      ghost var oldSnapshots, oldRows := walletSnapshots, settlementRows;
      reconciliationRuns := reconciliationRuns[run.id := run];
      for i := 0 to |snapshots|
        invariant settlementRows == oldRows && reconciliationRuns == old(reconciliationRuns)[run.id := run]
        invariant SnapshotsWritten(oldSnapshots, snapshots, i, walletSnapshots)
      {
        SnapshotsWrittenNext(oldSnapshots, snapshots, i, walletSnapshots);
        hide SnapshotsWritten;
        walletSnapshots := walletSnapshots[snapshots[i].id := snapshots[i]];
      }
      for i := 0 to |rows|
        invariant SnapshotsWritten(oldSnapshots, snapshots, |snapshots|, walletSnapshots)
        invariant reconciliationRuns == old(reconciliationRuns)[run.id := run]
        invariant RowsWritten(oldRows, rows, i, settlementRows)
      {
        RowsWrittenNext(oldRows, rows, i, settlementRows);
        hide RowsWritten, SnapshotsWritten;
        settlementRows := settlementRows[rows[i].id := rows[i]];
      }
    }

    /** buildReconciliationReportLocked */
    method BuildReconciliationReport(p: Scope, now: Clock, runId: Id, rowIds: RowKey -> Id, snapshotIds: Id -> Id)
      returns (report: Report)
      requires Inv(Tables())
      requires DifferentIds(Tables(), p, rowIds)
      ensures ShowsRun(report, Tables(), p, now, runId, rowIds, snapshotIds) && report.run.id == runId
    {
      ForReports(Tables());
      hide Inv, Lists, SortedListing, RowKeys, BuiltRows, BuiltSnapshots, RunTransactions, RunRequests, RunMatches,
           RunExceptions, MatchedTransactions, Totals, ShownExceptions, RowLess, SnapshotLess, WalletsOk,
           ExceptionsUnique, Timed;
      var transactions := TransactionsForRun(p);
      var requests := PaymentRequestsForRun(p);
      var matches := MatchesForRun(p);
      var found := ExceptionsForRun(p);
      var rows, matched := BuildRows(p, runId, rowIds, transactions, requests, matches, now);
      var snapshots := WalletSnapshotsForRun(p, runId, snapshotIds, transactions, now);
      var totals := ComputeTotals(p, transactions, requests, matches, found, matched);
      var shown := ExceptionRecords(p, found);
      report := Report(RunRecord(runId, p, totals, now), snapshots, rows, shown);
    }

    /** The accepting path of CreateReconciliationRun. */
    method BuildAndStore(p: Scope, now: Clock, runId: Id, rowIds: RowKey -> Id, snapshotIds: Id -> Id)
      returns (report: Report)
      requires Inv(Tables()) && FreshRows(View(), p, runId, rowIds, snapshotIds)
      modifies `reconciliationRuns, `walletSnapshots, `settlementRows
      ensures ReportTables() == WithRun(old(View()), p, now, runId, rowIds, snapshotIds)
      ensures ShowsRun(report, Tables(), p, now, runId, rowIds, snapshotIds)
    {
      ghost var before := View();
      ghost var op := Reconcile(p, now, runId, rowIds, snapshotIds);
      DifferentRows(before, op);
      hide Inv, FreshRows, WithRun, RowKeys, ShowsRun, SnapshotsWritten, RowsWritten;
      report := BuildReconciliationReport(p, now, runId, rowIds, snapshotIds);
      ReportIsFresh(before, op, report);
      StoreRun(report.run, report.snapshots, report.rows);
      RunWritten(before, op, report, ReportTables());
    }

    /** `readAt` is the clock that closes an open period, `now` the one that stamps the run. */
    method CreateReconciliationRun(businessId: Id, walletId: Id, start: Time, end: Time, readAt: Clock, now: Clock,
                                   runId: Id, rowIds: RowKey -> Id, snapshotIds: Id -> Id)
      returns (result: Result<Report>)
      requires Valid()
      requires FreshRows(View(), NormalScope(businessId, walletId, start, end, readAt), runId, rowIds, snapshotIds)
      modifies `reconciliationRuns, `walletSnapshots, `settlementRows
      ensures Valid()
      ensures var op := Reconcile(NormalScope(businessId, walletId, start, end, readAt), now, runId, rowIds,
                                  snapshotIds);
              View() == Next(old(View()), op) && Answers(result, old(Tables()), op)
    {
      hide StoreOk, Inv, FreshRows, Next, WithRun, ShowsRun, CanReconcile;
      ghost var before := View();
      var p := NormalScope(businessId, walletId, start, end, readAt);
      ghost var op := Reconcile(p, now, runId, rowIds, snapshotIds);
      ReconcileFacts(before, op);
      Answering(before.ledger, op);
      if p.start == ZERO_TIME || p.end == ZERO_TIME {
        return Failure(InvalidArgument);
      }
      if p.end <= p.start {
        return Failure(InvalidArgument);
      }
      if p.walletId != "" {
        if p.walletId !in wallets || wallets[p.walletId].businessId != businessId
           || wallets[p.walletId].archivedAt.Some? {
          return Failure(NotFound);
        }
      }
      var report := BuildAndStore(p, now, runId, rowIds, snapshotIds);
      return Success(report);
    }

    /**
     GetReconciliationReport: the stored run, its stored rows and snapshots sorted again, its
     exceptions as they are now.
     */
    method GetReconciliationReport(businessId: Id, runId: Id) returns (result: Result<Report>)
      requires Valid()
      ensures if runId in reconciliationRuns && reconciliationRuns[runId].scope.businessId == businessId then
                && result.Success? && result.value.run == reconciliationRuns[runId]
                && SortedListing(result.value.rows, StoredRows(settlementRows, businessId, runId), RowLess)
                && SortedListing(result.value.snapshots, StoredSnapshots(walletSnapshots, businessId, runId),
                                 SnapshotLess)
                && Lists(result.value.exceptions, ShownExceptions(Tables(), reconciliationRuns[runId].scope))
              else result == Failure(NotFound)
    {
      if runId !in reconciliationRuns || reconciliationRuns[runId].scope.businessId != businessId {
        return Failure(NotFound);
      }
      var run := reconciliationRuns[runId];
      assert run.id == runId && Inv(Tables());
      hide StoreOk, Inv, Lists, SortedListing, StoredRows, StoredSnapshots, ShownExceptions, RowLess, SnapshotLess;
      var snapshots := CollectSnapshots(run);
      var rows := CollectRows(run);
      var found := ExceptionsForRun(run.scope);
      var shown := ExceptionRecords(run.scope, found);
      return Success(Report(run, snapshots, rows, shown));
    }

    method CollectSnapshots(run: RunRecord) returns (snapshots: seq<Snapshot>)
      requires Valid()
      ensures SortedListing(snapshots, StoredSnapshots(walletSnapshots, run.scope.businessId, run.id), SnapshotLess)
    {
      ghost var keep := SnapshotInRun(run.scope.businessId, run.id);
      StoredSnapshotsAreKept(View(), run.scope.businessId, run.id);
      var list := [];
      var todo := walletSnapshots.Keys;
      KeptEnds(walletSnapshots, keep);
      hide StoreOk, Lists, Kept, StoredSnapshots, SortedListing, SnapshotLess, StrictOrder, TotalOn;
      while todo != {}
        invariant todo <= walletSnapshots.Keys && Lists(list, Kept(walletSnapshots - todo, keep))
        decreases |todo|
      {
        var id :| id in todo;
        KeptNext(walletSnapshots, todo, id, list, keep);
        todo := todo - {id};
        var snapshot := walletSnapshots[id];
        if snapshot.businessId == run.scope.businessId && snapshot.runId == run.id {
          list := list + [snapshot];
        }
      }
      ListsIs(list, Kept(walletSnapshots, keep));
      snapshots := Sort(list, SnapshotLess);
    }

    method CollectRows(run: RunRecord) returns (rows: seq<SettlementRow>)
      requires Valid()
      ensures SortedListing(rows, StoredRows(settlementRows, run.scope.businessId, run.id), RowLess)
    {
      ghost var keep := RowInRun(run.scope.businessId, run.id);
      StoredAreKept(ReportTables(), run.scope.businessId, run.id);
      RowsDiffer(View());
      var list := [];
      var todo := settlementRows.Keys;
      KeptEnds(settlementRows, keep);
      hide StoreOk, Lists, Kept, StoredRows, SortedListing, RowLess, StrictOrder, TotalOn;
      while todo != {}
        invariant todo <= settlementRows.Keys && Lists(list, Kept(settlementRows - todo, keep))
        decreases |todo|
      {
        var id :| id in todo;
        KeptNext(settlementRows, todo, id, list, keep);
        todo := todo - {id};
        var row := settlementRows[id];
        if row.businessId == run.scope.businessId && row.runId == run.id {
          list := list + [row];
        }
      }
      ListsIs(list, Kept(settlementRows, keep));
      rows := Sort(list, RowLess);
    }

    // ---------- receipts ----------

    /** GetReceipt: the request with its events in chronological order. */
    method GetReceipt(businessId: Id, requestId: Id) returns (result: Result<Receipt>)
      requires Valid()
      ensures if requestId in paymentRequests && paymentRequests[requestId].businessId == businessId then
                && result.Success? && result.value.request == paymentRequests[requestId]
                && SortedListing(result.value.events, EventsOfRequest(receiptEvents, businessId, requestId), EventLess)
              else result == Failure(NotFound)
    {
      if requestId !in paymentRequests || paymentRequests[requestId].businessId != businessId {
        return Failure(NotFound);
      }
      var events := ReceiptEventsForRequest(businessId, requestId);
      return Success(Receipt(paymentRequests[requestId], events));
    }

    /** receiptEventsForRequestLocked */
    method ReceiptEventsForRequest(businessId: Id, requestId: Id) returns (events: seq<ReceiptEvent>)
      requires Valid()
      ensures SortedListing(events, EventsOfRequest(receiptEvents, businessId, requestId), EventLess)
    {
      ghost var keep := EventInReceipt(businessId, requestId);
      hide StoreOk, Lists, Kept, EventsOfRequest, SortedListing, EventLess, StrictOrder, TotalOn;
      EventsDiffer(View(), businessId, requestId);
      EventOrder(receiptEvents, businessId, requestId);
      var list := [];
      var todo := receiptEvents.Keys;
      KeptEnds(receiptEvents, keep);
      while todo != {}
        invariant todo <= receiptEvents.Keys && Lists(list, Kept(receiptEvents - todo, keep))
        decreases |todo|
      {
        var id :| id in todo;
        KeptNext(receiptEvents, todo, id, list, keep);
        todo := todo - {id};
        var event := receiptEvents[id];
        if event.businessId == businessId && event.requestId == requestId {
          list := list + [event];
        }
      }
      ListsIs(list, Kept(receiptEvents, keep));
      events := Sort(list, EventLess);
    }

    // ---------- usage metrics ----------

    method CountWallets(b: Id) returns (connected: nat)
      ensures connected == |WalletsOf(Tables(), b)|
    {
      ghost var all := WalletsOf(Tables(), b);
      connected := 0;
      var todo := wallets.Keys;
      CountNone(all, todo);
      while todo != {}
        invariant todo <= wallets.Keys && connected == |all - todo|
        decreases |todo|
      {
        var id :| id in todo;
        CountVisited(all, todo, id);
        todo := todo - {id};
        if wallets[id].businessId == b && wallets[id].archivedAt.None? {
          connected := connected + 1;
        }
      }
    }

    method CountRequests(b: Id) returns (created: nat, underpaid: nat, overpaid: nat, late: nat)
      ensures created == |RequestsOf(Tables(), b)| && underpaid == |RequestsIn(Tables(), b, Underpaid)|
      ensures overpaid == |RequestsIn(Tables(), b, Overpaid)| && late == |RequestsIn(Tables(), b, Expired)|
    {
      hide RequestsOf, RequestsIn;
      ghost var l := Tables();
      created, underpaid, overpaid, late := 0, 0, 0, 0;
      var todo := paymentRequests.Keys;
      RequestCountEnds(l, b);
      while todo != {}
        invariant todo <= paymentRequests.Keys && created == |RequestsOf(l, b) - todo|
        invariant underpaid == |RequestsIn(l, b, Underpaid) - todo| && overpaid == |RequestsIn(l, b, Overpaid) - todo|
        invariant late == |RequestsIn(l, b, Expired) - todo|
        decreases |todo|
      {
        var id :| id in todo;
        RequestCounted(l, b, todo, id);
        todo := todo - {id};
        var request := paymentRequests[id];
        if request.businessId != b {
          continue;
        }
        created := created + 1;
        match request.status {
          case Underpaid => underpaid := underpaid + 1;
          case Overpaid => overpaid := overpaid + 1;
          case Expired => late := late + 1;
          case _ =>
        }
      }
    }

    method CountTransactions(b: Id) returns (detected: nat, matched: nat, orphans: nat)
      ensures detected == |TransactionsOf(Tables(), b)| && matched == |TransactionsIn(Tables(), b, MatchedToRequest)|
      ensures orphans == |TransactionsIn(Tables(), b, Orphaned)|
    {
      ghost var l := Tables();
      assert l.transactions == stablecoinTransactions;
      hide *;
      detected, matched, orphans := 0, 0, 0;
      var todo := stablecoinTransactions.Keys;
      TransactionCountEnds(l, b);
      while todo != {}
        invariant todo <= stablecoinTransactions.Keys && detected == |TransactionsOf(l, b) - todo|
        invariant matched == |TransactionsIn(l, b, MatchedToRequest) - todo|
        invariant orphans == |TransactionsIn(l, b, Orphaned) - todo|
        decreases |todo|
      {
        var id :| id in todo;
        TransactionCounted(l, b, todo, id);
        todo := todo - {id};
        var transaction := stablecoinTransactions[id];
        if transaction.businessId != b {
          continue;
        }
        detected := detected + 1;
        match transaction.status {
          case MatchedToRequest => matched := matched + 1;
          case Orphaned => orphans := orphans + 1;
          case _ =>
        }
      }
    }

    method CountExceptions(b: Id) returns (open: nat, resolved: nat)
      ensures open == |ExceptionsIn(Tables(), b, Open)| && resolved == |ExceptionsIn(Tables(), b, Resolved)|
    {
      ghost var waiting, closed := ExceptionsIn(Tables(), b, Open), ExceptionsIn(Tables(), b, Resolved);
      open, resolved := 0, 0;
      var todo := exceptions.Keys;
      CountNone(waiting, todo);
      CountNone(closed, todo);
      while todo != {}
        invariant todo <= exceptions.Keys && open == |waiting - todo| && resolved == |closed - todo|
        decreases |todo|
      {
        var id :| id in todo;
        CountVisited(waiting, todo, id);
        CountVisited(closed, todo, id);
        todo := todo - {id};
        var exception := exceptions[id];
        if exception.businessId != b {
          continue;
        }
        match exception.status {
          case Open => open := open + 1;
          case Resolved => resolved := resolved + 1;
        }
      }
    }

    /** Receipts are counted by the requests that events mention. */
    method CountReceipts(b: Id) returns (receipts: nat)
      ensures receipts == |ReceiptRequests(Tables(), b)|
    {
      var receiptRequests: set<Id> := {};
      var todo := receiptEvents.Keys;
      while todo != {}
        invariant todo <= receiptEvents.Keys
        invariant receiptRequests == set e | e in receiptEvents && e !in todo && receiptEvents[e].businessId == b
                                          :: receiptEvents[e].requestId
        decreases |todo|
      {
        var id :| id in todo;
        todo := todo - {id};
        if receiptEvents[id].businessId == b {
          receiptRequests := receiptRequests + {receiptEvents[id].requestId};
        }
      }
      assert receiptRequests == ReceiptRequests(Tables(), b);
      receipts := |receiptRequests|;
    }

    method CountDeliveries(b: Id) returns (delivered: nat, failed: nat)
      ensures delivered == |DeliveriesIn(WebhookTables(), b, Delivered)|
      ensures failed == |DeliveriesIn(WebhookTables(), b, Failed)|
    {
      ghost var good, bad := DeliveriesIn(WebhookTables(), b, Delivered), DeliveriesIn(WebhookTables(), b, Failed);
      delivered, failed := 0, 0;
      var todo := webhookDeliveries.Keys;
      CountNone(good, todo);
      CountNone(bad, todo);
      while todo != {}
        invariant todo <= webhookDeliveries.Keys && delivered == |good - todo| && failed == |bad - todo|
        decreases |todo|
      {
        var id :| id in todo;
        CountVisited(good, todo, id);
        CountVisited(bad, todo, id);
        todo := todo - {id};
        var delivery := webhookDeliveries[id];
        if delivery.businessId != b {
          continue;
        }
        match delivery.status {
          case Delivered => delivered := delivered + 1;
          case Failed => failed := failed + 1;
          case _ =>
        }
      }
    }

    method CountRuns(b: Id) returns (runs: nat)
      ensures runs == |RunsOf(ReportTables(), b)|
    {
      ghost var all := RunsOf(ReportTables(), b);
      runs := 0;
      var todo := reconciliationRuns.Keys;
      CountNone(all, todo);
      while todo != {}
        invariant todo <= reconciliationRuns.Keys && runs == |all - todo|
        decreases |todo|
      {
        var id :| id in todo;
        CountVisited(all, todo, id);
        todo := todo - {id};
        if reconciliationRuns[id].scope.businessId == b {
          runs := runs + 1;
        }
      }
    }

    method CountReconciled(b: Id) returns (rows: nat)
      ensures rows == |ReconciledRows(ReportTables(), b)|
    {
      ghost var all := ReconciledRows(ReportTables(), b);
      rows := 0;
      var todo := settlementRows.Keys;
      CountNone(all, todo);
      while todo != {}
        invariant todo <= settlementRows.Keys && rows == |all - todo|
        decreases |todo|
      {
        var id :| id in todo;
        CountVisited(all, todo, id);
        todo := todo - {id};
        if settlementRows[id].businessId == b && settlementRows[id].status == Reconciled {
          rows := rows + 1;
        }
      }
    }

    method CountKeys(b: Id) returns (active: nat)
      ensures active == |ActiveKeys(KeyTables(), b)|
    {
      ghost var all := ActiveKeys(KeyTables(), b);
      active := 0;
      var todo := apiKeys.Keys;
      CountNone(all, todo);
      while todo != {}
        invariant todo <= apiKeys.Keys && active == |all - todo|
        decreases |todo|
      {
        var id :| id in todo;
        CountVisited(all, todo, id);
        todo := todo - {id};
        if apiKeys[id].businessId == b && apiKeys[id].revokedAt.None? {
          active := active + 1;
        }
      }
    }

    /** usageMetricsLocked, one loop a table. */
    method MeasureUsage(b: Id) returns (metrics: UsageMetrics, service: ServiceUsage)
      ensures metrics == Usage(Tables(), b) && service == Service(View(), b)
    {
      hide WalletsOf, RequestsOf, RequestsIn, TransactionsOf, TransactionsIn, ExceptionsIn, ReceiptRequests;
      hide DeliveriesIn, RunsOf, ReconciledRows, ActiveKeys;
      var connected := CountWallets(b);
      var created, underpaid, overpaid, late := CountRequests(b);
      var detected, matched, orphans := CountTransactions(b);
      var delivered, failed := CountDeliveries(b);
      var open, resolved := CountExceptions(b);
      var receipts := CountReceipts(b);
      var runs := CountRuns(b);
      var reconciled := CountReconciled(b);
      var active := CountKeys(b);
      metrics := UsageMetrics(connected, created, underpaid, overpaid, late, detected, matched, orphans, open,
                              resolved, receipts);
      service := ServiceUsage(delivered, failed, runs, reconciled, active);
    }

    // ---------- API keys ----------

    /** CreateAPIKey, once name and scopes are accepted; CreateBusiness makes its first key the same way. */
    method CreateAPIKey(businessId: Id, actorId: Id, name: string, secretHash: string, now: Clock, id: Id)
      returns (key: ApiKey)
      requires Valid() && id !in apiKeys && secretHash !in apiKeyHash
      modifies `apiKeys, `apiKeyHash
      ensures Valid() && View() == Next(old(View()), CreateKey(key))
      ensures Authenticated(KeyTables(), secretHash) == Success(key)
      ensures key.businessId == businessId && key.name == name && key.id == id
    {
      hide StoreOk, Next, Authenticated;
      ghost var before := View();
      key := ApiKey(id, businessId, name, secretHash, actorId, now, None);
      KeyCreated(before, key);
      apiKeys := apiKeys[key.id := key];
      apiKeyHash := apiKeyHash[secretHash := key.id];
    }

    /** RevokeAPIKey: the key is marked once, whoever asks again. */
    method RevokeAPIKey(businessId: Id, id: Id, now: Clock) returns (result: Result<ApiKey>)
      requires Valid()
      modifies `apiKeys
      ensures Valid() && View() == Next(old(View()), RevokeKey(businessId, id, now))
      ensures if id in old(apiKeys) && old(apiKeys)[id].businessId == businessId
              then id in apiKeys && result == Success(apiKeys[id]) && apiKeys[id].revokedAt.Some?
              else result == Failure(NotFound)
    {
      hide StoreOk, Next;
      ghost var before := View();
      KeyRevoked(before, businessId, id, now);
      if id !in apiKeys || apiKeys[id].businessId != businessId {
        return Failure(NotFound);
      }
      var key := apiKeys[id];
      if key.revokedAt.None? {
        key := key.(revokedAt := Some(now));
        apiKeys := apiKeys[key.id := key];
      }
      return Success(key);
    }

    /** AuthenticateAPIKey, up to the lookup of the business. */
    method AuthenticateAPIKey(secretHash: string) returns (result: Result<ApiKey>)
      requires Valid()
      ensures forall key :: result == Success(key) <==>
                key in apiKeys.Values && key.secretHash == secretHash && key.revokedAt.None?
    {
      KeysAreOk(View());
      hide StoreOk;
      if secretHash !in apiKeyHash {
        return Failure(Unauthorized);
      }
      var key := apiKeys[apiKeyHash[secretHash]];
      if key.revokedAt.Some? {
        return Failure(Unauthorized);
      }
      return Success(key);
    }

    // ---------- loading ----------

    /** rebuildIndexesLocked: keys and transactions are visited in any order. */
    method RebuildIndexes()
      modifies `apiKeyHash, `transactionBySignature
      ensures forall k :: k in apiKeys ==> apiKeys[k].secretHash in apiKeyHash
      ensures forall h :: h in apiKeyHash ==> HashIndexed(apiKeys, h, apiKeyHash[h])
      ensures forall t :: t in stablecoinTransactions ==> ScopeOf(stablecoinTransactions[t]) in transactionBySignature
      ensures forall s :: s in transactionBySignature ==> Indexed(stablecoinTransactions, s, transactionBySignature[s])
    {
      hide ScopeOf;
      apiKeyHash := map[];
      var keys := apiKeys.Keys;
      while keys != {}
        invariant keys <= apiKeys.Keys
        invariant forall k :: k in apiKeys && k !in keys ==> apiKeys[k].secretHash in apiKeyHash
        invariant forall h :: h in apiKeyHash ==> HashIndexed(apiKeys, h, apiKeyHash[h])
        decreases |keys|
      {
        var id :| id in keys;
        keys := keys - {id};
        assert HashIndexed(apiKeys, apiKeys[id].secretHash, apiKeys[id].id);
        apiKeyHash := apiKeyHash[apiKeys[id].secretHash := apiKeys[id].id];
      }
      RebuildSignatures();
    }

    /** The second loop of rebuildIndexesLocked. */
    method RebuildSignatures()
      modifies `transactionBySignature
      ensures forall t :: t in stablecoinTransactions ==> ScopeOf(stablecoinTransactions[t]) in transactionBySignature
      ensures forall s :: s in transactionBySignature ==> Indexed(stablecoinTransactions, s, transactionBySignature[s])
    {
      hide ScopeOf;
      transactionBySignature := map[];
      var todo := stablecoinTransactions.Keys;
      while todo != {}
        invariant todo <= stablecoinTransactions.Keys
        invariant forall t :: t in stablecoinTransactions && t !in todo ==>
                  ScopeOf(stablecoinTransactions[t]) in transactionBySignature
        invariant forall s :: s in transactionBySignature ==>
                  Indexed(stablecoinTransactions, s, transactionBySignature[s])
        decreases |todo|
      {
        var id :| id in todo;
        todo := todo - {id};
        var transaction := stablecoinTransactions[id];
        assert Indexed(stablecoinTransactions, ScopeOf(transaction), transaction.id);
        transactionBySignature := transactionBySignature[ScopeOf(transaction) := transaction.id];
      }
    }

    /** loadSnapshot, the payment tables */
    method LoadPayments(image: Persistence.Image)
      modifies `wallets, `paymentRequests, `stablecoinTransactions, `transactionMatches, `exceptions, `receiptEvents,
               `idempotency
      ensures wallets == image.wallets && paymentRequests == image.requests
      ensures stablecoinTransactions == image.transactions
      ensures transactionMatches == image.matches && exceptions == image.exceptions && receiptEvents == image.events
      ensures idempotency == image.idempotency
    {
      wallets, paymentRequests, stablecoinTransactions := image.wallets, image.requests, image.transactions;
      transactionMatches, exceptions, receiptEvents := image.matches, image.exceptions, image.events;
      idempotency := image.idempotency;
    }

    /** loadSnapshot, the webhook and report tables and the keys */
    method LoadReports(image: Persistence.Image)
      modifies `webhookSubscriptions, `webhookDeliveries, `reconciliationRuns, `walletSnapshots, `settlementRows,
               `apiKeys
      ensures webhookSubscriptions == image.subscriptions && webhookDeliveries == image.deliveries
      ensures apiKeys == image.apiKeys
      ensures reconciliationRuns == image.reports.runs && walletSnapshots == image.reports.snapshots
      ensures settlementRows == image.reports.rows
    {
      apiKeys := image.apiKeys;
      webhookSubscriptions, webhookDeliveries := image.subscriptions, image.deliveries;
      reconciliationRuns, walletSnapshots, settlementRows := image.reports.runs, image.reports.snapshots,
        image.reports.rows;
    }

    lemma ViewIsOnFile(image: Persistence.Image)
      requires wallets == image.wallets && paymentRequests == image.requests
      requires stablecoinTransactions == image.transactions
      requires transactionMatches == image.matches && exceptions == image.exceptions && receiptEvents == image.events
      requires webhookSubscriptions == image.subscriptions && webhookDeliveries == image.deliveries
      requires reconciliationRuns == image.reports.runs && walletSnapshots == image.reports.snapshots
      requires settlementRows == image.reports.rows
      requires idempotency == image.idempotency && apiKeys == image.apiKeys
      ensures View() == OnFile(image, transactionBySignature, apiKeyHash)
    {
    }

    /** NewPersistentStore on the file that a store was saved to: the store comes back without its webhook secrets. */
    constructor Reload(image: Persistence.Image, ghost saved: Store)
      requires image == Encode(saved) && StoreOk(saved)
      ensures Valid() && View() == Forget(saved)
    {
      wallets, paymentRequests, stablecoinTransactions, transactionBySignature := map[], map[], map[], map[];
      transactionMatches, exceptions, receiptEvents, idempotency := map[], map[], map[], map[];
      webhookSubscriptions, webhookDeliveries := map[], map[];
      reconciliationRuns, walletSnapshots, settlementRows := map[], map[], map[];
      apiKeys, apiKeyHash := map[], map[];
      new;
      hide StoreOk, Encode, Forget, ScopeOf, Indexed, HashIndexed, View, OnFile;
      LoadPayments(image);
      LoadReports(image);
      RebuildIndexes();
      ViewIsOnFile(image);
      Restored(saved, image, transactionBySignature, apiKeyHash, View());
    }
  }

  /** allReceiptEventTypes */
  const ALL_EVENT_TYPES := [RequestCreated, PaymentDetected, TransactionVerified, TransactionMatched,
                            PaymentConfirmed, PaymentExceptioned, ExceptionResolved]

  /** normalizeWebhookEventTypes, once every name is known: all when none is given, repeats dropped. */
  method NormalEventTypes(eventTypes: seq<EventType>) returns (kinds: seq<EventType>)
    ensures forall kind :: kind in kinds <==> eventTypes == [] || kind in eventTypes
    ensures NoRepeats(kinds)
  {
    if eventTypes == [] {
      forall kind: EventType ensures kind in ALL_EVENT_TYPES {
        AllEventTypes(kind);
      }
      return ALL_EVENT_TYPES;
    }
    kinds := [];
    for i := 0 to |eventTypes|
      invariant forall kind :: kind in kinds <==> kind in eventTypes[..i]
      invariant NoRepeats(kinds)
    {
      if eventTypes[i] !in kinds {
        kinds := kinds + [eventTypes[i]];
      }
      assert eventTypes[..i + 1] == eventTypes[..i] + [eventTypes[i]];
    }
    assert eventTypes[..|eventTypes|] == eventTypes;
  }

  lemma AllEventTypes(kind: EventType)
    ensures kind in ALL_EVENT_TYPES
  {
    match kind
    case RequestCreated => assert ALL_EVENT_TYPES[0] == kind;
    case PaymentDetected => assert ALL_EVENT_TYPES[1] == kind;
    case TransactionVerified => assert ALL_EVENT_TYPES[2] == kind;
    case TransactionMatched => assert ALL_EVENT_TYPES[3] == kind;
    case PaymentConfirmed => assert ALL_EVENT_TYPES[4] == kind;
    case PaymentExceptioned => assert ALL_EVENT_TYPES[5] == kind;
    case ExceptionResolved => assert ALL_EVENT_TYPES[6] == kind;
  }

  lemma DeliveryIsKeyed(s: Store, id: Id)
    requires StoreOk(s) && id in s.hooks.deliveries
    ensures s.hooks.deliveries[id].id == id
  {
    assert DeliveryOk(s.hooks.subscriptions, id, s.hooks.deliveries[id]);
    hide Inv, ReportsOk;
  }

  lemma PossibleReplay(s: Store, op: StoreOp)
    requires op.ReplayDelivery?
    ensures CanHappen(s, op)
  {
  }

  lemma ReplayNext(s: Store, businessId: Id, id: Id, outcome: Outcome, now: Clock)
    ensures Next(s, ReplayDelivery(businessId, id, outcome, now)) ==
            if id in s.hooks.deliveries && s.hooks.deliveries[id].businessId == businessId then
              var d := s.hooks.deliveries[id].(status := PendingDelivery, lastError := "", nextAttemptAt := None,
                                               updatedAt := now);
              var sub := if d.subscriptionId in s.hooks.subscriptions
                         then Some(s.hooks.subscriptions[d.subscriptionId]) else None;
              s.(hooks := s.hooks.(deliveries := s.hooks.deliveries[id := Attempt(d, sub, outcome, now)]))
            else s
  {
    hide Attempt;
  }
}
