/** Webhook subscriptions and deliveries: what enqueueing and attempting a delivery records. */
module Webhooks {
  import opened Wrappers
  import opened Models

  datatype Subscription = Subscription(
    id: Id, businessId: Id, url: string, secret: string, eventTypes: seq<EventType>, enabled: bool,
    createdAt: Time, updatedAt: Time)

  /** The signed JSON document; the HMAC of a payload is modelled as the pair it was computed from. */
  datatype Payload = Payload(event: ReceiptEvent, subscriptionId: Id, url: string)
  datatype Signature = Signature(secret: string, payload: Payload)

  datatype DeliveryStatus = PendingDelivery | Delivered | Failed

  datatype Delivery = Delivery(
    id: Id, businessId: Id, subscriptionId: Id, eventId: Id, kind: EventType, requestId: Id, transactionId: Id,
    exceptionId: Id, payload: Payload, signature: Signature, status: DeliveryStatus, attempts: nat,
    lastStatusCode: int, lastError: string, nextAttemptAt: Option<Time>, deliveredAt: Option<Time>,
    createdAt: Time, updatedAt: Time)

  /** What the network did with a request. */
  datatype Outcome = BadRequest(error: string) | Unreachable(error: string) | Answered(code: int, statusText: string)

  /** The fresh delivery identifier and the outcome of posting one event to one subscription. */
  datatype Posting = Posting(deliveryId: Id, outcome: Outcome)

  /** The network: event and subscription identifiers to postings. */
  type Net = (Id, Id) -> Posting

  datatype Hooks = Hooks(subscriptions: map<Id, Subscription>, deliveries: map<Id, Delivery>)

  /** attemptWebhookDeliveryLocked */
  function Attempt(d: Delivery, s: Option<Subscription>, outcome: Outcome, now: Time): Delivery {
    if s.None? || !s.value.enabled then
      d.(status := Failed, lastError := "webhook subscription is disabled or missing", updatedAt := now)
    else
      match outcome
      case BadRequest(error) =>
        d.(attempts := d.attempts + 1, status := Failed, lastError := error, nextAttemptAt := Some(now + MINUTE),
           updatedAt := now)
      case Unreachable(error) =>
        d.(attempts := d.attempts + 1, status := Failed, lastError := error, nextAttemptAt := Some(now + MINUTE),
           updatedAt := now)
      case Answered(code, statusText) =>
        if 200 <= code < 300 then
          d.(attempts := d.attempts + 1, lastStatusCode := code, status := Delivered, lastError := "",
             nextAttemptAt := None, deliveredAt := Some(now), updatedAt := now)
        else
          d.(attempts := d.attempts + 1, lastStatusCode := code, status := Failed, lastError := statusText,
             nextAttemptAt := Some(now + MINUTE), updatedAt := now)
  }

  predicate Wants(s: Subscription, e: ReceiptEvent) {
    s.businessId == e.businessId && s.enabled && e.kind in s.eventTypes
  }

  function NewDelivery(s: Subscription, e: ReceiptEvent, now: Time, id: Id): Delivery {
    var payload := Payload(e, s.id, s.url);
    Delivery(id, e.businessId, s.id, e.id, e.kind, e.requestId, e.transactionId, e.exceptionId, payload,
             Signature(s.secret, payload), PendingDelivery, 0, 0, "", None, None, now, now)
  }

  /** The first attempt of a delivery, made as soon as it is stored. */
  function FirstAttempt(s: Subscription, e: ReceiptEvent, now: Time, p: Posting): Delivery {
    Attempt(NewDelivery(s, e, now, p.deliveryId), Some(s), p.outcome, now)
  }

  ghost function Interested(subs: map<Id, Subscription>, e: ReceiptEvent): set<Id> {
    set s | s in subs && Wants(subs[s], e)
  }

  ghost function DeliveryIds(subs: set<Id>, e: ReceiptEvent, net: Net): set<Id> {
    set s | s in subs :: net(e.id, s).deliveryId
  }

  /** The deliveries stored for an event, one for each of these subscriptions. */
  ghost function Posted(subs: map<Id, Subscription>, to: set<Id>, e: ReceiptEvent, now: Time, net: Net)
    : map<Id, Delivery>
    requires to <= subs.Keys
  {
    map id | id in DeliveryIds(to, e, net) ::
      var s :| s in to && net(e.id, s).deliveryId == id;
      FirstAttempt(subs[s], e, now, net(e.id, s))
  }

  /** enqueueWebhookDeliveriesLocked */
  ghost function Enqueue(h: Hooks, e: ReceiptEvent, now: Time, net: Net): Hooks {
    h.(deliveries := h.deliveries + Posted(h.subscriptions, Interested(h.subscriptions, e), e, now, net))
  }

  /** One event after the other. */
  ghost function EnqueueAll(h: Hooks, events: seq<ReceiptEvent>, now: Time, net: Net): Hooks
    decreases |events|
  {
    if events == [] then h else Enqueue(EnqueueAll(h, events[..|events| - 1], now, net), events[|events| - 1], now, net)
  }

  /** newID: the deliveries of one event get unused identifiers, one per subscription. */
  ghost predicate FreshPosting(h: Hooks, e: ReceiptEvent, net: Net) {
    && (forall s :: s in h.subscriptions ==> net(e.id, s).deliveryId !in h.deliveries)
    && (forall s, t ::
        s in h.subscriptions && t in h.subscriptions && net(e.id, s).deliveryId == net(e.id, t).deliveryId ==> s == t)
  }

  /** newID: and different events get different ones. */
  ghost predicate FreshPostings(h: Hooks, events: seq<ReceiptEvent>, net: Net) {
    && (forall i :: 0 <= i < |events| ==> FreshPosting(h, events[i], net))
    && (forall i, j :: 0 <= i < j < |events| ==>
          DeliveryIds(h.subscriptions.Keys, events[i], net) !! DeliveryIds(h.subscriptions.Keys, events[j], net))
  }

  /** ReplayWebhookDelivery, once the delivery is found to belong to the caller. */
  function Replayed(h: Hooks, id: Id, outcome: Outcome, now: Time): Hooks
    requires id in h.deliveries
  {
    var d := h.deliveries[id].(status := PendingDelivery, lastError := "", nextAttemptAt := None, updatedAt := now);
    var s := if d.subscriptionId in h.subscriptions then Some(h.subscriptions[d.subscriptionId]) else None;
    h.(deliveries := h.deliveries[id := Attempt(d, s, outcome, now)])
  }
}
