/** Every delivery is attempted once when it is created and once for each replay. */
module WebhookTheorems {
  import opened Wrappers
  import opened Models
  import opened LedgerModel
  import opened Webhooks
  import opened StoreModel

  /** Deliveries belong to stored, enabled subscriptions of their own business and have been attempted. */
  ghost predicate DeliveryOk(subs: map<Id, Subscription>, id: Id, d: Delivery) {
    && d.id == id
    && d.subscriptionId in subs
    && subs[d.subscriptionId].enabled
    && subs[d.subscriptionId].businessId == d.businessId
    && d.attempts >= 1
    && d.status != PendingDelivery
  }

  ghost predicate HooksOk(h: Hooks) {
    && (forall s :: s in h.subscriptions ==> h.subscriptions[s].id == s && h.subscriptions[s].enabled)
    && (forall id :: id in h.deliveries ==> DeliveryOk(h.subscriptions, id, h.deliveries[id]))
  }

  /** Deliveries are never removed; those already there are left as they were. */
  ghost predicate Adds(h: Hooks, h': Hooks) {
    && h'.subscriptions == h.subscriptions
    && (forall id :: id in h.deliveries ==> id in h'.deliveries && h'.deliveries[id] == h.deliveries[id])
    && (forall id :: id in h'.deliveries && id !in h.deliveries ==> h'.deliveries[id].attempts == 1)
  }

  lemma PostedOk(h: Hooks, e: ReceiptEvent, now: Time, net: Net, id: Id)
    requires HooksOk(h) && FreshPosting(h, e, net)
    requires id in Posted(h.subscriptions, Interested(h.subscriptions, e), e, now, net)
    ensures var d := Posted(h.subscriptions, Interested(h.subscriptions, e), e, now, net)[id];
            id !in h.deliveries && DeliveryOk(h.subscriptions, id, d) && d.attempts == 1
    ensures id in DeliveryIds(h.subscriptions.Keys, e, net)
  {
    var d := Posted(h.subscriptions, Interested(h.subscriptions, e), e, now, net)[id];
    var s :| s in Interested(h.subscriptions, e) && net(e.id, s).deliveryId == id
             && d == FirstAttempt(h.subscriptions[s], e, now, net(e.id, s));
  }

  lemma EnqueueAdds(h: Hooks, e: ReceiptEvent, now: Time, net: Net)
    requires HooksOk(h) && FreshPosting(h, e, net)
    ensures HooksOk(Enqueue(h, e, now, net)) && Adds(h, Enqueue(h, e, now, net))
    ensures Enqueue(h, e, now, net).deliveries.Keys <= h.deliveries.Keys + DeliveryIds(h.subscriptions.Keys, e, net)
  {
    var posted := Posted(h.subscriptions, Interested(h.subscriptions, e), e, now, net);
    forall id | id in posted
      ensures id !in h.deliveries && DeliveryOk(h.subscriptions, id, posted[id]) && posted[id].attempts == 1
      ensures id in DeliveryIds(h.subscriptions.Keys, e, net)
    {
      PostedOk(h, e, now, net, id);
    }
    hide Posted, DeliveryIds, Interested, FreshPosting, DeliveryOk;
    AddPosted(h, posted, DeliveryIds(h.subscriptions.Keys, e, net));
  }

  lemma AddPosted(h: Hooks, posted: map<Id, Delivery>, ids: set<Id>)
    requires HooksOk(h)
    requires forall id :: id in posted ==>
             id !in h.deliveries && DeliveryOk(h.subscriptions, id, posted[id]) && posted[id].attempts == 1
    requires posted.Keys <= ids
    ensures var h' := h.(deliveries := h.deliveries + posted);
            HooksOk(h') && Adds(h, h') && h'.deliveries.Keys <= h.deliveries.Keys + ids
  {
    hide DeliveryOk;
  }

  /** The identifiers that a list of events may use. */
  ghost function AllIds(h: Hooks, events: seq<ReceiptEvent>, net: Net): set<Id> {
    set i, s | 0 <= i < |events| && s in h.subscriptions :: net(events[i].id, s).deliveryId
  }

  lemma AllIdsSplit(h: Hooks, events: seq<ReceiptEvent>, net: Net)
    requires events != []
    ensures AllIds(h, events, net) ==
            AllIds(h, events[..|events| - 1], net) + DeliveryIds(h.subscriptions.Keys, events[|events| - 1], net)
  {
    var n := |events| - 1;
    forall id | id in AllIds(h, events, net)
      ensures id in AllIds(h, events[..n], net) + DeliveryIds(h.subscriptions.Keys, events[n], net)
    {
      var i, s :| 0 <= i < |events| && s in h.subscriptions && net(events[i].id, s).deliveryId == id;
      if i < n { assert events[..n][i] == events[i]; }
    }
    forall id | id in AllIds(h, events[..n], net) ensures id in AllIds(h, events, net) {
      var i, s :| 0 <= i < n && s in h.subscriptions && net(events[..n][i].id, s).deliveryId == id;
      assert events[..n][i] == events[i];
    }
  }

  lemma EarlierIdsDiffer(h: Hooks, events: seq<ReceiptEvent>, net: Net)
    requires events != [] && FreshPostings(h, events, net)
    ensures FreshPostings(h, events[..|events| - 1], net)
    ensures AllIds(h, events[..|events| - 1], net) !! DeliveryIds(h.subscriptions.Keys, events[|events| - 1], net)
  {
    var n := |events| - 1;
    forall id | id in AllIds(h, events[..n], net) ensures id !in DeliveryIds(h.subscriptions.Keys, events[n], net) {
      var i, s :| 0 <= i < n && s in h.subscriptions && net(events[..n][i].id, s).deliveryId == id;
      assert id in DeliveryIds(h.subscriptions.Keys, events[i], net);
    }
    hide FreshPosting;
  }

  /** A whole list of events is enqueued without touching any existing delivery. */
  lemma {:induction false} EnqueueAllAdds(h: Hooks, events: seq<ReceiptEvent>, now: Time, net: Net)
    requires HooksOk(h) && FreshPostings(h, events, net)
    ensures HooksOk(EnqueueAll(h, events, now, net)) && Adds(h, EnqueueAll(h, events, now, net))
    ensures EnqueueAll(h, events, now, net).deliveries.Keys <= h.deliveries.Keys + AllIds(h, events, net)
    decreases |events|
  {
    if events != [] {
      var n := |events| - 1;
      var before := EnqueueAll(h, events[..n], now, net);
      EarlierIdsDiffer(h, events, net);
      EnqueueAllAdds(h, events[..n], now, net);
      AllIdsSplit(h, events, net);
      assert FreshPosting(h, events[n], net);
      StillFresh(h, before, events[n], net, AllIds(h, events[..n], net));
      hide HooksOk, Adds, Enqueue, FreshPosting, FreshPostings, DeliveryIds, AllIds;
      EnqueueAdds(before, events[n], now, net);
      AddsTransitive(h, before, Enqueue(before, events[n], now, net));
    }
  }

  lemma AddsTransitive(a: Hooks, b: Hooks, c: Hooks)
    requires Adds(a, b) && Adds(b, c)
    ensures Adds(a, c) && b.subscriptions == a.subscriptions
  {
  }

  lemma StillFresh(h: Hooks, before: Hooks, e: ReceiptEvent, net: Net, used: set<Id>)
    requires FreshPosting(h, e, net) && before.subscriptions == h.subscriptions
    requires before.deliveries.Keys <= h.deliveries.Keys + used
    requires used !! DeliveryIds(h.subscriptions.Keys, e, net)
    ensures FreshPosting(before, e, net)
  {
    forall s | s in h.subscriptions ensures net(e.id, s).deliveryId !in before.deliveries {
      assert net(e.id, s).deliveryId in DeliveryIds(h.subscriptions.Keys, e, net);
    }
  }

  /** The call is a replay that finds the delivery. */
  predicate Replays(s: Store, op: StoreOp, id: Id) {
    op.ReplayDelivery? && op.deliveryId == id && id in s.hooks.deliveries
      && s.hooks.deliveries[id].businessId == op.businessId
  }

  /** How many calls of the run replay the delivery. */
  ghost function ReplayCount(s: Store, ops: seq<StoreOp>, id: Id): nat
    decreases |ops|
  {
    if ops == [] then 0
    else
      var n := |ops| - 1;
      ReplayCount(s, ops[..n], id) + (if Replays(RunStore(s, ops[..n]), ops[n], id) then 1 else 0)
  }

  /** A step attempts each delivery that it makes or replays once, and no other. */
  ghost predicate AttemptsMove(s: Store, op: StoreOp) {
    var before, after := s.hooks.deliveries, Next(s, op).hooks.deliveries;
    && (forall id :: id in before ==>
          id in after && after[id].attempts == before[id].attempts + (if Replays(s, op, id) then 1 else 0))
    && (forall id :: id in after && id !in before ==> after[id].attempts == 1 && !Replays(s, op, id))
  }

  lemma StepAttempts(s: Store, op: StoreOp)
    requires HooksOk(s.hooks) && CanHappen(s, op)
    ensures HooksOk(Next(s, op).hooks)
    ensures AttemptsMove(s, op)
  {
    hide *;
    match op {
      case LedgerCall(_, _) => CallAttempts(s, op);
      case ReplayDelivery(_, _, _, _) => ReplayAttempts(s, op);
      case _ => OtherAttempts(s, op);
    }
  }

  lemma CallAttempts(s: Store, op: StoreOp)
    requires HooksOk(s.hooks) && CanHappen(s, op) && op.LedgerCall?
    ensures HooksOk(Next(s, op).hooks) && Adds(s.hooks, Next(s, op).hooks)
    ensures forall id :: !Replays(s, op, id)
    ensures AttemptsMove(s, op)
  {
    hide *;
    CallHooks(s, op);
    EnqueueAllAdds(s.hooks, Perform(s.ledger, op.op).emitted, op.op.now, op.net);
    AddsMove(s, op);
  }

  lemma CallHooks(s: Store, op: StoreOp)
    requires CanHappen(s, op) && op.LedgerCall?
    ensures Next(s, op).hooks == EnqueueAll(s.hooks, Perform(s.ledger, op.op).emitted, op.op.now, op.net)
    ensures FreshPostings(s.hooks, Perform(s.ledger, op.op).emitted, op.net)
    ensures forall id :: !Replays(s, op, id)
  {
    hide Perform, EnqueueAll, FreshPostings, Admissible, Ledger.Plus;
  }

  lemma AddsMove(s: Store, op: StoreOp)
    requires Adds(s.hooks, Next(s, op).hooks) && (forall id :: !Replays(s, op, id))
    ensures AttemptsMove(s, op)
  {
    hide Next, Replays;
  }

  lemma ReplayAttempts(s: Store, op: StoreOp)
    requires HooksOk(s.hooks) && op.ReplayDelivery?
    ensures HooksOk(Next(s, op).hooks) && AttemptsMove(s, op)
  {
    hide Next, Replays, Attempt;
    var id := op.deliveryId;
    ReplayHooks(s, op);
    if Replays(s, op, id) {
      var d := s.hooks.deliveries[id];
      assert DeliveryOk(s.hooks.subscriptions, id, d);
      var again := d.(status := PendingDelivery, lastError := "", nextAttemptAt := None, updatedAt := op.now);
      AttemptedAgain(again, s.hooks.subscriptions[d.subscriptionId], op.outcome, op.now);
    }
  }

  lemma AttemptedAgain(d: Delivery, sub: Subscription, outcome: Outcome, now: Time)
    requires sub.enabled
    ensures var a := Attempt(d, Some(sub), outcome, now);
            && a.id == d.id && a.subscriptionId == d.subscriptionId && a.businessId == d.businessId
            && a.attempts == d.attempts + 1 && a.status != PendingDelivery
  {
  }

  lemma ReplayHooks(s: Store, op: StoreOp)
    requires op.ReplayDelivery?
    ensures var id, hooks := op.deliveryId, Next(s, op).hooks;
            if Replays(s, op, id) then
              var d := s.hooks.deliveries[id].(status := PendingDelivery, lastError := "", nextAttemptAt := None,
                                               updatedAt := op.now);
              var sub := if d.subscriptionId in s.hooks.subscriptions
                         then Some(s.hooks.subscriptions[d.subscriptionId]) else None;
              hooks == s.hooks.(deliveries := s.hooks.deliveries[id := Attempt(d, sub, op.outcome, op.now)])
            else hooks == s.hooks
    ensures forall other :: Replays(s, op, other) ==> other == op.deliveryId && other in s.hooks.deliveries
  {
    hide Perform, Attempt, EnqueueAll, WithRun;
  }

  lemma OtherAttempts(s: Store, op: StoreOp)
    requires HooksOk(s.hooks) && CanHappen(s, op) && !op.LedgerCall? && !op.ReplayDelivery?
    ensures HooksOk(Next(s, op).hooks) && AttemptsMove(s, op)
  {
    hide Perform, WithRun, FreshRows, CanReconcile;
  }

  /**
   At the end of any run a delivery has been attempted once for its creation and once for
   every replay that found it, whatever the outcomes were.
   */
  lemma {:induction false} AttemptsCountReplays(s: Store, ops: seq<StoreOp>, id: Id)
    requires HooksOk(s.hooks) && PossibleRun(s, ops)
    ensures HooksOk(RunStore(s, ops).hooks)
    ensures id in s.hooks.deliveries ==> id in RunStore(s, ops).hooks.deliveries
    ensures id in RunStore(s, ops).hooks.deliveries ==>
              RunStore(s, ops).hooks.deliveries[id].attempts
                == (if id in s.hooks.deliveries then s.hooks.deliveries[id].attempts else 1) + ReplayCount(s, ops, id)
    ensures id !in RunStore(s, ops).hooks.deliveries ==> ReplayCount(s, ops, id) == 0
    decreases |ops|
  {
    if ops != [] {
      var n := |ops| - 1;
      AttemptsCountReplays(s, ops[..n], id);
      hide HooksOk, CanHappen, Next;
      StepAttempts(RunStore(s, ops[..n]), ops[n]);
    }
  }
}
