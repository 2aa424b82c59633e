/** The usage counters that count deliveries, runs, rows and keys. */
module ServiceMetrics {
  import opened Models
  import opened ApiKeys
  import opened Webhooks
  import opened WebhookTheorems
  import opened Reconciliation
  import opened StoreModel
  import opened Persistence

  datatype ServiceUsage = ServiceUsage(
    webhooksDelivered: nat, webhooksFailed: nat, reconciliationRuns: nat, reconciledRecords: nat, activeApiKeys: nat)

  ghost function DeliveriesOf(h: Hooks, b: Id): set<Id> {
    set d | d in h.deliveries && h.deliveries[d].businessId == b
  }

  ghost function DeliveriesIn(h: Hooks, b: Id, status: DeliveryStatus): set<Id> {
    set d | d in h.deliveries && h.deliveries[d].businessId == b && h.deliveries[d].status == status
  }

  ghost function RunsOf(r: Reports, b: Id): set<Id> {
    set run | run in r.runs && r.runs[run].scope.businessId == b
  }

  ghost function ReconciledRows(r: Reports, b: Id): set<Id> {
    set row | row in r.rows && r.rows[row].businessId == b && r.rows[row].status == Reconciled
  }

  ghost function ActiveKeys(k: Keys, b: Id): set<Id> {
    set key | key in k.byId && k.byId[key].businessId == b && k.byId[key].revokedAt.None?
  }

  /** The counters of usageMetricsLocked over these tables. */
  ghost function Service(s: Store, b: Id): ServiceUsage {
    ServiceUsage(|DeliveriesIn(s.hooks, b, Delivered)|, |DeliveriesIn(s.hooks, b, Failed)|, |RunsOf(s.reports, b)|,
                 |ReconciledRows(s.reports, b)|, |ActiveKeys(s.keys, b)|)
  }

  /** In every reachable state each delivery counts as delivered or as failed: none is left pending. */
  lemma DeliveriesAreCounted(s: Store, ops: seq<StoreOp>, b: Id)
    requires StoreOk(s) && PossibleRun(s, ops)
    ensures var end := RunStore(s, ops);
            Service(end, b).webhooksDelivered + Service(end, b).webhooksFailed == |DeliveriesOf(end.hooks, b)|
  {
    var end := RunStore(s, ops);
    hide StoreOk, RunStore, PossibleRun, DeliveriesOf, DeliveriesIn, RunsOf, ReconciledRows, ActiveKeys;
    RunKeepsOk(s, ops);
    HooksAreOk(end);
    DeliveredOrFailed(end.hooks, b);
    var delivered, failed := DeliveriesIn(end.hooks, b, Delivered), DeliveriesIn(end.hooks, b, Failed);
    assert |delivered + failed| == |delivered| + |failed|;
  }

  lemma HooksAreOk(s: Store)
    requires StoreOk(s)
    ensures HooksOk(s.hooks)
  {
  }

  lemma DeliveredOrFailed(h: Hooks, b: Id)
    requires HooksOk(h)
    ensures DeliveriesOf(h, b) == DeliveriesIn(h, b, Delivered) + DeliveriesIn(h, b, Failed)
    ensures DeliveriesIn(h, b, Delivered) !! DeliveriesIn(h, b, Failed)
  {
    forall d | d in h.deliveries ensures h.deliveries[d].status in {Delivered, Failed} {
      assert DeliveryOk(h.subscriptions, d, h.deliveries[d]);
    }
  }
}
