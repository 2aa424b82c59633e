/** Facts that connect single table writes of the store's methods to the mathematical store. */
module StoreGlue {
  import opened Wrappers
  import opened Finite
  import opened Amounts
  import opened Models
  import opened LedgerModel
  import opened LedgerInvariant
  import opened LedgerSteps
  import opened Matching
  import opened Webhooks
  import opened WebhookTheorems
  import opened Tenancy
  import opened ReportScopes
  import opened ReportHistory
  import opened StoreModel
  import opened Persistence

  // ---------- listings ----------

  ghost predicate NoRepeats<T(!new)>(s: seq<T>) {
    forall i, j :: 0 <= i < j < |s| ==> s[i] != s[j]
  }

  /** The identifiers in ids are exactly those of s, each once. */
  ghost predicate Lists<T(!new)>(ids: seq<T>, s: set<T>) {
    NoRepeats(ids) && Elements(ids) == s
  }

  lemma {:induction false} ListsCount<T(!new)>(ids: seq<T>)
    requires NoRepeats(ids)
    ensures |Elements(ids)| == |ids|
    decreases |ids|
  {
    if ids == [] {
      assert Elements(ids) == {};
    } else {
      var n := |ids| - 1;
      ListsCount(ids[..n]);
      PrefixNext(ids, n);
      ListsAll(ids);
    }
  }

  lemma PrefixNext<T(!new)>(ids: seq<T>, n: nat)
    requires n < |ids| && NoRepeats(ids)
    ensures Elements(ids[..n + 1]) == Elements(ids[..n]) + {ids[n]} && ids[n] !in Elements(ids[..n])
    ensures NoRepeats(ids[..n])
  {
    assert ids[..n + 1] == ids[..n] + [ids[n]];
    forall x ensures x in ids[..n + 1] <==> x in ids[..n] || x == ids[n] {
    }
  }

  lemma ListsAll<T(!new)>(ids: seq<T>)
    ensures Elements(ids[..|ids|]) == Elements(ids)
  {
    assert ids[..|ids|] == ids;
  }

  lemma AppendLists<T(!new)>(ids: seq<T>, s: set<T>, x: T)
    requires Lists(ids, s) && x !in s
    ensures Lists(ids + [x], s + {x})
  {
    forall i | 0 <= i < |ids| ensures ids[i] in Elements(ids) {
    }
    forall y ensures y in ids + [x] <==> y in ids || y == x {
    }
  }

  // ---------- deliveries ----------

  /** Posting to one more subscription. */
  lemma PostedNext(subs: map<Id, Subscription>, to: set<Id>, s: Id, e: ReceiptEvent, now: Time, net: Net)
    requires to <= subs.Keys && s in subs && s !in to
    requires forall a, b :: a in subs && b in subs && net(e.id, a).deliveryId == net(e.id, b).deliveryId ==> a == b
    ensures Posted(subs, to + {s}, e, now, net)
         == Posted(subs, to, e, now, net)[net(e.id, s).deliveryId := FirstAttempt(subs[s], e, now, net(e.id, s))]
  {
    hide FirstAttempt;
    assert DeliveryIds(to + {s}, e, net) == DeliveryIds(to, e, net) + {net(e.id, s).deliveryId};
  }

  lemma PostedNone(subs: map<Id, Subscription>, e: ReceiptEvent, now: Time, net: Net)
    ensures Posted(subs, {}, e, now, net) == map[]
  {
  }

  lemma AddThenSet(m: map<string, Delivery>, d: map<string, Delivery>, k: string, v: Delivery)
    ensures (m + d)[k := v] == m + d[k := v]
  {
  }

  /** When the events of a call are enqueued one by one, each finds its identifiers unused. */
  lemma NextIsFresh(h: Hooks, events: seq<ReceiptEvent>, k: nat, now: Time, net: Net)
    requires HooksOk(h) && FreshPostings(h, events, net) && k < |events|
    ensures var before := EnqueueAll(h, events[..k], now, net);
            HooksOk(before) && FreshPosting(before, events[k], net)
    ensures EnqueueAll(h, events[..k + 1], now, net) ==
            Enqueue(EnqueueAll(h, events[..k], now, net), events[k], now, net)
  {
    var upTo := events[..k + 1];
    assert upTo[..k] == events[..k] && upTo[k] == events[k];
    PrefixFresh(h, events, k + 1, net);
    EarlierIdsDiffer(h, upTo, net);
    EnqueueAllAdds(h, upTo[..k], now, net);
    assert FreshPosting(h, upTo[k], net);
    hide HooksOk, FreshPosting, FreshPostings, Enqueue, AllIds;
    StillFresh(h, EnqueueAll(h, upTo[..k], now, net), upTo[k], net, AllIds(h, upTo[..k], net));
  }

  lemma PrefixFresh(h: Hooks, events: seq<ReceiptEvent>, n: nat, net: Net)
    requires FreshPostings(h, events, net) && n <= |events|
    ensures FreshPostings(h, events[..n], net)
  {
    hide FreshPosting, DeliveryIds;
  }

  /** The call took the store from s to after and answered r, as the mathematical store says. */
  ghost predicate CarriedOut(s: Store, op: LedgerOp, net: Net, after: Store, r: Result<Response>) {
    && StoreOk(after)
    && after == Next(s, LedgerCall(op, net))
    && r == Perform(s.ledger, op).result
  }

  lemma CallDone(s: Store, op: LedgerOp, net: Net)
    requires StoreOk(s) && CanHappen(s, LedgerCall(op, net))
    ensures CarriedOut(s, op, net, Next(s, LedgerCall(op, net)), Perform(s.ledger, op).result)
  {
    hide StoreOk, CanHappen, Next, Perform;
    NextKeepsOk(s, LedgerCall(op, net));
  }

  lemma CreatePerforms(l: Ledger, op: LedgerOp)
    requires op.CreateRequest?
    ensures Perform(l, op) ==
            CreateRequestChange(l, op.businessId, op.key, op.body, op.readAt, op.now, op.requestId, op.eventId)
  {
    hide CreateRequestChange;
  }

  lemma IngestPerforms(l: Ledger, op: LedgerOp)
    requires op.Ingest?
    ensures Perform(l, op) == IngestChange(l, op.businessId, op.evidence, op.pick, op.now, op.ids)
  {
    hide IngestChange;
  }

  lemma ResolvePerforms(l: Ledger, op: LedgerOp)
    requires op.ResolveException?
    ensures Perform(l, op) == ResolveChange(l, op.businessId, op.actorId, op.exceptionId, op.reason, op.now, op.eventId)
  {
    hide ResolveChange;
  }

  lemma StepKeepsOk(s: Store, op: LedgerOp)
    requires StoreOk(s) && Admissible(s.ledger, op)
    ensures StoreOk(s.(ledger := Step(s.ledger, op)))
  {
    hide Inv, HooksOk, ReportsOk, Step, Perform, Admissible;
    StepKeepsInv(s.ledger, op);
  }

  lemma EmptyStep(l: Ledger, op: LedgerOp)
    ensures Perform(l, op).delta == EMPTY ==> Step(l, op) == l
  {
    hide Perform, Ledger.Plus;
    PlusEmpty(l);
  }

  /** What the enqueueing loop needs to know before the first event of a call. */
  lemma CallFacts(s: Store, op: LedgerOp, net: Net)
    requires StoreOk(s) && CanHappen(s, LedgerCall(op, net))
    ensures HooksOk(s.hooks) && FreshPostings(s.hooks, Perform(s.ledger, op).emitted, net)
    ensures forall i :: i in s.hooks.subscriptions ==> s.hooks.subscriptions[i].id == i
    ensures |Perform(s.ledger, op).emitted| > 0 ==> FreshPosting(s.hooks, Perform(s.ledger, op).emitted[0], net)
  {
    hide Inv, ReportsOk, Perform;
  }

  lemma EnqueueOne(h: Hooks, e: ReceiptEvent, now: Time, net: Net)
    ensures EnqueueAll(h, [e], now, net) == Enqueue(h, e, now, net)
    ensures EnqueueAll(h, [], now, net) == h
  {
    assert [e][..0] == [];
    hide Enqueue;
  }

  /** A call that writes and emits nothing leaves the store as it was. */
  lemma NothingHappens(s: Store, op: LedgerOp, net: Net)
    ensures Perform(s.ledger, op).delta == EMPTY && Perform(s.ledger, op).emitted == [] ==>
            Next(s, LedgerCall(op, net)) == s
  {
    hide Perform, Ledger.Plus, Enqueue;
    PlusEmpty(s.ledger);
  }

  lemma RegisterNext(l: Ledger, op: LedgerOp, w: Wallet)
    requires Perform(l, op).delta == EMPTY.(wallets := map[w.id := w])
    ensures Step(l, op) == l.(wallets := l.wallets[w.id := w])
  {
    hide Perform;
    PlusUntouched(l, EMPTY.(wallets := map[w.id := w]));
    MergeOne(l.wallets, w.id, w);
  }

  /** The change stores a request under a key, with its first event, and answers with it. */
  predicate Creates(c: Change, r: PaymentRequest, scope: string, body: RequestBody, e: ReceiptEvent) {
    c == Change(EMPTY.(requests := map[r.id := r],
                       idempotency := map[scope := IdempotencyRecord(body, r.id)],
                       events := map[e.id := e]),
                [e], Success(RequestStored(r, false)))
  }

  lemma CreateNext(s: Store, op: LedgerOp, net: Net, scope: string, body: RequestBody, r: PaymentRequest,
                   e: ReceiptEvent)
    requires Creates(Perform(s.ledger, op), r, scope, body, e)
    ensures Next(s, LedgerCall(op, net)) ==
            s.(ledger := s.ledger.(requests := s.ledger.requests[r.id := r],
                                   idempotency := s.ledger.idempotency[scope := IdempotencyRecord(body, r.id)],
                                   events := s.ledger.events[e.id := e]),
               hooks := Enqueue(s.hooks, e, op.now, net))
  {
    var c := Perform(s.ledger, op);
    hide Perform, Enqueue;
    EnqueueOne(s.hooks, e, op.now, net);
    PlusUntouched(s.ledger, c.delta);
    MergeOne(s.ledger.requests, r.id, r);
    MergeOne(s.ledger.idempotency, scope, IdempotencyRecord(body, r.id));
    MergeOne(s.ledger.events, e.id, e);
  }

  lemma CloseFlagNext(s: Store, op: LedgerOp, net: Net, closed: PaymentException)
    requires var c := Perform(s.ledger, op);
             c.emitted == [] && c.delta == EMPTY.(exceptions := map[closed.id := closed])
    ensures Next(s, LedgerCall(op, net)) ==
            s.(ledger := s.ledger.(exceptions := s.ledger.exceptions[closed.id := closed]))
  {
    var c := Perform(s.ledger, op);
    hide Perform, Enqueue;
    PlusUntouched(s.ledger, c.delta);
    MergeOne(s.ledger.exceptions, closed.id, closed);
  }

  /** The change closes an exception and its request, and answers with the exception. */
  predicate ClosesWith(c: Change, closed: PaymentException, r: PaymentRequest, e: ReceiptEvent) {
    c == Change(EMPTY.(exceptions := map[closed.id := closed],
                       requests := map[closed.requestId := r],
                       events := map[e.id := e]),
                [e], Success(ExceptionClosed(closed)))
  }

  lemma CloseNext(s: Store, op: LedgerOp, net: Net, closed: PaymentException, r: PaymentRequest, e: ReceiptEvent)
    requires ClosesWith(Perform(s.ledger, op), closed, r, e)
    ensures Next(s, LedgerCall(op, net)) ==
            s.(ledger := s.ledger.(exceptions := s.ledger.exceptions[closed.id := closed],
                                   requests := s.ledger.requests[closed.requestId := r],
                                   events := s.ledger.events[e.id := e]),
               hooks := Enqueue(s.hooks, e, op.now, net))
  {
    var c := Perform(s.ledger, op);
    hide Perform, Enqueue;
    EnqueueOne(s.hooks, e, op.now, net);
    PlusUntouched(s.ledger, c.delta);
    MergeOne(s.ledger.exceptions, closed.id, closed);
    MergeOne(s.ledger.requests, closed.requestId, r);
    MergeOne(s.ledger.events, e.id, e);
  }

  /** What the invariant says about an exception and the request it names. */
  lemma ExceptionNames(s: Store, id: Id)
    requires StoreOk(s) && id in s.ledger.exceptions
    ensures var x := s.ledger.exceptions[id];
            && x.id == id
            && (x.requestId != "" ==>
                x.requestId in s.ledger.requests && s.ledger.requests[x.requestId].id == x.requestId
                                      && s.ledger.requests[x.requestId].businessId == x.businessId)
  {
    hide Inv, HooksOk, ReportsOk;
    OwnerOf(s.ledger, id);
    if s.ledger.exceptions[id].requestId != "" { RequestNamedSelf(s.ledger, s.ledger.exceptions[id].requestId); }
  }

  // ---------- matching ----------

  /** The candidate list holds the requests with these identifiers, each once. */
  ghost predicate Holds(list: seq<PaymentRequest>, ids: set<Id>, rs: Requests) {
    && |list| == |ids|
    && forall i :: 0 <= i < |list| ==> list[i].id in ids && list[i].id in rs && rs[list[i].id] == list[i]
  }

  lemma HoldsNext(list: seq<PaymentRequest>, ids: set<Id>, rs: Requests, r: PaymentRequest)
    requires Holds(list, ids, rs) && r.id !in ids && r.id in rs && rs[r.id] == r
    ensures Holds(list + [r], ids + {r.id}, rs)
  {
  }

  /** A list of one holds the only candidate. */
  lemma HoldsOne(list: seq<PaymentRequest>, ids: set<Id>, rs: Requests)
    requires Holds(list, ids, rs) && |list| == 1
    ensures ids != {} && Only(ids) == list[0].id
  {
    SingleIs(ids, Only(ids));
    assert list[0].id in ids;
  }

  /** Writing four events one after the other writes their table. */
  lemma WriteFour(es: Events, events: seq<ReceiptEvent>)
    requires |events| == 4
    ensures es[events[0].id := events[0]][events[1].id := events[1]]
              [events[2].id := events[2]][events[3].id := events[3]] == es + EventTable(events)
  {
    FourEvents(events[0], events[1], events[2], events[3]);
    assert events == [events[0], events[1], events[2], events[3]];
    hide EventTable;
  }

  lemma RewriteOne<V>(m: map<string, V>, k: string, v: V)
    requires k in m && m[k] == v
    ensures m + map[k := v] == m
  {
  }

  /** In each case of the switch the recorded change is the one of that case. */
  lemma RecordSettles(l: Ledger, t: StablecoinTransaction, now: Clock, ids: IngestIds, r: Id, status: MatchStatus)
    requires t.status != PendingFinality && Decide(l.requests, t) == Settle(r, status)
    ensures r in l.requests && RecordChange(l, t, now, ids) == SettleChange(l.requests[r], t, status, now, ids)
  {
    hide Decide, SettleChange;
  }

  /** Visiting one more request: it joins the list exactly when it is a candidate. */
  lemma NextCandidates(all: set<Id>, todo: set<Id>, id: Id, list: seq<PaymentRequest>, rs: Requests)
    requires Holds(list, all - todo, rs) && id in todo && id in rs && rs[id].id == id
    ensures id in all ==> Holds(list + [rs[id]], all - (todo - {id}), rs)
    ensures id !in all ==> Holds(list, all - (todo - {id}), rs)
  {
    if id in all {
      assert all - (todo - {id}) == (all - todo) + {id};
      HoldsNext(list, all - todo, rs, rs[id]);
    } else {
      assert all - (todo - {id}) == all - todo;
    }
  }

  /** Before the first visit all lists are empty; after the last they are complete. */
  lemma NoneVisited(rs: Requests, t: StablecoinTransaction, late: bool)
    ensures Holds([], Candidates(rs, t, late) - rs.Keys, rs) && Holds([], ExactCandidates(rs, t, late) - rs.Keys, rs)
    ensures Candidates(rs, t, late) - {} == Candidates(rs, t, late)
    ensures ExactCandidates(rs, t, late) - {} == ExactCandidates(rs, t, late)
  {
    assert Candidates(rs, t, late) - rs.Keys == {};
    assert ExactCandidates(rs, t, late) - rs.Keys == {};
  }

  /** The four candidate lists of the matching loop. */
  datatype Lists4 = Lists4(active: seq<PaymentRequest>, late: seq<PaymentRequest>,
                           activeExact: seq<PaymentRequest>, lateExact: seq<PaymentRequest>)

  /** The lists hold the candidates among the requests that have been visited. */
  ghost predicate Sorted(lists: Lists4, rs: Requests, t: StablecoinTransaction, todo: set<Id>) {
    && Holds(lists.active, Candidates(rs, t, false) - todo, rs)
    && Holds(lists.late, Candidates(rs, t, true) - todo, rs)
    && Holds(lists.activeExact, ExactCandidates(rs, t, false) - todo, rs)
    && Holds(lists.lateExact, ExactCandidates(rs, t, true) - todo, rs)
  }

  lemma NoneSorted(rs: Requests, t: StablecoinTransaction)
    ensures Sorted(Lists4([], [], [], []), rs, t, rs.Keys)
  {
    NoneVisited(rs, t, false);
    NoneVisited(rs, t, true);
    hide Holds, Candidates, ExactCandidates;
  }

  lemma AllSorted(lists: Lists4, l: Ledger, t: StablecoinTransaction)
    requires Sorted(lists, l.requests, t, {})
    ensures Holds(lists.active, Candidates(l.requests, t, false), l.requests)
    ensures Holds(lists.late, Candidates(l.requests, t, true), l.requests)
    ensures Holds(lists.activeExact, ExactCandidates(l.requests, t, false), l.requests)
    ensures Holds(lists.lateExact, ExactCandidates(l.requests, t, true), l.requests)
  {
    NoneVisited(l.requests, t, false);
    NoneVisited(l.requests, t, true);
    hide Holds, Candidates, ExactCandidates;
  }

  /** Where one more request goes: its side by the time of the payment, and the exact list by the amount. */
  lemma SortedNext(lists: Lists4, rs: Requests, t: StablecoinTransaction, todo: set<Id>, r: PaymentRequest)
    requires Sorted(lists, rs, t, todo) && r.id in todo && r.id in rs && rs[r.id] == r
    ensures Sorted(if !IsCandidate(r, t) then lists
                   else if Late(r, t) then
                     lists.(late := lists.late + [r],
                            lateExact := if Exact(r, t) then lists.lateExact + [r] else lists.lateExact)
                   else
                     lists.(active := lists.active + [r],
                            activeExact := if Exact(r, t) then lists.activeExact + [r] else lists.activeExact),
                   rs, t, todo - {r.id})
  {
    NextCandidates(Candidates(rs, t, false), todo, r.id, lists.active, rs);
    NextCandidates(Candidates(rs, t, true), todo, r.id, lists.late, rs);
    NextCandidates(ExactCandidates(rs, t, false), todo, r.id, lists.activeExact, rs);
    NextCandidates(ExactCandidates(rs, t, true), todo, r.id, lists.lateExact, rs);
    CandidateLists(rs, t, r);
    hide Holds, Candidates, ExactCandidates, IsCandidate, Late, Exact;
  }

  lemma CandidateLists(rs: Requests, t: StablecoinTransaction, r: PaymentRequest)
    requires r.id in rs && rs[r.id] == r
    ensures r.id in Candidates(rs, t, false) <==> IsCandidate(r, t) && !Late(r, t)
    ensures r.id in Candidates(rs, t, true) <==> IsCandidate(r, t) && Late(r, t)
    ensures r.id in ExactCandidates(rs, t, false) <==> IsCandidate(r, t) && !Late(r, t) && Exact(r, t)
    ensures r.id in ExactCandidates(rs, t, true) <==> IsCandidate(r, t) && Late(r, t) && Exact(r, t)
  {
    hide IsCandidate, Late, Exact;
  }

  lemma SubscriptionsKeyed(h: Hooks)
    requires HooksOk(h)
    ensures forall s :: s in h.subscriptions ==> h.subscriptions[s].id == s
  {
  }

  lemma EnqueueNone(h: Hooks, now: Time, net: Net)
    ensures EnqueueAll(h, [], now, net) == h
  {
  }

  lemma RequestsKeyed(l: Ledger)
    requires RequestsOk(l.wallets, l.requests)
    ensures forall r :: r in l.requests ==> l.requests[r].id == r && l.requests[r].amount.reading.Some?
  {
    forall r | r in l.requests ensures l.requests[r].id == r && l.requests[r].amount.reading.Some? {
      assert RequestOk(l.wallets, r, l.requests[r]);
    }
  }

  /** A change that settles nothing writes only the transaction and perhaps an exception. */
  lemma NothingWritten(l: Ledger, t: StablecoinTransaction, now: Clock, ids: IngestIds, at: Ledger)
    requires t.id in at.transactions && at.transactions[t.id] == t
    ensures var c := RecordChange(l, t, now, ids);
            t.status == PendingFinality || !Decide(l.requests, t).Settle? ==>
              && at.requests + c.delta.requests == at.requests
              && at.matches + c.delta.matches == at.matches
              && at.events + c.delta.events == at.events
              && c.emitted == []
    ensures t.status == PendingFinality ==>
              && at.transactions + RecordChange(l, t, now, ids).delta.transactions == at.transactions
              && at.exceptions + RecordChange(l, t, now, ids).delta.exceptions == at.exceptions
  {
    hide Decide, SettleChange;
    MergeEmpty(at.requests, map[]);
    MergeEmpty(at.matches, map[]);
    MergeEmpty(at.events, map[]);
    MergeEmpty(at.exceptions, map[]);
    RewriteOne(at.transactions, t.id, t);
  }

  /** What the lengths and heads of the four lists say about the verdict. */
  lemma ListsDecide(l: Ledger, t: StablecoinTransaction, active: seq<PaymentRequest>, late: seq<PaymentRequest>,
                    activeExact: seq<PaymentRequest>, lateExact: seq<PaymentRequest>)
    requires Holds(active, Candidates(l.requests, t, false), l.requests)
    requires Holds(late, Candidates(l.requests, t, true), l.requests)
    requires Holds(activeExact, ExactCandidates(l.requests, t, false), l.requests)
    requires Holds(lateExact, ExactCandidates(l.requests, t, true), l.requests)
    ensures forall i :: 0 <= i < |active| ==>
            active[i].id in l.requests && l.requests[active[i].id] == active[i]
            && Compare(t.amount, active[i].amount).Success?
    ensures forall i :: 0 <= i < |late| ==> late[i].id in l.requests && l.requests[late[i].id] == late[i]
    ensures forall i :: 0 <= i < |activeExact| ==>
            activeExact[i].id in l.requests && l.requests[activeExact[i].id] == activeExact[i]
    ensures forall i :: 0 <= i < |lateExact| ==>
            lateExact[i].id in l.requests && l.requests[lateExact[i].id] == lateExact[i]
    ensures |active| == 1 && |activeExact| == 0 ==> Compare(t.amount, active[0].amount) != Success(0)
    ensures Decide(l.requests, t) ==
            if |activeExact| == 1 then Settle(activeExact[0].id, ExactMatch)
            else if |activeExact| > 1 then Ambiguous(High)
            else if |active| == 1
              then Settle(active[0].id,
                          if Compare(t.amount, active[0].amount) == Success(-1) then UnderpaidMatch else OverpaidMatch)
            else if |active| > 1 then Ambiguous(High)
            else if |lateExact| == 1 then Settle(lateExact[0].id, ExpiredMatch)
            else if |lateExact| > 1 || |late| > 1 then Ambiguous(Medium)
            else if |late| == 1 then Settle(late[0].id, ExpiredMatch)
            else Unclaimed
  {
    if |activeExact| == 1 { HoldsOne(activeExact, ExactCandidates(l.requests, t, false), l.requests); }
    if |lateExact| == 1 { HoldsOne(lateExact, ExactCandidates(l.requests, t, true), l.requests); }
    if |late| == 1 { HoldsOne(late, Candidates(l.requests, t, true), l.requests); }
    if |active| == 1 {
      HoldsOne(active, Candidates(l.requests, t, false), l.requests);
      SoleCandidateExact(l.requests, t, active[0]);
    }
    assert forall id :: id in Candidates(l.requests, t, false) ==> Compare(t.amount, l.requests[id].amount).Success?;
    hide Candidates, ExactCandidates, Compare;
  }

  lemma SoleCandidateExact(rs: Requests, t: StablecoinTransaction, r: PaymentRequest)
    requires r.id in Candidates(rs, t, false) && rs[r.id] == r
    ensures |ExactCandidates(rs, t, false)| == 0 ==> Compare(t.amount, r.amount) != Success(0)
  {
    if Compare(t.amount, r.amount) == Success(0) {
      assert r.id in ExactCandidates(rs, t, false);
    }
  }

  /** Four events enqueued one after the other. */
  lemma FourFresh(h: Hooks, events: seq<ReceiptEvent>, now: Time, net: Net)
    requires HooksOk(h) && FreshPostings(h, events, net) && |events| == 4
    ensures var h1 := Enqueue(h, events[0], now, net);
            var h2 := Enqueue(h1, events[1], now, net);
            var h3 := Enqueue(h2, events[2], now, net);
            && FreshPosting(h, events[0], net) && FreshPosting(h1, events[1], net)
            && FreshPosting(h2, events[2], net) && FreshPosting(h3, events[3], net)
            && EnqueueAll(h, events, now, net) == Enqueue(h3, events[3], now, net)
  {
    hide HooksOk, FreshPosting, FreshPostings, Enqueue;
    assert EnqueueAll(h, events[..0], now, net) == h by { assert events[..0] == []; EnqueueNone(h, now, net); }
    hide EnqueueAll;
    NextIsFresh(h, events, 0, now, net);
    NextIsFresh(h, events, 1, now, net);
    NextIsFresh(h, events, 2, now, net);
    NextIsFresh(h, events, 3, now, net);
    assert events[..4] == events;
  }

  /** The inputs of an ingestion are fresh, whichever wallet the iteration meets first. */
  ghost predicate CanIngest(s: Store, businessId: Id, e: Evidence, now: Clock, ids: IngestIds, net: Net) {
    && IsBusiness(businessId)
    && ids.transaction != "" && ids.transaction !in s.ledger.transactions
    && ids.settlement != "" && ids.settlement !in s.ledger.matches
    && ids.exception != "" && ids.exception !in s.ledger.exceptions
    && ids.detected !in s.ledger.events && ids.verified !in s.ledger.events
    && ids.matched !in s.ledger.events && ids.final !in s.ledger.events
    && Distinct4(ids.detected, ids.verified, ids.matched, ids.final)
    && forall pick :: FreshPostings(s.hooks, Perform(s.ledger, Ingest(businessId, e, pick, now, ids)).emitted, net)
  }

  /** A pick that some wallet justifies, or any when none receives the payment. */
  ghost predicate Picks(ws: Wallets, businessId: Id, e: Evidence, pick: Id) {
    if pick in ws && Receives(ws[pick], businessId, e) then true
    else forall w :: w in ws ==> !Receives(ws[w], businessId, e)
  }

  lemma PickedCanHappen(s: Store, businessId: Id, e: Evidence, now: Clock, ids: IngestIds, net: Net, pick: Id)
    requires CanIngest(s, businessId, e, now, ids, net) && Picks(s.ledger.wallets, businessId, e, pick)
    ensures Admissible(s.ledger, Ingest(businessId, e, pick, now, ids))
    ensures CanHappen(s, LedgerCall(Ingest(businessId, e, pick, now, ids), net))
  {
    hide Perform, FreshPostings, Receives, Distinct4;
  }

  lemma SomePick(ws: Wallets, businessId: Id, e: Evidence) returns (pick: Id)
    ensures Picks(ws, businessId, e, pick)
  {
    if w :| w in ws && Receives(ws[w], businessId, e) {
      pick := w;
    } else {
      pick := "";
    }
  }

  /** What the invariant says about a stored signature and its transaction. */
  lemma StoreFacts(s: Store)
    requires StoreOk(s)
    ensures RequestsOk(s.ledger.wallets, s.ledger.requests) && SignaturesOk(s.ledger.transactions, s.ledger.signatures)
    ensures HooksOk(s.hooks) && WalletsOk(s.ledger.wallets)
  {
  }

  /** A new transaction recorded and matched. */
  lemma RecordNext(s: Store, op: LedgerOp, net: Net, t: StablecoinTransaction)
    requires op.Ingest? && Perform(s.ledger, op) == RecordChange(s.ledger, t, op.now, op.ids)
    ensures var c := RecordChange(s.ledger, t, op.now, op.ids);
            && c.delta.signatures == map[ScopeOf(t) := t.id]
            && s.ledger.transactions[t.id := t] + c.delta.transactions == s.ledger.transactions + c.delta.transactions
            && Next(s, LedgerCall(op, net)) ==
                s.(ledger := s.ledger.(requests := s.ledger.requests + c.delta.requests,
                                       transactions := s.ledger.transactions + c.delta.transactions,
                                       signatures := s.ledger.signatures[ScopeOf(t) := t.id],
                                       matches := s.ledger.matches + c.delta.matches,
                                       exceptions := s.ledger.exceptions + c.delta.exceptions,
                                       events := s.ledger.events + c.delta.events),
                   hooks := EnqueueAll(s.hooks, c.emitted, op.now, net))
  {
    var c := RecordChange(s.ledger, t, op.now, op.ids);
    RecordShape(s.ledger, t, op.now, op.ids);
    hide Perform, RecordChange, EnqueueAll, ScopeOf;
    PlusUntouched(s.ledger, c.delta);
    MergeOne(s.ledger.signatures, ScopeOf(t), t.id);
    OverwriteOne(s.ledger.transactions, t.id, t, c.delta.transactions);
  }

  lemma RecordShape(l: Ledger, t: StablecoinTransaction, now: Clock, ids: IngestIds)
    ensures var c := RecordChange(l, t, now, ids);
            && c.delta.wallets == map[] && c.delta.idempotency == map[]
            && c.delta.signatures == map[ScopeOf(t) := t.id] && t.id in c.delta.transactions
            && c.result.Success? && c.result.value.Ingested? && !c.result.value.replayed
            && c.delta.transactions == map[t.id := c.result.value.transaction]
  {
    hide Decide, EventTable, SettlementEvents, ScopeOf;
  }

  lemma OverwriteOne<V>(m: map<string, V>, k: string, v: V, d: map<string, V>)
    requires k in d
    ensures m[k := v] + d == m + d
  {
  }

  /** The accepting path of an ingestion records a new transaction. */
  lemma IngestRecords(s: Store, businessId: Id, e: Evidence, walletId: Id, now: Clock, ids: IngestIds, net: Net)
    requires StoreOk(s) && ValidEvidence(e) && CanHappen(s, LedgerCall(Ingest(businessId, e, walletId, now, ids), net))
    requires walletId in s.ledger.wallets && Receives(s.ledger.wallets[walletId], businessId, e)
    requires SignatureScope(businessId, e.chain, e.signature) !in s.ledger.signatures
    ensures var t := NewTransaction(businessId, e, walletId, now, ids.transaction);
            && ScopeOf(t) == SignatureScope(businessId, e.chain, e.signature)
            && Valid(t.amount) && t.status in {PendingFinality, ConfirmedOnchain}
            && Perform(s.ledger, Ingest(businessId, e, walletId, now, ids)) == RecordChange(s.ledger, t, now, ids)
            && RequestsOk(s.ledger.wallets, s.ledger.requests) && HooksOk(s.hooks)
            && FreshPostings(s.hooks, RecordChange(s.ledger, t, now, ids).emitted, net)
  {
    var t := NewTransaction(businessId, e, walletId, now, ids.transaction);
    assert Perform(s.ledger, Ingest(businessId, e, walletId, now, ids)) == RecordChange(s.ledger, t, now, ids);
    StoreFacts(s);
    CallFacts(s, Ingest(businessId, e, walletId, now, ids), net);
    hide StoreOk, CanHappen, RecordChange, Perform, HooksOk, FreshPostings, RequestsOk, SignaturesOk, WalletsOk,
         Receives;
  }
}
