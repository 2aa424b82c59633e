/** Receipt timelines: sorted by time, rank and identifier, and what that order spells. */
module Receipts {
  import opened Finite
  import opened Models
  import opened LedgerModel
  import opened LedgerInvariant
  import opened LedgerSteps
  import opened History

  /** receiptEventRank */
  function Rank(kind: EventType): int {
    match kind
    case RequestCreated => 10
    case PaymentDetected => 20
    case TransactionVerified => 30
    case TransactionMatched => 40
    case PaymentConfirmed => 50
    case PaymentExceptioned => 60
    case ExceptionResolved => 70
  }

  /** The comparator of sortReceiptEventsChronologically. */
  predicate EventLess(a: ReceiptEvent, b: ReceiptEvent) {
    a.createdAt < b.createdAt
    || (a.createdAt == b.createdAt && KeyLess(Rank(a.kind), a.id, Rank(b.kind), b.id))
  }

  datatype Receipt = Receipt(request: PaymentRequest, events: seq<ReceiptEvent>)

  /** The events that receiptEventsForRequestLocked collects. */
  ghost function EventsOfRequest(es: Events, businessId: Id, requestId: Id): set<ReceiptEvent> {
    set id | id in es && es[id].businessId == businessId && es[id].requestId == requestId :: es[id]
  }

  /** The comparator is a strict order that separates any two events of a table. */
  lemma EventOrder(es: Events, businessId: Id, requestId: Id)
    requires forall id :: id in es ==> es[id].id == id
    ensures StrictOrder(EventLess)
    ensures TotalOn(EventsOfRequest(es, businessId, requestId), EventLess)
  {
    forall a: ReceiptEvent, b: ReceiptEvent, c: ReceiptEvent
      ensures !EventLess(a, a)
      ensures EventLess(a, b) && EventLess(b, c) ==> EventLess(a, c)
      ensures a.id != b.id ==> EventLess(a, b) || EventLess(b, a)
    {
      KeyLessStrict(Rank(a.kind), a.id, Rank(b.kind), b.id, Rank(c.kind), c.id);
    }
  }

  /** However the event table is iterated, there is one receipt. */
  lemma ReceiptIsDetermined(es: Events, businessId: Id, requestId: Id, s: seq<ReceiptEvent>, t: seq<ReceiptEvent>)
    requires forall id :: id in es ==> es[id].id == id
    requires SortedListing(s, EventsOfRequest(es, businessId, requestId), EventLess)
    requires SortedListing(t, EventsOfRequest(es, businessId, requestId), EventLess)
    ensures s == t
  {
    EventOrder(es, businessId, requestId);
    SortedListingUnique(s, t, EventsOfRequest(es, businessId, requestId), EventLess);
  }

  // ---------- the story a receipt tells ----------

  /** The receipt of a request in this status, oldest event first. */
  function Story(status: PaymentStatus): seq<EventType> {
    match status
    case AwaitingPayment => [RequestCreated]
    case Confirmed => [RequestCreated, PaymentDetected, TransactionVerified, TransactionMatched, PaymentConfirmed]
    case ManuallyResolved =>
      [RequestCreated, PaymentDetected, TransactionVerified, TransactionMatched, PaymentExceptioned, ExceptionResolved]
    case _ => [RequestCreated, PaymentDetected, TransactionVerified, TransactionMatched, PaymentExceptioned]
  }

  lemma StoryIsExpected(status: PaymentStatus)
    ensures forall kind :: kind in Story(status) <==> Expected(status, kind)
    ensures forall i, j :: 0 <= i < j < |Story(status)| ==> Rank(Story(status)[i]) < Rank(Story(status)[j])
  {
    forall kind ensures kind in Story(status) <==> Expected(status, kind) {
      match status
      case AwaitingPayment => assert Story(status)[0] == RequestCreated;
      case Confirmed => assert Story(status)[0] == RequestCreated && Story(status)[4] == PaymentConfirmed;
      case ManuallyResolved => assert Story(status)[5] == ExceptionResolved && Story(status)[4] == PaymentExceptioned;
      case _ => assert Story(status)[4] == PaymentExceptioned;
    }
  }

  /** When the event of each kind happened to a request, given when it was settled. */
  function EventTime(r: PaymentRequest, settledAt: Time, kind: EventType): Time {
    match kind
    case RequestCreated => r.createdAt
    case ExceptionResolved => r.updatedAt
    case _ => settledAt
  }

  function Kinds(s: seq<ReceiptEvent>): (kinds: seq<EventType>)
    ensures |kinds| == |s| && forall i :: 0 <= i < |s| ==> kinds[i] == s[i].kind
  {
    seq(|s|, i requires 0 <= i < |s| => s[i].kind)
  }

  /** The settlement time of a settled request. */
  ghost predicate SettledAt(ms: Matches, r: Id, time: Time) {
    exists m, t :: Ties(ms, m, r, t) && ms[m].createdAt == time
  }

  /** The clock never ran backwards over this request's life. */
  predicate InOrder(r: PaymentRequest, settledAt: Time) {
    r.status != AwaitingPayment ==>
      r.createdAt <= settledAt && (r.status == ManuallyResolved ==> settledAt <= r.updatedAt)
  }

  /** The part of the invariant that receipts rest on. */
  ghost predicate Recorded(rs: Requests, ms: Matches, es: Events) {
    && EventsOk(rs, ms, es) && EventsUnique(es) && EventsCover(rs, es) && MatchesUnique(ms)
  }

  /** Each stored event of a request carries the time of its kind. */
  lemma EventTimes(rs: Requests, ms: Matches, es: Events, id: Id, settledAt: Time)
    requires EventsOk(rs, ms, es) && MatchesUnique(ms) && id in es
    requires es[id].requestId in rs && rs[es[id].requestId].status != AwaitingPayment ==>
             SettledAt(ms, es[id].requestId, settledAt)
    ensures es[id].requestId in rs
    ensures es[id].createdAt == EventTime(rs[es[id].requestId], settledAt, es[id].kind)
  {
    var e := es[id];
    assert EventOk(rs, ms, id, e);
    hide EventsOk;
    if e.kind !in {RequestCreated, ExceptionResolved} {
      var m :| Ties(ms, m, e.requestId, e.transactionId) && e.createdAt == ms[m].createdAt;
      var n, t :| Ties(ms, n, e.requestId, t) && ms[n].createdAt == settledAt;
      assert m == n;
    }
  }

  /** The events of a request in the order of its story. */
  ghost function Told(rs: Requests, es: Events, r: Id, kinds: seq<EventType>): (s: seq<ReceiptEvent>)
    requires EventsCover(rs, es) && r in rs
    requires forall i :: 0 <= i < |kinds| ==> Expected(rs[r].status, kinds[i])
    ensures |s| == |kinds|
    ensures forall i :: 0 <= i < |s| ==> s[i].kind == kinds[i] && exists id ::
            Records(es, id, r, kinds[i]) && s[i] == es[id]
  {
    if kinds == [] then []
    else
      var last := kinds[|kinds| - 1];
      assert Expected(rs[r].status, last);
      var id :| Records(es, id, r, last);
      Told(rs, es, r, kinds[..|kinds| - 1]) + [es[id]]
  }

  /** What the events table says about its requests. */
  ghost predicate Belong(rs: Requests, es: Events) {
    forall id :: id in es ==> es[id].requestId in rs && es[id].businessId == rs[es[id].requestId].businessId
                              && Expected(rs[es[id].requestId].status, es[id].kind)
  }

  lemma EventsBelong(rs: Requests, ms: Matches, es: Events)
    requires EventsOk(rs, ms, es)
    ensures Belong(rs, es)
  {
    forall id | id in es ensures EventOk(rs, ms, id, es[id]) {
    }
    hide EventsOk, Expected;
  }

  /** s holds an event of each of these kinds, in this order. */
  ghost predicate Tells(es: Events, r: Id, kinds: seq<EventType>, s: seq<ReceiptEvent>) {
    |s| == |kinds| && forall i :: 0 <= i < |s| ==> exists id :: Records(es, id, r, kinds[i]) && s[i] == es[id]
  }

  lemma StoredIsTold(rs: Requests, es: Events, r: Id, kinds: seq<EventType>, s: seq<ReceiptEvent>, id: Id)
    requires Belong(rs, es) && EventsUnique(es) && id in es && es[id].requestId == r && Tells(es, r, kinds, s)
    requires forall kind :: Expected(rs[r].status, kind) ==> kind in kinds
    ensures es[id] in s
  {
    hide Expected;
    assert Expected(rs[r].status, es[id].kind);
    var i :| 0 <= i < |kinds| && kinds[i] == es[id].kind;
    var other :| Records(es, other, r, kinds[i]) && s[i] == es[other];
    assert other == id;
  }

  lemma ToldIsStored(rs: Requests, es: Events, r: Id, kinds: seq<EventType>, s: seq<ReceiptEvent>, e: ReceiptEvent)
    requires Belong(rs, es) && r in rs && Tells(es, r, kinds, s) && e in s
    ensures e in EventsOfRequest(es, rs[r].businessId, r)
  {
    hide Expected;
    var i :| 0 <= i < |s| && s[i] == e;
    var id :| Records(es, id, r, kinds[i]) && s[i] == es[id];
  }

  /** They are all its events. */
  lemma ToldIsComplete(rs: Requests, ms: Matches, es: Events, r: Id)
    requires Recorded(rs, ms, es) && r in rs
    requires forall i :: 0 <= i < |Story(rs[r].status)| ==> Expected(rs[r].status, Story(rs[r].status)[i])
    ensures Elements(Told(rs, es, r, Story(rs[r].status))) == EventsOfRequest(es, rs[r].businessId, r)
  {
    var story := Story(rs[r].status);
    var s := Told(rs, es, r, story);
    StoryIsExpected(rs[r].status);
    EventsBelong(rs, ms, es);
    assert EventsUnique(es) && Tells(es, r, story, s);
    hide Story, Recorded, Told, Tells, EventsUnique, Belong, Expected;
    forall id | id in es && es[id].requestId == r ensures es[id] in s { StoredIsTold(rs, es, r, story, s, id); }
    forall e | e in s ensures e in EventsOfRequest(es, rs[r].businessId, r) { ToldIsStored(rs, es, r, story, s, e); }
  }

  lemma ToldTimes(rs: Requests, ms: Matches, es: Events, r: Id, settledAt: Time, s: seq<ReceiptEvent>)
    requires Recorded(rs, ms, es) && r in rs
    requires rs[r].status != AwaitingPayment ==> SettledAt(ms, r, settledAt)
    requires Elements(s) == EventsOfRequest(es, rs[r].businessId, r)
    ensures forall i :: 0 <= i < |s| ==> s[i].createdAt == EventTime(rs[r], settledAt, s[i].kind)
  {
    forall i | 0 <= i < |s| ensures s[i].createdAt == EventTime(rs[r], settledAt, s[i].kind) {
      assert s[i] in Elements(s);
      var id :| id in es && es[id] == s[i] && es[id].requestId == r;
      EventTimes(rs, ms, es, id, settledAt);
    }
  }

  /**
   The receipt of every request tells the story of its status, in order, exactly when the
   clock readings behind it did not run backwards.
   */
  lemma ReceiptTellsStory(l: Ledger, r: Id, settledAt: Time, receipt: seq<ReceiptEvent>)
    requires Inv(l) && r in l.requests
    requires l.requests[r].status != AwaitingPayment ==> SettledAt(l.matches, r, settledAt)
    requires SortedListing(receipt, EventsOfRequest(l.events, l.requests[r].businessId, r), EventLess)
    ensures Kinds(receipt) == Story(l.requests[r].status) <==> InOrder(l.requests[r], settledAt)
  {
    assert forall id :: id in l.events ==> EventOk(l.requests, l.matches, id, l.events[id]);
    assert RequestOk(l.wallets, r, l.requests[r]);
    hide RequestOk, EventOk, EventLess, EventsOfRequest, InOrder, SettledAt;
    hide WalletsOk, RequestsOk, TransactionsOk, SignaturesOk, MatchesOk, MatchesUnique, MatchesCover, ExceptionsOk,
         ExceptionsUnique, ExceptionsCover, EventsOk, EventsUnique, EventsCover, IdempotencyOk;
    if InOrder(l.requests[r], settledAt) {
      OrderGivesStory(l.requests, l.matches, l.events, r, settledAt, receipt);
    }
    if Kinds(receipt) == Story(l.requests[r].status) {
      ToldTimes(l.requests, l.matches, l.events, r, settledAt, receipt);
      StoryNeedsOrder(l.requests[r], settledAt, receipt);
    }
  }

  lemma OrderGivesStory(rs: Requests, ms: Matches, es: Events, r: Id, settledAt: Time, receipt: seq<ReceiptEvent>)
    requires Recorded(rs, ms, es) && r in rs
    requires forall id :: id in es ==> es[id].id == id
    requires rs[r].status != AwaitingPayment ==> SettledAt(ms, r, settledAt)
    requires SortedListing(receipt, EventsOfRequest(es, rs[r].businessId, r), EventLess)
    requires InOrder(rs[r], settledAt)
    ensures Kinds(receipt) == Story(rs[r].status)
  {
    assert EventsCover(rs, es);
    hide Recorded, EventsCover, EventLess, SettledAt, InOrder, EventsOfRequest, StrictOrder;
    var request, story := rs[r], Story(rs[r].status);
    StoryIsExpected(request.status);
    hide Expected, Story;
    var told := Told(rs, es, r, story);
    ToldIsComplete(rs, ms, es, r);
    ToldTimes(rs, ms, es, r, settledAt, told);
    assert Kinds(told) == story;
    OrderedStoryAscends(request, settledAt, told);
    ReceiptIsDetermined(es, request.businessId, r, receipt, told);
  }

  /** A receipt that tells the story in order witnesses the order of its times. */
  lemma StoryNeedsOrder(request: PaymentRequest, settledAt: Time, receipt: seq<ReceiptEvent>)
    requires Ascending(receipt, EventLess) && Kinds(receipt) == Story(request.status)
    requires forall i :: 0 <= i < |receipt| ==> receipt[i].createdAt == EventTime(request, settledAt, receipt[i].kind)
    requires request.status != ExceptionHold
    ensures InOrder(request, settledAt)
  {
    if request.status != AwaitingPayment {
      assert Kinds(receipt)[0] == RequestCreated && Kinds(receipt)[1] == PaymentDetected;
      assert EventLess(receipt[0], receipt[1]);
      if request.status == ManuallyResolved {
        assert Kinds(receipt)[4] == PaymentExceptioned && Kinds(receipt)[5] == ExceptionResolved;
        assert EventLess(receipt[4], receipt[5]);
      }
    }
  }

  /** With ordered times the story is strictly ascending, ties being broken by rank. */
  lemma OrderedStoryAscends(request: PaymentRequest, settledAt: Time, told: seq<ReceiptEvent>)
    requires InOrder(request, settledAt) && Kinds(told) == Story(request.status)
    requires forall i :: 0 <= i < |told| ==> told[i].createdAt == EventTime(request, settledAt, told[i].kind)
    ensures Ascending(told, EventLess)
  {
    StoryIsExpected(request.status);
    forall i, j | 0 <= i < j < |told| ensures EventLess(told[i], told[j]) {
      var a, b := Kinds(told)[i], Kinds(told)[j];
      assert Rank(a) < Rank(b);
      assert EventTime(request, settledAt, a) <= EventTime(request, settledAt, b);
    }
  }

  // ---------- runs with a clock that does not run backwards ----------

  /** The clock readings, in the order in which the operations took the lock, never decrease. */
  predicate Nondecreasing(ops: seq<LedgerOp>) {
    forall i, j :: 0 <= i < j < |ops| ==> ops[i].now <= ops[j].now
  }

  ghost predicate UpTo(rs: Requests, ms: Matches, now: Time) {
    && (forall r :: r in rs ==> rs[r].createdAt <= now && rs[r].updatedAt <= now)
    && (forall m :: m in ms ==> ms[m].createdAt <= now)
  }

  ghost predicate Timely(rs: Requests, ms: Matches) {
    forall m :: m in ms && ms[m].requestId in rs ==>
      rs[ms[m].requestId].createdAt <= ms[m].createdAt <= rs[ms[m].requestId].updatedAt
  }

  /** Everything an operation writes carries its clock reading. */
  ghost predicate Stamped(l: Ledger, d: Ledger, now: Time) {
    && (forall r :: r in d.requests ==> d.requests[r].updatedAt == now)
    && (forall r :: r in d.requests ==>
        d.requests[r].createdAt == (if r in l.requests then l.requests[r].createdAt else now))
    && (forall m :: m in d.matches ==> d.matches[m].createdAt == now && d.matches[m].requestId in d.requests)
  }

  lemma StampedKeepsTimely(rs: Requests, ms: Matches, drs: Requests, dms: Matches, before: Time, now: Time)
    requires Timely(rs, ms) && UpTo(rs, ms, before) && before <= now
    requires forall r :: r in drs ==>
             drs[r].updatedAt == now && drs[r].createdAt == (if r in rs then rs[r].createdAt else now)
    requires forall m :: m in dms ==> dms[m].createdAt == now && dms[m].requestId in drs
    requires forall m :: m in ms ==> ms[m].requestId in rs
    ensures Timely(rs + drs, ms + dms) && UpTo(rs + drs, ms + dms, now)
  {
  }

  lemma RecordStamped(l: Ledger, t: StablecoinTransaction, now: Clock, ids: IngestIds)
    requires RequestsOk(l.wallets, l.requests)
    ensures Stamped(l, RecordChange(l, t, now, ids).delta, now)
  {
    DecideCandidate(l.requests, t);
    if Decide(l.requests, t).Settle? {
      var r := Decide(l.requests, t).requestId;
      assert RequestOk(l.wallets, r, l.requests[r]);
    }
    hide RequestsOk, RequestOk, Decide, EventTable, SettlementEvents, ScopeOf, IsCandidate;
  }

  lemma StepStamped(l: Ledger, op: LedgerOp)
    requires RequestsOk(l.wallets, l.requests) && Admissible(l, op)
    ensures Stamped(l, Perform(l, op).delta, op.now)
  {
    match op {
      case Ingest(_, _, _, _, _) => hide *; IngestStamped(l, op);
      case RegisterWallet(_, _, _, _, _, _) => hide RequestsOk, ValidAddress;
      case CreateRequest(_, _, _, _, _, _, _) => hide RequestsOk, ValidBody, IdempotencyScope;
      case ResolveException(_, _, _, _, _, _) => hide RequestsOk;
    }
  }

  lemma IngestStamped(l: Ledger, op: LedgerOp)
    requires op.Ingest? && RequestsOk(l.wallets, l.requests) && Admissible(l, op)
    ensures Stamped(l, Perform(l, op).delta, op.now)
  {
    hide RequestsOk, ValidEvidence, RecordChange, SameEvidence, SignatureScope, Receives;
    RecordStamped(l, NewTransaction(op.businessId, op.evidence, op.pick, op.now, op.ids.transaction), op.now, op.ids);
  }

  lemma {:induction false} ClockedRunIsTimely(l: Ledger, ops: seq<LedgerOp>, start: Time)
    requires Inv(l) && AdmissibleRun(l, ops) && Nondecreasing(ops)
    requires Timely(l.requests, l.matches) && UpTo(l.requests, l.matches, start)
    requires forall i :: 0 <= i < |ops| ==> start <= ops[i].now
    ensures Timely(Run(l, ops).requests, Run(l, ops).matches)
    ensures UpTo(Run(l, ops).requests, Run(l, ops).matches, if ops == [] then start else ops[|ops| - 1].now)
    decreases |ops|
  {
    hide Inv, Admissible, Perform, Timely, UpTo;
    if ops != [] {
      var n := |ops| - 1;
      ClockedRunIsTimely(l, ops[..n], start);
      RunKeepsInv(l, ops[..n]);
      var mid, op := Run(l, ops[..n]), ops[n];
      MatchesHaveRequests(mid);
      StepStamped(mid, op);
      var d := Perform(mid, op).delta;
      StampedKeepsTimely(mid.requests, mid.matches, d.requests, d.matches, if n == 0 then start else ops[n - 1].now,
                         op.now);
    }
  }

  lemma MatchesHaveRequests(l: Ledger)
    requires Inv(l)
    ensures RequestsOk(l.wallets, l.requests)
    ensures forall m :: m in l.matches ==> l.matches[m].requestId in l.requests
    ensures Recorded(l.requests, l.matches, l.events)
    ensures forall id :: id in l.events ==> l.events[id].id == id
  {
    forall m | m in l.matches ensures l.matches[m].requestId in l.requests {
      assert MatchOk(l.requests, l.transactions, m, l.matches[m]);
    }
    forall id | id in l.events ensures l.events[id].id == id {
      assert EventOk(l.requests, l.matches, id, l.events[id]);
    }
    hide RequestsOk, MatchesOk, EventsOk, EventsUnique, EventsCover, MatchesUnique;
  }

  /** The empty store satisfies the hypotheses of the two theorems below. */
  lemma EmptyTimely()
    ensures Inv(EMPTY) && Timely(EMPTY.requests, EMPTY.matches) && UpTo(EMPTY.requests, EMPTY.matches, ZERO_TIME)
  {
    EmptyInv();
  }

  /** Under a clock that never runs backwards, every receipt tells the story of its request. */
  lemma ClockedReceipts(l: Ledger, ops: seq<LedgerOp>, start: Time, r: Id, receipt: seq<ReceiptEvent>)
    requires Inv(l) && AdmissibleRun(l, ops) && Nondecreasing(ops)
    requires Timely(l.requests, l.matches) && UpTo(l.requests, l.matches, start)
    requires forall i :: 0 <= i < |ops| ==> start <= ops[i].now
    requires r in Run(l, ops).requests
    requires SortedListing(receipt, EventsOfRequest(Run(l, ops).events, Run(l, ops).requests[r].businessId, r),
                           EventLess)
    ensures Kinds(receipt) == Story(Run(l, ops).requests[r].status)
  {
    hide Run, AdmissibleRun, Inv, Timely, UpTo, SortedListing, EventsOfRequest, Nondecreasing;
    RunKeepsInv(l, ops);
    ClockedRunIsTimely(l, ops, start);
    TimelyReceipt(Run(l, ops), r, receipt);
  }

  lemma TimelyReceipt(l: Ledger, r: Id, receipt: seq<ReceiptEvent>)
    requires Inv(l) && Timely(l.requests, l.matches) && r in l.requests
    requires SortedListing(receipt, EventsOfRequest(l.events, l.requests[r].businessId, r), EventLess)
    ensures Kinds(receipt) == Story(l.requests[r].status)
  {
    var settledAt := ZERO_TIME;
    if l.requests[r].status != AwaitingPayment {
      assert MatchesCover(l.requests, l.transactions, l.matches);
      var m, t :| Ties(l.matches, m, r, t);
      settledAt := l.matches[m].createdAt;
      assert SettledAt(l.matches, r, settledAt);
    }
    hide Inv, SortedListing, EventsOfRequest;
    ReceiptTellsStory(l, r, settledAt, receipt);
  }

  /** A status that may follow another continues its story. */
  lemma StoriesContinue(before: PaymentStatus, after: PaymentStatus)
    requires MayBecome(before, after) && before != ExceptionHold
    ensures Story(before) <= Story(after)
  {
  }

  /** Later receipts only append to earlier ones, whatever was ingested or resolved in between. */
  lemma ReceiptsOnlyGrow(l: Ledger, ops: seq<LedgerOp>, start: Time, r: Id, earlier: seq<ReceiptEvent>,
                         later: seq<ReceiptEvent>)
    requires Inv(l) && AdmissibleRun(l, ops) && Nondecreasing(ops)
    requires Timely(l.requests, l.matches) && UpTo(l.requests, l.matches, start)
    requires forall i :: 0 <= i < |ops| ==> start <= ops[i].now
    requires r in l.requests && r in Run(l, ops).requests
    requires SortedListing(earlier, EventsOfRequest(l.events, l.requests[r].businessId, r), EventLess)
    requires SortedListing(later, EventsOfRequest(Run(l, ops).events, Run(l, ops).requests[r].businessId, r), EventLess)
    ensures earlier <= later
  {
    hide SortedListing, EventsOfRequest, Timely, UpTo;
    var l' := Run(l, ops);
    RunKeepsInv(l, ops);
    RunEvolves(l, ops);
    ClockedRunIsTimely(l, ops, start);
    hide Run, AdmissibleRun, Nondecreasing;
    TimelyReceipt(l, r, earlier);
    TimelyReceipt(l', r, later);
    MatchesHaveRequests(l');
    InvStatus(l, r);
    hide Inv;
    EvolvesReceipts(l, l', r);
    StoriesContinue(l.requests[r].status, l'.requests[r].status);
    AppendedReceipt(l.events, l'.events, l.requests[r].businessId, r, earlier, later);
  }

  lemma InvStatus(l: Ledger, r: Id)
    requires Inv(l) && r in l.requests
    ensures l.requests[r].status != ExceptionHold
  {
    assert RequestOk(l.wallets, r, l.requests[r]);
  }

  lemma EvolvesReceipts(l: Ledger, l': Ledger, r: Id)
    requires Evolves(l, l') && r in l.requests
    ensures Kept(l.events, l'.events)
    ensures r in l'.requests && MayBecome(l.requests[r].status, l'.requests[r].status)
    ensures l'.requests[r].businessId == l.requests[r].businessId
  {
    assert RequestEvolves(l.requests[r], l'.requests[r]);
  }

  lemma AppendedReceipt(es: Events, es': Events, b: Id, r: Id, earlier: seq<ReceiptEvent>, later: seq<ReceiptEvent>)
    requires Kept(es, es') && EventsUnique(es')
    requires SortedListing(earlier, EventsOfRequest(es, b, r), EventLess)
    requires SortedListing(later, EventsOfRequest(es', b, r), EventLess)
    requires Kinds(earlier) <= Kinds(later)
    ensures earlier <= later
  {
    forall i | 0 <= i < |earlier| ensures earlier[i] == later[i] {
      assert earlier[i] in Elements(earlier) && later[i] in Elements(later);
      var x :| x in es && es[x].requestId == r && es[x] == earlier[i];
      var y :| y in es' && es'[y].requestId == r && es'[y] == later[i];
      assert Kinds(earlier)[i] == Kinds(later)[i];
      assert x == y;
    }
  }
}
