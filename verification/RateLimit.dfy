/** The fixed-window rate limiter of internal/api/server.go. */
module RateLimit {
  import opened Models

  datatype Window = Window(count: int, resetAt: Time)

  /** The window that a request at this time is counted in, after counting it. */
  function Counted(windows: map<string, Window>, key: string, now: Clock): Window {
    var w := if key in windows then windows[key] else Window(0, ZERO_TIME);
    var current := if w.resetAt == ZERO_TIME || now >= w.resetAt then Window(0, now + MINUTE) else w;
    current.(count := current.count + 1)
  }

  class Limiter {
    var windows: map<string, Window>

    constructor ()
      ensures windows == map[]
    {
      windows := map[];
    }

    /** allowRequest, with the limit already looked up; `later` is the clock that time.Until reads. */
    method AllowRequest(key: string, limit: int, now: Clock, later: Clock) returns (allowed: bool, retryAfter: int)
      modifies this
      ensures windows == old(windows)[key := Counted(old(windows), key, now)]
      ensures allowed <==> windows[key].count <= limit
      ensures allowed ==> retryAfter == 0
      ensures !allowed && windows[key].resetAt - later >= SECOND ==>
                later + retryAfter * SECOND <= windows[key].resetAt < later + (retryAfter + 1) * SECOND
      ensures !allowed && windows[key].resetAt - later < SECOND ==> retryAfter == 1
    {
      var window := if key in windows then windows[key] else Window(0, ZERO_TIME);
      if window.resetAt == ZERO_TIME || now >= window.resetAt {
        window := Window(0, now + MINUTE);
      }
      window := window.(count := window.count + 1);
      windows := windows[key := window];
      if window.count > limit {
        retryAfter := if window.resetAt >= later then (window.resetAt - later) / SECOND else 0;
        if retryAfter < 1 {
          retryAfter := 1;
        }
        return false, retryAfter;
      }
      return true, 0;
    }
  }

  // ---------- request sequences ----------

  datatype Request = Request(key: string, limit: int, now: Clock)

  /** The windows after a sequence of requests to a new limiter. */
  function After(reqs: seq<Request>): map<string, Window>
    decreases |reqs|
  {
    if reqs == [] then map[]
    else
      var last := reqs[|reqs| - 1];
      var before := After(reqs[..|reqs| - 1]);
      before[last.key := Counted(before, last.key, last.now)]
  }

  /** The window in which request i was counted, as it was just afterwards. */
  function Stamp(reqs: seq<Request>, i: nat): Window
    requires i < |reqs|
  {
    Counted(After(reqs[..i]), reqs[i].key, reqs[i].now)
  }

  predicate Allowed(reqs: seq<Request>, i: nat)
    requires i < |reqs|
  {
    Stamp(reqs, i).count <= reqs[i].limit
  }

  predicate ClockRuns(reqs: seq<Request>) {
    forall i, j :: 0 <= i < j < |reqs| ==> reqs[i].now <= reqs[j].now
  }

  lemma AfterNext(reqs: seq<Request>, n: nat)
    requires n < |reqs|
    ensures After(reqs[..n + 1]) == After(reqs[..n])[reqs[n].key := Stamp(reqs, n)]
  {
    assert reqs[..n + 1][..n] == reqs[..n];
  }

  /** Windows were opened by an earlier request, so they start no later than the last one. */
  lemma {:induction false} WindowsStarted(reqs: seq<Request>, n: nat, key: string, now: Time)
    requires ClockRuns(reqs) && n <= |reqs|
    requires forall i :: 0 <= i < n ==> reqs[i].now <= now
    requires key in After(reqs[..n])
    ensures After(reqs[..n])[key].count >= 1
    ensures ZERO_TIME < After(reqs[..n])[key].resetAt <= now + MINUTE
    decreases n
  {
    if n > 0 {
      AfterNext(reqs, n - 1);
      if key != reqs[n - 1].key {
        WindowsStarted(reqs, n - 1, key, now);
      } else if key in After(reqs[..n - 1]) {
        WindowsStarted(reqs, n - 1, key, now);
      }
    }
  }

  /** A request lies in the minute that ends when its window resets. */
  lemma StampBounds(reqs: seq<Request>, i: nat)
    requires ClockRuns(reqs) && i < |reqs|
    ensures Stamp(reqs, i).count >= 1
    ensures Stamp(reqs, i).resetAt - MINUTE <= reqs[i].now < Stamp(reqs, i).resetAt
  {
    if reqs[i].key in After(reqs[..i]) {
      WindowsStarted(reqs, i, reqs[i].key, reqs[i].now);
    }
  }

  /** Later windows of the key: the same one counted further, or one opened after it ended. */
  predicate Follows(earlier: Window, later: Window) {
    || (later.resetAt == earlier.resetAt && later.count >= earlier.count)
    || later.resetAt - MINUTE >= earlier.resetAt
  }

  lemma {:induction false} WindowFollows(reqs: seq<Request>, i: nat, n: nat)
    requires ClockRuns(reqs) && i < n <= |reqs|
    ensures reqs[i].key in After(reqs[..n]) && Follows(Stamp(reqs, i), After(reqs[..n])[reqs[i].key])
    decreases n
  {
    AfterNext(reqs, n - 1);
    if n - 1 > i {
      WindowFollows(reqs, i, n - 1);
      WindowsStarted(reqs, n - 1, reqs[i].key, reqs[n - 1].now);
      hide ClockRuns;
    }
  }

  /** Of two requests of one key, the later was counted further in the same window or in a later one. */
  lemma StampsFollow(reqs: seq<Request>, i: nat, j: nat)
    requires ClockRuns(reqs) && i < j < |reqs| && reqs[i].key == reqs[j].key
    ensures var a, b := Stamp(reqs, i), Stamp(reqs, j);
            (b.resetAt == a.resetAt && b.count > a.count) || b.resetAt - MINUTE >= a.resetAt
  {
    WindowFollows(reqs, i, j);
    WindowsStarted(reqs, j, reqs[i].key, reqs[j].now);
    hide ClockRuns;
  }

  // ---------- the bounds ----------

  /** The allowed requests of a key that were counted in the window ending at resetAt. */
  ghost function AllowedInWindow(reqs: seq<Request>, key: string, resetAt: Time): set<nat> {
    set i: nat | i < |reqs| && reqs[i].key == key && Allowed(reqs, i) && Stamp(reqs, i).resetAt == resetAt
  }

  /** The allowed requests of a key in the minute that starts at `from`, both ends included. */
  ghost function AllowedInMinute(reqs: seq<Request>, key: string, from: Time): set<nat> {
    set i: nat | i < |reqs| && reqs[i].key == key && Allowed(reqs, i) && from <= reqs[i].now <= from + MINUTE
  }

  /** An injection into 1..limit bounds a set. */
  lemma {:induction false} BoundedBy(s: set<nat>, rank: nat -> int, limit: nat)
    requires forall i :: i in s ==> 1 <= rank(i) <= limit
    requires forall i, j :: i in s && j in s && rank(i) == rank(j) ==> i == j
    ensures |s| <= limit
    decreases limit
  {
    if limit == 0 {
      assert s == {};
    } else if i :| i in s && rank(i) == limit {
      BoundedBy(s - {i}, rank, limit - 1);
    } else {
      BoundedBy(s, rank, limit - 1);
    }
  }

  ghost function CountOf(reqs: seq<Request>): nat -> int {
    (i: nat) => if i < |reqs| then Stamp(reqs, i).count else 0
  }

  lemma WindowBound(reqs: seq<Request>, s: set<nat>, key: string, resetAt: Time, limit: nat)
    requires ClockRuns(reqs)
    requires forall i :: 0 <= i < |reqs| && reqs[i].key == key ==> reqs[i].limit <= limit
    requires forall i: nat ::
             i in s ==> i < |reqs| && reqs[i].key == key && Allowed(reqs, i) && Stamp(reqs, i).resetAt == resetAt
    ensures |s| <= limit
  {
    forall i | i in s ensures 1 <= CountOf(reqs)(i) <= limit {
      StampBounds(reqs, i);
    }
    forall i, j | i in s && j in s && CountOf(reqs)(i) == CountOf(reqs)(j) ensures i == j {
      if i < j { StampsFollow(reqs, i, j); }
      if j < i { StampsFollow(reqs, j, i); }
    }
    hide ClockRuns, Stamp;
    BoundedBy(s, CountOf(reqs), limit);
  }

  /** At most the limit is allowed in each window. */
  lemma AtMostLimitPerWindow(reqs: seq<Request>, key: string, resetAt: Time, limit: nat)
    requires ClockRuns(reqs)
    requires forall i :: 0 <= i < |reqs| && reqs[i].key == key ==> reqs[i].limit <= limit
    ensures |AllowedInWindow(reqs, key, resetAt)| <= limit
  {
    hide ClockRuns, Stamp;
    WindowBound(reqs, AllowedInWindow(reqs, key, resetAt), key, resetAt, limit);
  }

  /** Requests of one key within a minute fall into at most two windows. */
  lemma TwoWindows(reqs: seq<Request>, a: nat, b: nat, c: nat, key: string, from: Time)
    requires ClockRuns(reqs) && a <= b < |reqs| && a <= c < |reqs|
    requires reqs[a].key == reqs[b].key == reqs[c].key == key
    requires from <= reqs[a].now && reqs[b].now <= from + MINUTE && reqs[c].now <= from + MINUTE
    ensures Stamp(reqs, b).resetAt == Stamp(reqs, a).resetAt || Stamp(reqs, c).resetAt == Stamp(reqs, a).resetAt
            || Stamp(reqs, b).resetAt == Stamp(reqs, c).resetAt
  {
    StampBounds(reqs, a);
    StampBounds(reqs, b);
    StampBounds(reqs, c);
    if a < b { StampsFollow(reqs, a, b); }
    if a < c { StampsFollow(reqs, a, c); }
    if b < c { StampsFollow(reqs, b, c); }
    if c < b { StampsFollow(reqs, c, b); }
    hide ClockRuns, Stamp;
  }

  lemma {:induction false} FirstOf(s: set<nat>) returns (m: nat)
    requires s != {}
    ensures m in s && forall i :: i in s ==> m <= i
    decreases |s|
  {
    var x :| x in s;
    m := x;
    if s != {x} {
      var rest := FirstOf(s - {x});
      assert forall i :: i in s ==> i == x || i in s - {x};
      if rest < x { m := rest; }
    }
  }

  /** In any sixty seconds at most twice the limit is allowed, however requests and other keys interleave. */
  lemma AtMostTwiceLimitPerMinute(reqs: seq<Request>, key: string, from: Time, limit: nat)
    requires ClockRuns(reqs)
    requires forall i :: 0 <= i < |reqs| && reqs[i].key == key ==> reqs[i].limit <= limit
    ensures |AllowedInMinute(reqs, key, from)| <= 2 * limit
  {
    var s := AllowedInMinute(reqs, key, from);
    if s != {} {
      var a := FirstOf(s);
      var first := set i | i in s && Stamp(reqs, i).resetAt == Stamp(reqs, a).resetAt;
      var second := s - first;
      hide ClockRuns, Stamp;
      WindowBound(reqs, first, key, Stamp(reqs, a).resetAt, limit);
      if b :| b in second {
        forall c | c in second ensures Stamp(reqs, c).resetAt == Stamp(reqs, b).resetAt {
          TwoWindows(reqs, a, b, c, key, from);
        }
        WindowBound(reqs, second, key, Stamp(reqs, b).resetAt, limit);
      }
      assert s == first + second;
    }
  }

  /** The numbers below n. */
  ghost function Below(n: nat): (s: set<nat>)
    ensures forall i: nat :: i in s <==> i < n
    ensures |s| == n
  {
    if n == 0 then {} else Below(n - 1) + {n - 1}
  }

  /** One burst of requests, and another when its window resets. */
  function TwoBursts(key: string, limit: nat, t: Clock): seq<Request> {
    seq(2 * limit, i requires 0 <= i => Request(key, limit, if i < limit then t else t + MINUTE))
  }

  /** Each burst is counted from one in a window of its own. */
  lemma {:induction false} BurstStamps(key: string, limit: nat, t: Clock, i: nat)
    requires i < 2 * limit
    ensures var first := i < limit;
            Stamp(TwoBursts(key, limit, t), i)
            == Window(if first then i + 1 else i - limit + 1, if first then t + MINUTE else t + 2 * MINUTE)
    decreases i
  {
    var reqs := TwoBursts(key, limit, t);
    if i == 0 {
      assert reqs[..0] == [];
    } else {
      BurstStamps(key, limit, t, i - 1);
      AfterNext(reqs, i - 1);
    }
  }

  /** Twice the limit is reached, whatever the limit: a burst when a window opens and one when it resets. */
  lemma TwiceLimitIsReached(key: string, limit: nat, t: Clock)
    ensures ClockRuns(TwoBursts(key, limit, t))
    ensures AllowedInMinute(TwoBursts(key, limit, t), key, t) == Below(2 * limit)
    ensures |AllowedInMinute(TwoBursts(key, limit, t), key, t)| == 2 * limit
  {
    var reqs := TwoBursts(key, limit, t);
    forall i: nat | i < 2 * limit ensures Allowed(reqs, i) {
      BurstStamps(key, limit, t, i);
    }
    hide Allowed;
  }
}
