/**
 * The fixed-window execution quota of each tenant (`internal/tenant/controls.go`). Times are nanoseconds from Go's
 * zero time.
 */
module Quota {

  const MINUTE: int := 60_000_000_000

  datatype Rule = Rule(limit: nat, window: int)

  datatype Bucket = Bucket(windowStart: int, count: nat)

  type Quotas = map<string, Bucket>

  datatype Call = Call(tenantID: string, now: int)

  function BucketOf(quotas: Quotas, tenantID: string): Bucket {
    if tenantID in quotas then quotas[tenantID] else Bucket(0, 0)
  }

  /** The bucket a call is charged to. A start at the zero time counts as no window at all. */
  function Opened(rule: Rule, b: Bucket, now: int): Bucket {
    if b.windowStart == 0 || now - b.windowStart >= rule.window then Bucket(now, 0) else b
  }

  /** A limit of 0 admits everything. */
  predicate Admits(rule: Rule, b: Bucket, now: int) {
    rule.limit == 0 || Opened(rule, b, now).count < rule.limit
  }

  function Charged(rule: Rule, b: Bucket, now: int): Bucket {
    if rule.limit == 0 || !Admits(rule, b, now) then b
    else
      var open := Opened(rule, b, now);
      open.(count := open.count + 1)
  }

  function Charge(rule: Rule, quotas: Quotas, call: Call): Quotas {
    if rule.limit == 0 || !Admits(rule, BucketOf(quotas, call.tenantID), call.now) then quotas
    else quotas[call.tenantID := Charged(rule, BucketOf(quotas, call.tenantID), call.now)]
  }

  function After(rule: Rule, calls: seq<Call>): Quotas {
    if calls == [] then map[] else Charge(rule, After(rule, calls[..|calls| - 1]), calls[|calls| - 1])
  }

  predicate Admitted(rule: Rule, calls: seq<Call>, i: nat)
    requires i < |calls|
  {
    Admits(rule, BucketOf(After(rule, calls[..i]), calls[i].tenantID), calls[i].now)
  }

  /** How many calls of the tenant were admitted at a time in [lo, hi). */
  function AdmittedIn(rule: Rule, calls: seq<Call>, tenantID: string, lo: int, hi: int): nat {
    if calls == [] then 0
    else
      var i := |calls| - 1;
      AdmittedIn(rule, calls[..i], tenantID, lo, hi)
      + if calls[i].tenantID == tenantID && lo <= calls[i].now < hi && Admitted(rule, calls, i) then 1 else 0
  }

  /** The clock never goes back and never reads Go's zero time. */
  ghost predicate SoundClock(calls: seq<Call>) {
    && (forall i :: 0 <= i < |calls| ==> calls[i].now != 0)
    && (forall i, j :: 0 <= i < j < |calls| ==> calls[i].now <= calls[j].now)
  }

  lemma SoundFront(calls: seq<Call>)
    requires SoundClock(calls) && calls != []
    ensures SoundClock(calls[..|calls| - 1])
  {}

  lemma ChargeAt(rule: Rule, quotas: Quotas, call: Call, tenantID: string)
    ensures BucketOf(Charge(rule, quotas, call), tenantID)
         == if call.tenantID == tenantID then Charged(rule, BucketOf(quotas, tenantID), call.now)
            else BucketOf(quotas, tenantID)
  {}

  // The sliding bound

  /** The tenant's window is open and not in the future. */
  predicate Current(rule: Rule, b: Bucket, calls: seq<Call>) {
    b.windowStart != 0 ==>
      1 <= b.count <= rule.limit && calls != [] && b.windowStart <= calls[|calls| - 1].now
  }

  lemma {:induction false} WindowsCurrent(rule: Rule, calls: seq<Call>, tenantID: string)
    requires SoundClock(calls)
    ensures Current(rule, BucketOf(After(rule, calls), tenantID), calls)
  {
    if calls != [] {
      var i := |calls| - 1;
      SoundFront(calls);
      WindowsCurrent(rule, calls[..i], tenantID);
      ChargeAt(rule, After(rule, calls[..i]), calls[i], tenantID);
    }
  }

  /**
   * Admissions since `lo`, by the window now open: none before the first window; if the window began before
   * `lo`, its first admission is not counted; otherwise `j` whole windows lie between `lo` and its start.
   */
  ghost predicate Spread(rule: Rule, b: Bucket, lo: int, admitted: nat) {
    && (b.windowStart == 0 ==> admitted == 0)
    && (b.windowStart != 0 && b.windowStart < lo ==> admitted < b.count)
    && (b.windowStart != 0 && b.windowStart >= lo ==>
          exists j: nat :: j * rule.window <= b.windowStart - lo && admitted <= (j + 1) * rule.limit - 1 + b.count)
  }

  lemma SpreadStep(rule: Rule, b: Bucket, lo: int, admitted: nat, now: int)
    requires rule.limit > 0 && rule.window > 0 && now != 0 && Spread(rule, b, lo, admitted)
    requires b.windowStart != 0 ==> b.count <= rule.limit && b.windowStart <= now
    requires Admits(rule, b, now) && (now < lo ==> admitted == 0)
    ensures Spread(rule, Charged(rule, b, now), lo, admitted + if lo <= now then 1 else 0)
    ensures Charged(rule, b, now).windowStart <= now
  {
    if Opened(rule, b, now) != b && now >= lo {
      if b.windowStart != 0 && b.windowStart >= lo {
        var j: nat :| j * rule.window <= b.windowStart - lo && admitted <= (j + 1) * rule.limit - 1 + b.count;
        assert (j + 1) * rule.window == j * rule.window + rule.window;
        assert (j + 1 + 1) * rule.limit == (j + 1) * rule.limit + rule.limit;
        assert (j + 1) * rule.window <= now - lo && admitted + 1 <= (j + 1 + 1) * rule.limit - 1 + 1;
      } else {
        assert 0 * rule.window <= now - lo && admitted + 1 <= (0 + 1) * rule.limit - 1 + 1;
      }
    }
  }

  /** A window that starts inside k window lengths leaves at most k - 1 whole windows before it. */
  lemma SpreadBound(rule: Rule, b: Bucket, lo: int, admitted: nat, k: nat)
    requires rule.limit > 0 && rule.window > 0 && k > 0 && Spread(rule, b, lo, admitted)
    requires b.count <= rule.limit && b.windowStart < lo + k * rule.window
    ensures admitted <= (k + 1) * rule.limit - 1
  {
    if b.windowStart != 0 && b.windowStart >= lo {
      var j: nat :| j * rule.window <= b.windowStart - lo && admitted <= (j + 1) * rule.limit - 1 + b.count;
      Scale(j, k, rule.window);
      Scale(j + 1, k, rule.limit);
      assert (k + 1) * rule.limit == k * rule.limit + rule.limit;
    } else {
      Scale(1, k + 1, rule.limit);
    }
  }

  /** Multiplying by a positive factor keeps order, both ways. */
  lemma Scale(a: nat, b: nat, factor: int)
    requires factor > 0
    ensures a <= b ==> a * factor <= b * factor
    ensures a * factor < b * factor ==> a < b
  {
    if a <= b {
      assert b * factor == a * factor + (b - a) * factor;
      assert (b - a) * factor >= 0;
    } else {
      assert a * factor == b * factor + (a - b) * factor;
      assert (a - b) * factor >= 0;
    }
  }

  lemma FirstSpread(rule: Rule, tenantID: string, lo: int)
    ensures Spread(rule, BucketOf(After(rule, []), tenantID), lo, 0)
  {}

  /** [lo, hi) is k window lengths long, and `cap` is the bound for it. */
  ghost predicate Interval(rule: Rule, lo: int, hi: int, k: nat, cap: int) {
    && rule.limit > 0 && rule.window > 0 && k > 0
    && hi == lo + k * rule.window && cap == (k + 1) * rule.limit - 1 && cap >= 0
  }

  /** One more call inside the interval keeps the bound. */
  lemma SpreadCall(rule: Rule, b: Bucket, lo: int, admitted: nat, now: int, hi: int, k: nat, cap: int)
    requires Interval(rule, lo, hi, k, cap) && now != 0 && Spread(rule, b, lo, admitted)
    requires b.windowStart != 0 ==> b.count <= rule.limit && b.windowStart <= now
    requires now < hi && Admits(rule, b, now) && (now < lo ==> admitted == 0)
    ensures var after := admitted + if lo <= now then 1 else 0;
            Spread(rule, Charged(rule, b, now), lo, after) && after <= cap
  {
    hide Spread;
    SpreadStep(rule, b, lo, admitted, now);
    SpreadBound(rule, Charged(rule, b, now), lo, admitted + if lo <= now then 1 else 0, k);
  }

  lemma {:induction false} NoneBefore(rule: Rule, calls: seq<Call>, tenantID: string, lo: int, hi: int)
    requires forall i :: 0 <= i < |calls| ==> calls[i].now < lo
    ensures AdmittedIn(rule, calls, tenantID, lo, hi) == 0
  {
    if calls != [] {
      NoneBefore(rule, calls[..|calls| - 1], tenantID, lo, hi);
    }
  }

  lemma OneMoreCall(rule: Rule, front: seq<Call>, call: Call, tenantID: string, lo: int, hi: int)
    ensures var b := BucketOf(After(rule, front), tenantID);
            && BucketOf(After(rule, front + [call]), tenantID)
               == (if call.tenantID == tenantID then Charged(rule, b, call.now) else b)
            && AdmittedIn(rule, front + [call], tenantID, lo, hi)
               == AdmittedIn(rule, front, tenantID, lo, hi)
                  + if call.tenantID == tenantID && lo <= call.now < hi && Admits(rule, b, call.now) then 1 else 0
  {
    var calls := front + [call];
    assert calls[..|calls| - 1] == front;
    ChargeAt(rule, After(rule, front), call, tenantID);
  }

  /** The bound holds, and while the clock is before `hi` so does what it follows from. */
  ghost predicate Within(rule: Rule, calls: seq<Call>, tenantID: string, lo: int, hi: int, cap: int) {
    var n := AdmittedIn(rule, calls, tenantID, lo, hi);
    && n <= cap
    && (calls == [] || calls[|calls| - 1].now < hi ==> Spread(rule, BucketOf(After(rule, calls), tenantID), lo, n))
  }

  lemma ClockSplit(rule: Rule, front: seq<Call>, call: Call, tenantID: string)
    requires SoundClock(front + [call])
    ensures SoundClock(front) && call.now != 0 && forall j :: 0 <= j < |front| ==> front[j].now <= call.now
    ensures var b := BucketOf(After(rule, front), tenantID);
            b.windowStart != 0 ==> 1 <= b.count <= rule.limit && b.windowStart <= call.now
  {
    var calls := front + [call];
    assert call == calls[|front|] && forall j :: 0 <= j < |front| ==> front[j] == calls[j];
    WindowsCurrent(rule, front, tenantID);
    hide After, BucketOf;
  }

  lemma WithinStep(
    rule: Rule, front: seq<Call>, call: Call, tenantID: string, lo: int, hi: int, k: nat, cap: int)
    requires Interval(rule, lo, hi, k, cap) && Within(rule, front, tenantID, lo, hi, cap)
    requires SoundClock(front + [call])
    ensures Within(rule, front + [call], tenantID, lo, hi, cap)
  {
    hide SoundClock, Spread, After, AdmittedIn, Charged, Opened, BucketOf, Admits, Interval;
    ClockSplit(rule, front, call, tenantID);
    OneMoreCall(rule, front, call, tenantID, lo, hi);
    var b, n := BucketOf(After(rule, front), tenantID), AdmittedIn(rule, front, tenantID, lo, hi);
    RefusedUncharged(rule, b, call.now);
    if call.now < hi && call.tenantID == tenantID && Admits(rule, b, call.now) {
      if call.now < lo {
        NoneBefore(rule, front, tenantID, lo, hi);
      }
      SpreadCall(rule, b, lo, n, call.now, hi, k, cap);
    }
  }

  lemma {:induction false} AdmittedWithin(
    rule: Rule, calls: seq<Call>, tenantID: string, lo: int, hi: int, k: nat, cap: int)
    requires Interval(rule, lo, hi, k, cap) && SoundClock(calls)
    ensures Within(rule, calls, tenantID, lo, hi, cap)
  {
    if calls == [] {
      FirstSpread(rule, tenantID, lo);
    } else {
      var front, call := calls[..|calls| - 1], calls[|calls| - 1];
      SoundFront(calls);
      assert calls == front + [call];
      hide *;
      AdmittedWithin(rule, front, tenantID, lo, hi, k, cap);
      WithinStep(rule, front, call, tenantID, lo, hi, k, cap);
    }
  }

  lemma RefusedUncharged(rule: Rule, b: Bucket, now: int)
    ensures !Admits(rule, b, now) ==> Charged(rule, b, now) == b
  {}

  /**
   * In any half-open interval of k window lengths a tenant is admitted at most (k + 1) * limit - 1 times,
   * whatever the other tenants do.
   */
  lemma SlidingBound(rule: Rule, calls: seq<Call>, tenantID: string, lo: int, k: nat)
    requires rule.limit > 0 && rule.window > 0 && k > 0 && SoundClock(calls)
    ensures AdmittedIn(rule, calls, tenantID, lo, lo + k * rule.window) <= (k + 1) * rule.limit - 1
  {
    Scale(1, k + 1, rule.limit);
    AdmittedWithin(rule, calls, tenantID, lo, lo + k * rule.window, k, (k + 1) * rule.limit - 1);
  }

  // The bound is reached

  function Burst(n: nat, tenantID: string, now: int): seq<Call> {
    seq(n, _ => Call(tenantID, now))
  }

  lemma BurstOneMore(calls: seq<Call>, n: nat, tenantID: string, now: int)
    ensures calls + Burst(0, tenantID, now) == calls
    ensures n > 0 ==> calls + Burst(n, tenantID, now) == calls + Burst(n - 1, tenantID, now) + [Call(tenantID, now)]
  {}

  /** The bucket of a window once `n` calls at its opening time were admitted to it. */
  function Filled(rule: Rule, b: Bucket, now: int, n: nat): Bucket {
    if n == 0 then b else Charged(rule, Filled(rule, b, now, n - 1), now)
  }

  lemma {:induction false} FilledCounts(rule: Rule, b: Bucket, now: int, n: nat)
    requires rule.window > 0 && now != 0 && n > 0 && Opened(rule, b, now).count + n <= rule.limit
    ensures var open := Opened(rule, b, now);
            && Filled(rule, b, now, n) == Bucket(open.windowStart, open.count + n)
            && Admits(rule, Filled(rule, b, now, n - 1), now)
  {
    if n > 1 {
      FilledCounts(rule, b, now, n - 1);
    }
  }

  lemma {:induction false} BurstAdmitted(
    rule: Rule, calls: seq<Call>, n: nat, tenantID: string, now: int, lo: int, hi: int)
    requires lo <= now < hi && now != 0 && rule.window > 0
    requires Opened(rule, BucketOf(After(rule, calls), tenantID), now).count + n <= rule.limit
    ensures var all := calls + Burst(n, tenantID, now);
            && BucketOf(After(rule, all), tenantID) == Filled(rule, BucketOf(After(rule, calls), tenantID), now, n)
            && AdmittedIn(rule, all, tenantID, lo, hi) == AdmittedIn(rule, calls, tenantID, lo, hi) + n
  {
    hide After, AdmittedIn, BucketOf, Burst, Opened, Charged, Admits;
    BurstOneMore(calls, n, tenantID, now);
    if n > 0 {
      var front := calls + Burst(n - 1, tenantID, now);
      BurstAdmitted(rule, calls, n - 1, tenantID, now, lo, hi);
      FilledCounts(rule, BucketOf(After(rule, calls), tenantID), now, n);
      OneMoreCall(rule, front, Call(tenantID, now), tenantID, lo, hi);
    }
  }

  /** When the k-th window of a tenant that never waits opens, and how often it was admitted after its first call. */
  function Opening(rule: Rule, k: nat): (start: int)
    ensures rule.window >= 2 ==> start >= 1
  {
    if k == 0 then 1 else Opening(rule, k - 1) + rule.window
  }

  function Admissions(rule: Rule, k: nat): int {
    if k == 0 then rule.limit - 1 else Admissions(rule, k - 1) + rule.limit
  }

  /** A tenant that opens its window early and then calls as often as it may. */
  function Peak(rule: Rule, tenantID: string, k: nat): seq<Call>
    requires rule.limit > 0
  {
    if k == 0 then [Call(tenantID, 1)] + Burst(rule.limit - 1, tenantID, 2)
    else Peak(rule, tenantID, k - 1) + Burst(rule.limit, tenantID, Opening(rule, k))
  }

  lemma {:induction false} PeakFigures(rule: Rule, k: nat)
    requires rule.window >= 2
    ensures Opening(rule, k) == k * rule.window + 1 && Admissions(rule, k) == (k + 1) * rule.limit - 1
    ensures Opening(rule, k) >= 1 && (k > 0 ==> Opening(rule, k) > 2)
  {
    if k > 0 {
      PeakFigures(rule, k - 1);
      assert k * rule.window == (k - 1) * rule.window + rule.window;
      assert (k + 1) * rule.limit == k * rule.limit + rule.limit;
    }
  }

  /** Until hi, and with its last window full, the tenant was admitted `n` times from time 2 on. */
  ghost predicate FullAt(rule: Rule, calls: seq<Call>, tenantID: string, start: int, n: int, hi: int) {
    && BucketOf(After(rule, calls), tenantID) == Bucket(start, rule.limit)
    && AdmittedIn(rule, calls, tenantID, 2, hi) == n
  }

  lemma FullThenBurst(rule: Rule, calls: seq<Call>, tenantID: string, start: int, n: int, now: int, hi: int)
    requires rule.limit > 0 && rule.window > 0 && 2 <= now < hi && now - start >= rule.window
    requires FullAt(rule, calls, tenantID, start, n, hi)
    ensures FullAt(rule, calls + Burst(rule.limit, tenantID, now), tenantID, now, n + rule.limit, hi)
  {
    hide After, AdmittedIn, BucketOf;
    BurstAdmitted(rule, calls, rule.limit, tenantID, now, 2, hi);
    FilledCounts(rule, Bucket(start, rule.limit), now, rule.limit);
  }

  lemma PeakStarts(rule: Rule, tenantID: string, hi: int)
    requires rule.limit > 0 && rule.window >= 2 && hi > 2
    ensures FullAt(rule, Peak(rule, tenantID, 0), tenantID, 1, rule.limit - 1, hi)
  {
    var first := [Call(tenantID, 1)];
    assert first == [] + first;
    assert After(rule, []) == map[] && AdmittedIn(rule, [], tenantID, 2, hi) == 0;
    OneMoreCall(rule, [], first[0], tenantID, 2, hi);
    hide After, AdmittedIn;
    BurstAdmitted(rule, first, rule.limit - 1, tenantID, 2, 2, hi);
    if rule.limit > 1 {
      FilledCounts(rule, Bucket(1, 1), 2, rule.limit - 1);
    }
  }

  lemma {:induction false} PeakAdmitted(rule: Rule, tenantID: string, k: nat, hi: int)
    requires rule.limit > 0 && rule.window >= 2 && hi > Opening(rule, k) && hi > 2
    ensures FullAt(rule, Peak(rule, tenantID, k), tenantID, Opening(rule, k), Admissions(rule, k), hi)
  {
    hide FullAt;
    if k == 0 {
      PeakStarts(rule, tenantID, hi);
    } else {
      PeakFigures(rule, k);
      PeakAdmitted(rule, tenantID, k - 1, hi);
      FullThenBurst(rule, Peak(rule, tenantID, k - 1), tenantID, Opening(rule, k - 1), Admissions(rule, k - 1),
                    Opening(rule, k), hi);
    }
  }

  ghost predicate Between(calls: seq<Call>, lo: int, hi: int) {
    forall i :: 0 <= i < |calls| ==> lo <= calls[i].now <= hi
  }

  lemma BurstAppended(calls: seq<Call>, n: nat, tenantID: string, now: int)
    requires SoundClock(calls) && Between(calls, 1, now) && now >= 1
    ensures SoundClock(calls + Burst(n, tenantID, now)) && Between(calls + Burst(n, tenantID, now), 1, now)
  {}

  lemma {:induction false} PeakClock(rule: Rule, tenantID: string, k: nat)
    requires rule.limit > 0 && rule.window >= 2
    ensures SoundClock(Peak(rule, tenantID, k)) && Between(Peak(rule, tenantID, k), 1, Opening(rule, k) + 1)
  {
    if k == 0 {
      BurstAppended([Call(tenantID, 1)], rule.limit - 1, tenantID, 2);
    } else {
      PeakClock(rule, tenantID, k - 1);
      hide SoundClock, Burst;
      BurstAppended(Peak(rule, tenantID, k - 1), rule.limit, tenantID, Opening(rule, k));
    }
  }

  /** The sliding bound cannot be lowered: some tenant is admitted exactly that often. */
  lemma SlidingBoundReached(rule: Rule, tenantID: string, k: nat) returns (calls: seq<Call>)
    requires rule.limit > 0 && rule.window >= 2 && k > 0
    ensures SoundClock(calls) && AdmittedIn(rule, calls, tenantID, 2, 2 + k * rule.window) == (k + 1) * rule.limit - 1
  {
    PeakFigures(rule, k);
    calls := Peak(rule, tenantID, k);
    hide Opening, Admissions, SoundClock, Peak;
    PeakAdmitted(rule, tenantID, k, 2 + k * rule.window);
    PeakClock(rule, tenantID, k);
  }

  // Refusals

  lemma {:induction false} WindowHolds(rule: Rule, calls: seq<Call>, tenantID: string, hi: int)
    requires SoundClock(calls) && (forall i :: 0 <= i < |calls| ==> calls[i].now < hi)
    ensures var b := BucketOf(After(rule, calls), tenantID);
            AdmittedIn(rule, calls, tenantID, b.windowStart, hi) >= b.count
  {
    if calls != [] {
      var front, call := calls[..|calls| - 1], calls[|calls| - 1];
      assert calls == front + [call] && call.now < hi;
      WindowHolds(rule, front, tenantID, hi);
      ClockSplit(rule, front, call, tenantID);
      hide After, AdmittedIn, SoundClock, BucketOf;
      OneMoreCall(rule, front, call, tenantID, BucketOf(After(rule, front), tenantID).windowStart, hi);
      OneMoreCall(rule, front, call, tenantID, call.now, hi);
    }
  }

  /** The tenant of a call was admitted up to the limit from `start` on, less than a window length before it. */
  ghost predicate FullFrom(rule: Rule, before: seq<Call>, call: Call, start: int) {
    && call.now - rule.window < start <= call.now
    && AdmittedIn(rule, before, call.tenantID, start, call.now + 1) >= rule.limit
  }

  /** A call is refused only when the limit was reached within the window that holds it. */
  lemma RefusedOnlyWhenFull(rule: Rule, calls: seq<Call>, i: nat)
    requires SoundClock(calls) && i < |calls| && !Admitted(rule, calls, i)
    ensures exists start :: FullFrom(rule, calls[..i], calls[i], start)
  {
    var call, front := calls[i], calls[..i];
    var b := BucketOf(After(rule, front), call.tenantID);
    WindowHolds(rule, front, call.tenantID, call.now + 1);
    WindowsCurrent(rule, front, call.tenantID);
    assert Opened(rule, b, call.now) == b;
    assert FullFrom(rule, front, call, b.windowStart);
  }

  // Why the clock must not read the zero time

  /** While the clock reads Go's zero time no window ever opens, and no call is refused. */
  lemma {:induction false} ZeroClockAdmitsAll(rule: Rule, calls: seq<Call>, tenantID: string)
    requires forall i :: 0 <= i < |calls| ==> calls[i] == Call(tenantID, 0)
    ensures BucketOf(After(rule, calls), tenantID).windowStart == 0
    ensures AdmittedIn(rule, calls, tenantID, 0, 1) == |calls|
  {
    if calls != [] {
      var front := calls[..|calls| - 1];
      ZeroClockAdmitsAll(rule, front, tenantID);
      assert calls == front + [Call(tenantID, 0)];
      hide After, AdmittedIn;
      OneMoreCall(rule, front, Call(tenantID, 0), tenantID, 0, 1);
    }
  }

  /** Raising the end of an interval never loses an admission. */
  lemma {:induction false} LongerIntervalHoldsMore(
    rule: Rule, calls: seq<Call>, tenantID: string, lo: int, mid: int, hi: int)
    requires mid <= hi
    ensures AdmittedIn(rule, calls, tenantID, lo, mid) <= AdmittedIn(rule, calls, tenantID, lo, hi)
  {
    if calls != [] {
      LongerIntervalHoldsMore(rule, calls[..|calls| - 1], tenantID, lo, mid, hi);
    }
  }

  /** The bound for k windows from `lo` on. */
  predicate Bounded(rule: Rule, calls: seq<Call>, tenantID: string, lo: int, k: nat) {
    AdmittedIn(rule, calls, tenantID, lo, lo + k * rule.window) <= (k + 1) * rule.limit - 1
  }

  ghost predicate NeverBack(calls: seq<Call>) {
    forall i, j :: 0 <= i < j < |calls| ==> calls[i].now <= calls[j].now
  }

  ghost predicate Reads(calls: seq<Call>, clock: iset<int>) {
    forall i :: 0 <= i < |calls| ==> calls[i].now in clock
  }

  /** Twice the limit in one window, all at the zero time. */
  lemma ZeroClockExceeds(rule: Rule, tenantID: string)
    requires rule.limit > 0 && rule.window > 0
    ensures !Bounded(rule, Burst(2 * rule.limit, tenantID, 0), tenantID, 0, 1)
  {
    var calls := Burst(2 * rule.limit, tenantID, 0);
    ZeroClockAdmitsAll(rule, calls, tenantID);
    hide AdmittedIn;
    LongerIntervalHoldsMore(rule, calls, tenantID, 0, 1, rule.window);
    assert 0 + 1 * rule.window == rule.window && (1 + 1) * rule.limit == 2 * rule.limit;
  }

  /**
   * A clock that never goes back keeps every tenant within the sliding bound, over all histories and all
   * intervals, exactly when it never reads the zero time.
   */
  lemma SlidingBoundIff(rule: Rule, clock: iset<int>)
    requires rule.limit > 0 && rule.window > 0
    ensures (forall calls, tenantID, lo, k: nat {:trigger Bounded(rule, calls, tenantID, lo, k)} ::
               NeverBack(calls) && Reads(calls, clock) && k > 0 ==> Bounded(rule, calls, tenantID, lo, k))
            <==> 0 !in clock
  {
    hide AdmittedIn;
    if 0 in clock {
      ZeroClockExceeds(rule, "");
      var calls := Burst(2 * rule.limit, "", 0);
      assert NeverBack(calls) && Reads(calls, clock);
      hide Bounded;
    } else {
      forall calls, tenantID, lo, k: nat | NeverBack(calls) && Reads(calls, clock) && k > 0
        ensures Bounded(rule, calls, tenantID, lo, k)
      {
        SlidingBound(rule, calls, tenantID, lo, k);
      }
    }
  }

  /** Even for one burst at one time: no burst exceeds the bound exactly when its time is not the zero time. */
  lemma BurstBoundIff(rule: Rule, tenantID: string, now: int)
    requires rule.limit > 0 && rule.window > 0
    ensures (forall n: nat ::
              AdmittedIn(rule, Burst(n, tenantID, now), tenantID, now, now + rule.window) <= 2 * rule.limit - 1)
            <==> now != 0
  {
    assert now + 1 * rule.window == now + rule.window && (1 + 1) * rule.limit == 2 * rule.limit;
    hide AdmittedIn;
    if now == 0 {
      ZeroClockExceeds(rule, tenantID);
      assert AdmittedIn(rule, Burst(2 * rule.limit, tenantID, now), tenantID, now, now + rule.window)
             > 2 * rule.limit - 1;
    } else {
      forall n: nat
        ensures AdmittedIn(rule, Burst(n, tenantID, now), tenantID, now, now + rule.window) <= 2 * rule.limit - 1
      {
        SlidingBound(rule, Burst(n, tenantID, now), tenantID, now, 1);
      }
    }
  }

  // Tenants

  function Own(calls: seq<Call>, tenantID: string): seq<Call> {
    if calls == [] then []
    else
      var i := |calls| - 1;
      Own(calls[..i], tenantID) + if calls[i].tenantID == tenantID then [calls[i]] else []
  }

  /** What a tenant is admitted is what it would be admitted alone. */
  lemma {:induction false} OthersDoNotCount(rule: Rule, calls: seq<Call>, tenantID: string, lo: int, hi: int)
    ensures BucketOf(After(rule, Own(calls, tenantID)), tenantID) == BucketOf(After(rule, calls), tenantID)
    ensures AdmittedIn(rule, Own(calls, tenantID), tenantID, lo, hi) == AdmittedIn(rule, calls, tenantID, lo, hi)
  {
    if calls != [] {
      var front, call := calls[..|calls| - 1], calls[|calls| - 1];
      OthersDoNotCount(rule, front, tenantID, lo, hi);
      assert calls == front + [call] && Own(front, tenantID) + [] == Own(front, tenantID);
      assert Own(calls, tenantID) == Own(front, tenantID) + if call.tenantID == tenantID then [call] else [];
      hide After, AdmittedIn, Own;
      OneMoreCall(rule, front, call, tenantID, lo, hi);
      OneMoreCall(rule, Own(front, tenantID), call, tenantID, lo, hi);
    }
  }
}
