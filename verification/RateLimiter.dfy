/** The per-key request limiter: what its windows allow over whole request traces. */
module RateLimiting {
  type Key = string

  datatype Window = Window(count: int, resetAt: int)
  datatype Request = Request(key: Key, now: int)
  datatype Limits = Limits(limit: int, interval: int)

  type Windows = map<Key, Window>

  /** A missing or expired window is replaced, and the request that replaces it is allowed
      whatever the limit. */
  predicate Opens(ws: Windows, r: Request) {
    r.key !in ws || ws[r.key].resetAt < r.now
  }

  predicate Allowed(lim: Limits, ws: Windows, r: Request) {
    Opens(ws, r) || ws[r.key].count < lim.limit
  }

  function Serve(lim: Limits, ws: Windows, r: Request): Windows {
    if Opens(ws, r) then ws[r.key := Window(1, r.now + lim.interval)]
    else if ws[r.key].count < lim.limit then ws[r.key := Window(ws[r.key].count + 1, ws[r.key].resetAt)]
    else ws
  }

  /** The windows after a trace, from none. */
  function After(lim: Limits, trace: seq<Request>): Windows {
    if trace == [] then map[]
    else Serve(lim, After(lim, trace[..|trace| - 1]), trace[|trace| - 1])
  }

  /** Allowed requests of one key with times from `lo` to `hi`. */
  function Count(lim: Limits, trace: seq<Request>, key: Key, lo: int, hi: int): nat {
    if trace == [] then 0
    else
      var front, r := trace[..|trace| - 1], trace[|trace| - 1];
      Count(lim, front, key, lo, hi)
      + if r.key == key && lo <= r.now <= hi && Allowed(lim, After(lim, front), r) then 1 else 0
  }

  ghost predicate ClockRises(trace: seq<Request>) {
    forall i, j :: 0 <= i < j < |trace| ==> trace[i].now <= trace[j].now
  }

  class RateLimiter {
    var windows: Windows
    const lim: Limits
    ghost var served: seq<Request>

    ghost predicate Valid()
      reads this
    {
      windows == After(lim, served)
    }

    constructor (limit: int, interval: int)
      ensures Valid() && served == [] && lim == Limits(limit, interval)
    {
      windows := map[];
      lim := Limits(limit, interval);
      served := [];
    }

    method Allow(key: Key, now: int) returns (ok: bool)
      requires Valid()
      modifies this
      ensures Valid() && served == old(served) + [Request(key, now)]
      ensures ok == Allowed(lim, After(lim, old(served)), Request(key, now))
    {
      ghost var r := Request(key, now);
      assert (served + [r])[..|served|] == served;
      served := served + [r];
      if key !in windows || now > windows[key].resetAt {
        windows := windows[key := Window(1, now + lim.interval)];
        return true;
      }
      if windows[key].count >= lim.limit {
        return false;
      }
      windows := windows[key := windows[key].(count := windows[key].count + 1)];
      return true;
    }
  }

  // ---- the bound ----

  function Most(lim: Limits): int {
    if lim.limit < 1 then 1 else lim.limit
  }

  lemma {:induction false} EarlierCountsNothing(lim: Limits, trace: seq<Request>, key: Key, lo: int, hi: int)
    requires forall i :: 0 <= i < |trace| ==> trace[i].now < lo
    ensures Count(lim, trace, key, lo, hi) == 0
    decreases |trace|
  {
    if trace != [] { EarlierCountsNothing(lim, trace[..|trace| - 1], key, lo, hi); }
  }

  /** Where the current window of `key` since relative to the interval bounds what has
      been allowed in the interval so far. */
  ghost predicate Bounded(lim: Limits, trace: seq<Request>, key: Key, lo: int) {
    var ws, n := After(lim, trace), Count(lim, trace, key, lo, lo + lim.interval);
    if key !in ws then n == 0
    else
      var w := ws[key];
      var since := w.resetAt - lim.interval;
      && trace != [] && since <= trace[|trace| - 1].now
      && 1 <= w.count <= Most(lim)
      && (since < lo ==> n <= w.count - 1)
      && (lo <= since <= lo + lim.interval ==> n <= Most(lim) - 1 + w.count)
      && n <= 2 * Most(lim) - 1
  }

  lemma {:induction false} TraceIsBounded(lim: Limits, trace: seq<Request>, key: Key, lo: int)
    requires ClockRises(trace)
    ensures Bounded(lim, trace, key, lo)
    decreases |trace|
  {
    if trace != [] {
      var front, r := trace[..|trace| - 1], trace[|trace| - 1];
      TraceIsBounded(lim, front, key, lo);
      if r.now < lo { EarlierCountsNothing(lim, front, key, lo, lo + lim.interval); }
    }
  }

  /** Any closed interval as long as the limiter's contains at most 2 * max(1, limit) - 1
      allowed requests of one key, over every trace with a clock that does not run back. */
  lemma IntervalIsBounded(lim: Limits, trace: seq<Request>, key: Key, lo: int)
    requires ClockRises(trace)
    ensures Count(lim, trace, key, lo, lo + lim.interval) <= 2 * Most(lim) - 1
  {
    TraceIsBounded(lim, trace, key, lo);
  }

  // ---- the bound is reached ----

  function Burst(key: Key, n: nat, now: int): seq<Request> {
    if n == 0 then [] else Burst(key, n - 1, now) + [Request(key, now)]
  }

  /** A burst inside the window of `key`, while the limit lasts, is allowed throughout. */
  lemma {:induction false} BurstIsAllowed(lim: Limits, trace: seq<Request>, key: Key, n: nat, now: int, lo: int,
                                          hi: int)
    requires key in After(lim, trace) && now <= After(lim, trace)[key].resetAt
    requires After(lim, trace)[key].count + n <= lim.limit && lo <= now <= hi
    ensures var trace', w := trace + Burst(key, n, now), After(lim, trace)[key];
      && key in After(lim, trace') && After(lim, trace')[key] == Window(w.count + n, w.resetAt)
      && Count(lim, trace', key, lo, hi) == Count(lim, trace, key, lo, hi) + n
  {
    if n == 0 {
      assert trace + Burst(key, 0, now) == trace;
    } else {
      BurstIsAllowed(lim, trace, key, n - 1, now, lo, hi);
      assert trace + Burst(key, n, now) == trace + Burst(key, n - 1, now) + [Request(key, now)];
      OneMoreIsAllowed(lim, trace + Burst(key, n - 1, now), key, now, lo, hi);
    }
  }

  lemma OneMoreIsAllowed(lim: Limits, trace: seq<Request>, key: Key, now: int, lo: int, hi: int)
    requires key in After(lim, trace) && now <= After(lim, trace)[key].resetAt
    requires After(lim, trace)[key].count < lim.limit && lo <= now <= hi
    ensures var trace', w := trace + [Request(key, now)], After(lim, trace)[key];
      && key in After(lim, trace') && After(lim, trace')[key] == Window(w.count + 1, w.resetAt)
      && Count(lim, trace', key, lo, hi) == Count(lim, trace, key, lo, hi) + 1
  {
    var trace' := trace + [Request(key, now)];
    assert trace'[..|trace'| - 1] == trace;
  }

  /** One request opens a window and the rest of its limit comes as it closes. */
  function LateBurst(lim: Limits, key: Key): seq<Request>
    requires lim.limit >= 1
  {
    [Request(key, 0)] + Burst(key, lim.limit - 1, lim.interval)
  }

  lemma LateBurstIsAllowed(lim: Limits, key: Key)
    requires lim.limit >= 1 && lim.interval >= 1
    ensures var full := LateBurst(lim, key);
      && key in After(lim, full) && After(lim, full)[key] == Window(lim.limit, lim.interval)
      && Count(lim, full, key, 1, 1 + lim.interval) == lim.limit - 1
  {
    var first := [Request(key, 0)];
    assert first[..0] == [];
    assert After(lim, first) == map[key := Window(1, lim.interval)];
    BurstIsAllowed(lim, first, key, lim.limit - 1, lim.interval, 1, 1 + lim.interval);
  }

  lemma NextWindowOpens(lim: Limits, trace: seq<Request>, key: Key, now: int, lo: int)
    requires key in After(lim, trace) && After(lim, trace)[key].resetAt < now && lo <= now <= lo + lim.interval
    ensures var next := trace + [Request(key, now)];
      && key in After(lim, next) && After(lim, next)[key] == Window(1, now + lim.interval)
      && Count(lim, next, key, lo, lo + lim.interval) == Count(lim, trace, key, lo, lo + lim.interval) + 1
  {
    var next := trace + [Request(key, now)];
    assert next[..|next| - 1] == trace;
  }

  /** For every positive limit and interval some trace reaches the bound: a late burst in
      one window, and a full window right after it. */
  lemma BoundIsReached(lim: Limits, key: Key) returns (trace: seq<Request>)
    requires lim.limit >= 1 && lim.interval >= 1
    ensures ClockRises(trace)
    ensures Count(lim, trace, key, 1, 1 + lim.interval) == 2 * Most(lim) - 1
  {
    var hi := 1 + lim.interval;
    LateBurstIsAllowed(lim, key);
    NextWindowOpens(lim, LateBurst(lim, key), key, hi, 1);
    var next := LateBurst(lim, key) + [Request(key, hi)];
    BurstIsAllowed(lim, next, key, lim.limit - 1, hi, 1, hi);
    trace := next + Burst(key, lim.limit - 1, hi);
    BurstsRise(lim, key);
  }

  lemma BurstsRise(lim: Limits, key: Key)
    requires lim.limit >= 1 && lim.interval >= 1
    ensures var hi := 1 + lim.interval;
      ClockRises(LateBurst(lim, key) + [Request(key, hi)] + Burst(key, lim.limit - 1, hi))
  {
    BurstTimes(key, lim.limit - 1, lim.interval);
    BurstTimes(key, lim.limit - 1, 1 + lim.interval);
  }

  lemma {:induction false} BurstTimes(key: Key, n: nat, now: int)
    ensures |Burst(key, n, now)| == n
    ensures forall i :: 0 <= i < n ==> Burst(key, n, now)[i] == Request(key, now)
  {
    if n > 0 { BurstTimes(key, n - 1, now); }
  }

  // ---- what decides a verdict ----

  ghost predicate AllowedAt(lim: Limits, trace: seq<Request>, i: nat)
    requires i < |trace|
  {
    Allowed(lim, After(lim, trace[..i]), trace[i])
  }

  /** The allowed requests of the key from the `o`th request on. */
  ghost function AllowedSince(lim: Limits, trace: seq<Request>, key: Key, o: nat): set<nat> {
    set i: nat | o <= i < |trace| && trace[i].key == key && AllowedAt(lim, trace, i)
  }

  /** The `o`th request opened the window that its key is in: it was allowed, and the key has
      sent nothing since that came after the interval had passed. */
  ghost predicate OpenedBy(lim: Limits, trace: seq<Request>, key: Key, o: nat) {
    && o < |trace| && trace[o].key == key && AllowedAt(lim, trace, o)
    && forall k :: o < k < |trace| && trace[k].key == key ==> trace[k].now <= trace[o].now + lim.interval
  }

  ghost predicate IsWindowOf(lim: Limits, trace: seq<Request>, key: Key, o: nat) {
    && OpenedBy(lim, trace, key, o) && key in After(lim, trace)
    && After(lim, trace)[key] == Window(|AllowedSince(lim, trace, key, o)|, trace[o].now + lim.interval)
  }

  lemma SinceGrows(lim: Limits, front: seq<Request>, r: Request, key: Key, o: nat)
    requires o <= |front|
    ensures var trace := front + [r];
      AllowedSince(lim, trace, key, o) ==
        AllowedSince(lim, front, key, o)
        + if r.key == key && Allowed(lim, After(lim, front), r) then {|front|} else {}
  {
    var trace := front + [r];
    assert trace[..|front|] == front;
    forall i: nat | i < |front| ensures AllowedAt(lim, trace, i) <==> AllowedAt(lim, front, i) {
      assert trace[..i] == front[..i];
    }
  }

  lemma OpenedStays(lim: Limits, front: seq<Request>, r: Request, key: Key, o: nat)
    requires OpenedBy(lim, front, key, o) && (r.key == key ==> r.now <= front[o].now + lim.interval)
    ensures OpenedBy(lim, front + [r], key, o)
  {
    assert (front + [r])[..o] == front[..o];
  }

  /** A key's window is the one its opening request made, with what was allowed since. */
  lemma {:induction false} WindowHasOpening(lim: Limits, trace: seq<Request>, key: Key) returns (o: nat)
    requires exists k :: 0 <= k < |trace| && trace[k].key == key
    ensures IsWindowOf(lim, trace, key, o)
    decreases |trace|
  {
    var n := |trace| - 1;
    var front, r := trace[..n], trace[n];
    assert trace == front + [r];
    if r.key == key && Opens(After(lim, front), r) {
      o := n;
      WindowOpens(lim, front, r);
    } else {
      if r.key == key { SeenHasRequest(lim, front, key); }
      o := WindowHasOpening(lim, front, key);
      WindowStays(lim, front, r, key, o);
    }
  }

  lemma WindowOpens(lim: Limits, front: seq<Request>, r: Request)
    requires Opens(After(lim, front), r)
    ensures IsWindowOf(lim, front + [r], r.key, |front|)
  {
    AfterOne(lim, front, r);
    SinceGrows(lim, front, r, r.key, |front|);
    assert AllowedSince(lim, front, r.key, |front|) == {};
  }

  lemma WindowStays(lim: Limits, front: seq<Request>, r: Request, key: Key, o: nat)
    requires IsWindowOf(lim, front, key, o)
    requires r.key == key ==> !Opens(After(lim, front), r)
    ensures IsWindowOf(lim, front + [r], key, o)
  {
    var before, since := AllowedSince(lim, front, key, o), AllowedSince(lim, front + [r], key, o);
    AfterOne(lim, front, r);
    SinceGrows(lim, front, r, key, o);
    assert OpenedBy(lim, front + [r], key, o) && (front + [r])[o] == front[o] by {
      OpenedStays(lim, front, r, key, o);
    }
    if r.key == key && Allowed(lim, After(lim, front), r) {
      assert |front| !in before && since == before + {|front|};
    } else {
      assert since == before;
    }
  }

  lemma AfterOne(lim: Limits, front: seq<Request>, r: Request)
    ensures After(lim, front + [r]) == Serve(lim, After(lim, front), r)
  {
    assert (front + [r])[..|front|] == front;
  }

  lemma {:induction false} SeenHasRequest(lim: Limits, trace: seq<Request>, key: Key)
    requires key in After(lim, trace)
    ensures exists k :: 0 <= k < |trace| && trace[k].key == key
    decreases |trace|
  {
    var n := |trace| - 1;
    if trace[n].key != key {
      SeenHasRequest(lim, trace[..n], key);
      var k :| 0 <= k < n && trace[..n][k].key == key;
      assert trace[k].key == key;
    }
  }

  /** A key's first request is allowed. A later one is allowed exactly when the interval
      since its window's opening has passed or the limit since then is not used up. */
  lemma VerdictByOpening(lim: Limits, trace: seq<Request>, r: Request) returns (o: nat)
    ensures (forall k :: 0 <= k < |trace| ==> trace[k].key != r.key) ==> Allowed(lim, After(lim, trace), r)
    ensures (exists k :: 0 <= k < |trace| && trace[k].key == r.key) ==>
      && OpenedBy(lim, trace, r.key, o)
      && (Allowed(lim, After(lim, trace), r) <==>
            trace[o].now + lim.interval < r.now || |AllowedSince(lim, trace, r.key, o)| < lim.limit)
  {
    if exists k :: 0 <= k < |trace| && trace[k].key == r.key {
      o := WindowHasOpening(lim, trace, r.key);
    } else {
      o := 0;
      if r.key in After(lim, trace) { SeenHasRequest(lim, trace, r.key); }
    }
  }

  /** Refusals do not hold a key back: once the clock is past all its allowed requests by
      more than the interval, it is allowed again. */
  lemma RefusalsDoNotExtend(lim: Limits, trace: seq<Request>, r: Request)
    requires forall k: nat :: k < |trace| && trace[k].key == r.key && AllowedAt(lim, trace, k) ==>
      trace[k].now + lim.interval < r.now
    ensures Allowed(lim, After(lim, trace), r)
  {
    var o := VerdictByOpening(lim, trace, r);
  }

  // ---- keys do not affect each other ----

  function OfKey(trace: seq<Request>, key: Key): seq<Request> {
    if trace == [] then []
    else
      var front, r := OfKey(trace[..|trace| - 1], key), trace[|trace| - 1];
      if r.key == key then front + [r] else front
  }

  lemma {:induction false} OtherKeysLeaveWindow(lim: Limits, trace: seq<Request>, key: Key)
    ensures key in After(lim, trace) <==> key in After(lim, OfKey(trace, key))
    ensures key in After(lim, trace) ==> After(lim, trace)[key] == After(lim, OfKey(trace, key))[key]
    decreases |trace|
  {
    if trace != [] {
      var front, r := trace[..|trace| - 1], trace[|trace| - 1];
      OtherKeysLeaveWindow(lim, front, key);
      if r.key == key {
        var mine := OfKey(trace, key);
        assert mine[..|mine| - 1] == OfKey(front, key);
      }
    }
  }

  /** A key's verdicts are those it would get alone. */
  lemma OtherKeysDoNotMatter(lim: Limits, trace: seq<Request>, r: Request)
    ensures Allowed(lim, After(lim, trace), r) == Allowed(lim, After(lim, OfKey(trace, r.key)), r)
  {
    OtherKeysLeaveWindow(lim, trace, r.key);
  }
}
