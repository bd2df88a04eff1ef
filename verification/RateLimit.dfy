// The in-process sliding-window rate limiter, and the guard that would keep every accepted
// request for ever.
module RateLimit {

  type Address = string
  type Buckets = map<Address, seq<int>>

  datatype Options = Options(windowMs: int, limit: int)

  datatype Request = Request(ip: Address, now: int)

  function Recent(ts: seq<int>, windowStart: int): seq<int> {
    if ts == [] then []
    else Recent(ts[..|ts| - 1], windowStart) + if ts[|ts| - 1] > windowStart then [ts[|ts| - 1]] else []
  }

  function BucketOf(b: Buckets, ip: Address): seq<int> {
    if ip in b then b[ip] else []
  }

  // One request: evict, decide, record.
  function Admit(o: Options, b: Buckets, r: Request): (Buckets, bool) {
    var recent := Recent(BucketOf(b, r.ip), r.now - o.windowMs);
    if |recent| >= o.limit then (b[r.ip := recent], false) else (b[r.ip := recent + [r.now]], true)
  }

  class RateLimitGuard {
    const options: Options
    var buckets: Buckets

    constructor (options: Options)
      ensures this.options == options && buckets == map[]
    {
      this.options, buckets := options, map[];
    }

    method CanActivate(r: Request) returns (allowed: bool)
      modifies this
      ensures (buckets, allowed) == Admit(options, old(buckets), r)
    {
      if r.ip !in buckets {
        buckets := buckets[r.ip := []];
      }
      var timestamps := buckets[r.ip];
      var windowStart := r.now - options.windowMs;
      // filter
      var recent: seq<int> := [];
      for i := 0 to |timestamps|
        invariant recent == Recent(timestamps[..i], windowStart)
      {
        assert timestamps[..i + 1][..i] == timestamps[..i];
        if timestamps[i] > windowStart {
          recent := recent + [timestamps[i]];
        }
      }
      assert timestamps[..|timestamps|] == timestamps;
      buckets := buckets[r.ip := recent];
      assert buckets == old(buckets)[r.ip := recent];
      if |recent| >= options.limit {
        return false;
      }
      buckets := buckets[r.ip := recent + [r.now]];
      assert buckets == old(buckets)[r.ip := recent + [r.now]];
      allowed := true;
    }
  }

  // ---- The guard with the full log -----------------------------------------------------------

  // The times at which requests of an address were accepted.
  function Times(log: seq<Request>, ip: Address): seq<int> {
    if log == [] then []
    else Times(log[..|log| - 1], ip) + if log[|log| - 1].ip == ip then [log[|log| - 1].now] else []
  }

  predicate FullLogAllows(o: Options, log: seq<Request>, r: Request) {
    |Recent(Times(log, r.ip), r.now - o.windowMs)| < o.limit
  }

  // The requests the guard with the full log accepts.
  function FullLog(o: Options, requests: seq<Request>): seq<Request> {
    if requests == [] then []
    else
      var log, r := FullLog(o, requests[..|requests| - 1]), requests[|requests| - 1];
      if FullLogAllows(o, log, r) then log + [r] else log
  }

  function After(o: Options, requests: seq<Request>): Buckets {
    if requests == [] then map[] else Admit(o, After(o, requests[..|requests| - 1]), requests[|requests| - 1]).0
  }

  // The requests the guard accepts.
  function Accepted(o: Options, requests: seq<Request>): seq<Request> {
    if requests == [] then []
    else
      var prefix, r := requests[..|requests| - 1], requests[|requests| - 1];
      Accepted(o, prefix) + if Admit(o, After(o, prefix), r).1 then [r] else []
  }

  ghost predicate ClockGoesForward(requests: seq<Request>) {
    forall i, j :: 0 <= i < j < |requests| ==> requests[i].now <= requests[j].now
  }

  // ---- Pruning does not change a decision ------------------------------------------------------

  lemma RecentAppend(ts: seq<int>, t: int, w: int)
    ensures Recent(ts + [t], w) == Recent(ts, w) + if t > w then [t] else []
  {
    assert (ts + [t])[..|ts|] == ts;
  }

  lemma {:induction false} RecentTwice(ts: seq<int>, w: int, v: int)
    ensures Recent(Recent(ts, w), v) == Recent(ts, if v > w then v else w)
  {
    if ts == [] {
    } else {
      var n := |ts| - 1;
      RecentTwice(ts[..n], w, v);
      if ts[n] > w {
        RecentAppend(Recent(ts[..n], w), ts[n], v);
      } else {
        assert Recent(ts, w) == Recent(ts[..n], w);
      }
    }
  }

  // Buckets and log agree on every window that starts late enough.
  ghost predicate Agree(b: Buckets, log: seq<Request>, w: int) {
    forall ip, later :: later >= w ==> Recent(BucketOf(b, ip), later) == Recent(Times(log, ip), later)
  }

  // What is left of a view after request r of the address has looked back.
  function LaterView(o: Options, r: Request, ip: Address, w: int): int {
    if r.ip == ip && r.now - o.windowMs > w then r.now - o.windowMs else w
  }

  lemma AdmitBucket(o: Options, b: Buckets, r: Request, ip: Address, w: int)
    ensures Recent(BucketOf(Admit(o, b, r).0, ip), w)
         == Recent(BucketOf(b, ip), LaterView(o, r, ip, w))
              + if r.ip == ip && r.now > w && Admit(o, b, r).1 then [r.now] else []
  {
    if r.ip == ip {
      var start := r.now - o.windowMs;
      RecentTwice(BucketOf(b, ip), start, w);
      RecentAppend(Recent(BucketOf(b, ip), start), r.now, w);
    }
  }

  lemma TimesAppend(log: seq<Request>, r: Request, ip: Address)
    ensures Times(log + [r], ip) == Times(log, ip) + if r.ip == ip then [r.now] else []
  {
    assert (log + [r])[..|log|] == log;
  }

  lemma BucketAgrees(o: Options, b: Buckets, log: seq<Request>, r: Request, ip: Address, later: int)
    requires later >= r.now - o.windowMs && Recent(BucketOf(b, ip), later) == Recent(Times(log, ip), later)
    ensures Recent(BucketOf(Admit(o, b, r).0, ip), later)
         == Recent(Times(if Admit(o, b, r).1 then log + [r] else log, ip), later)
  {
    AdmitBucket(o, b, r, ip, later);
    TimesAppend(log, r, ip);
    if r.ip == ip {
      RecentAppend(Times(log, ip), r.now, later);
    } else {
      assert Times(log, ip) + [] == Times(log, ip);
    }
  }

  lemma StepAgrees(o: Options, b: Buckets, log: seq<Request>, r: Request, w: int)
    requires Agree(b, log, w) && w <= r.now - o.windowMs
    ensures Admit(o, b, r).1 == FullLogAllows(o, log, r)
    ensures Agree(Admit(o, b, r).0, if Admit(o, b, r).1 then log + [r] else log, r.now - o.windowMs)
  {
    var start := r.now - o.windowMs;
    assert Recent(BucketOf(b, r.ip), start) == Recent(Times(log, r.ip), start);
    var (b', allowed) := Admit(o, b, r);
    var log' := if allowed then log + [r] else log;
    forall ip, later | later >= start
      ensures Recent(BucketOf(b', ip), later) == Recent(Times(log', ip), later)
    {
      assert Recent(BucketOf(b, ip), later) == Recent(Times(log, ip), later);
      BucketAgrees(o, b, log, r, ip, later);
    }
  }

  lemma {:induction false} BucketsAgreeWithLog(o: Options, requests: seq<Request>, w: int)
    requires ClockGoesForward(requests)
    requires requests != [] ==> w >= requests[|requests| - 1].now - o.windowMs
    ensures Agree(After(o, requests), FullLog(o, requests), w)
  {
    if requests == [] {
    } else {
      var n := |requests| - 1;
      var r := requests[n];
      BucketsAgreeWithLog(o, requests[..n], r.now - o.windowMs);
      StepAgrees(o, After(o, requests[..n]), FullLog(o, requests[..n]), r, r.now - o.windowMs);
    }
  }

  // With a clock that does not go back, the pruned buckets decide every request as the guard
  // with the full log would.
  lemma PrunedDecidesAsFull(o: Options, requests: seq<Request>, r: Request)
    requires ClockGoesForward(requests + [r])
    ensures Admit(o, After(o, requests), r).1 == FullLogAllows(o, FullLog(o, requests), r)
  {
    assert forall i :: 0 <= i < |requests| ==> (requests + [r])[i] == requests[i];
    assert (requests + [r])[|requests|] == r;
    BucketsAgreeWithLog(o, requests, r.now - o.windowMs);
    StepAgrees(o, After(o, requests), FullLog(o, requests), r, r.now - o.windowMs);
  }

  lemma {:induction false} AcceptedIsFullLog(o: Options, requests: seq<Request>)
    requires ClockGoesForward(requests)
    ensures Accepted(o, requests) == FullLog(o, requests)
  {
    if requests == [] {
    } else {
      var n := |requests| - 1;
      AcceptedIsFullLog(o, requests[..n]);
      assert requests[..n] + [requests[n]] == requests;
      PrunedDecidesAsFull(o, requests[..n], requests[n]);
    }
  }

  // ---- Any clock ------------------------------------------------------------------------------------

  predicate AcceptedAt(o: Options, requests: seq<Request>, i: nat)
    requires i < |requests|
  {
    Admit(o, After(o, requests[..i]), requests[i]).1
  }

  // A later request of the address had the time outside its window.
  predicate LeftBehind(o: Options, requests: seq<Request>, i: nat)
    requires i < |requests|
  {
    exists j :: i < j < |requests| && requests[j].ip == requests[i].ip && requests[i].now <= requests[j].now - o.windowMs
  }

  // An accepted request of the address that is later than w and was not left behind.
  predicate KeptAt(o: Options, requests: seq<Request>, ip: Address, w: int, i: nat)
    requires i < |requests|
  {
    requests[i].ip == ip && requests[i].now > w && AcceptedAt(o, requests, i) && !LeftBehind(o, requests, i)
  }

  // The times of these among the first n requests.
  function Kept(o: Options, requests: seq<Request>, ip: Address, w: int, n: nat): seq<int>
    requires n <= |requests|
  {
    if n == 0 then []
    else if KeptAt(o, requests, ip, w, n - 1) then Kept(o, requests, ip, w, n - 1) + [requests[n - 1].now]
    else Kept(o, requests, ip, w, n - 1)
  }

  lemma LeftBehindAppend(o: Options, requests: seq<Request>, r: Request, i: nat)
    requires i < |requests|
    ensures LeftBehind(o, requests + [r], i) <==>
              LeftBehind(o, requests, i) || (r.ip == requests[i].ip && requests[i].now <= r.now - o.windowMs)
  {
    var all := requests + [r];
    assert all[|requests|] == r && forall j :: 0 <= j < |requests| ==> all[j] == requests[j];
  }

  lemma KeptAtAppend(o: Options, requests: seq<Request>, r: Request, ip: Address, w: int, i: nat)
    requires i < |requests|
    ensures KeptAt(o, requests + [r], ip, w, i) <==> KeptAt(o, requests, ip, LaterView(o, r, ip, w), i)
  {
    LeftBehindAppend(o, requests, r, i);
    assert (requests + [r])[..i] == requests[..i] && (requests + [r])[i] == requests[i];
  }

  lemma {:induction false} KeptAppend(o: Options, requests: seq<Request>, r: Request, ip: Address, w: int, n: nat)
    requires n <= |requests|
    ensures Kept(o, requests + [r], ip, w, n) == Kept(o, requests, ip, LaterView(o, r, ip, w), n)
  {
    if n == 0 {
    } else {
      KeptAppend(o, requests, r, ip, w, n - 1);
      KeptAtAppend(o, requests, r, ip, w, n - 1);
      assert (requests + [r])[n - 1] == requests[n - 1];
    }
  }

  lemma KeptLast(o: Options, requests: seq<Request>, r: Request, ip: Address, w: int)
    ensures Kept(o, requests + [r], ip, w, |requests| + 1)
         == Kept(o, requests, ip, LaterView(o, r, ip, w), |requests|)
              + if r.ip == ip && r.now > w && Admit(o, After(o, requests), r).1 then [r.now] else []
  {
    KeptAppend(o, requests, r, ip, w, |requests|);
    assert (requests + [r])[|requests|] == r && (requests + [r])[..|requests|] == requests;
    assert !LeftBehind(o, requests + [r], |requests|);
  }

  // A bucket holds exactly the accepted times that were not left behind.
  lemma {:induction false} BucketExactly(o: Options, requests: seq<Request>, ip: Address, w: int)
    ensures Recent(BucketOf(After(o, requests), ip), w) == Kept(o, requests, ip, w, |requests|)
  {
    if requests == [] {
    } else {
      var prefix, r := requests[..|requests| - 1], requests[|requests| - 1];
      assert requests == prefix + [r];
      BucketExactly(o, prefix, ip, LaterView(o, r, ip, w));
      KeptLast(o, prefix, r, ip, w);
      AdmitBucket(o, After(o, prefix), r, ip, w);
    }
  }

  // Whatever the clock does, a request is accepted exactly when fewer acceptances of its address
  // than the limit lie in its window and were not left behind by a request in between.
  lemma AdmitsExactly(o: Options, requests: seq<Request>, r: Request)
    ensures Admit(o, After(o, requests), r).1 <==>
              |Kept(o, requests, r.ip, r.now - o.windowMs, |requests|)| < o.limit
  {
    BucketExactly(o, requests, r.ip, r.now - o.windowMs);
  }

  lemma {:induction false} RecentShrinks(ts: seq<int>, w: int, v: int)
    requires w <= v
    ensures |Recent(ts, v)| <= |Recent(ts, w)|
  {
    if ts == [] {
    } else {
      RecentShrinks(ts[..|ts| - 1], w, v);
    }
  }

  lemma {:induction false} KeptWithinAccepted(o: Options, requests: seq<Request>, ip: Address, w: int)
    ensures |Kept(o, requests, ip, w, |requests|)| <= |Recent(Times(Accepted(o, requests), ip), w)|
  {
    if requests == [] {
    } else {
      var prefix, r := requests[..|requests| - 1], requests[|requests| - 1];
      assert requests == prefix + [r];
      var ts := Times(Accepted(o, prefix), ip);
      KeptLast(o, prefix, r, ip, w);
      KeptWithinAccepted(o, prefix, ip, LaterView(o, r, ip, w));
      RecentShrinks(ts, w, LaterView(o, r, ip, w));
      if Admit(o, After(o, prefix), r).1 {
        TimesAppend(Accepted(o, prefix), r, ip);
        if r.ip == ip {
          RecentAppend(ts, r.now, w);
        } else {
          assert Times(Accepted(o, requests), ip) == ts;
        }
      } else {
        assert Accepted(o, requests) == Accepted(o, prefix);
      }
    }
  }

  // And so pruning changes a decision, against the full log of what was accepted, exactly when
  // the times left behind make the difference between the limit and less.
  lemma PruningMattersExactly(o: Options, requests: seq<Request>, r: Request)
    ensures var w := r.now - o.windowMs;
            Admit(o, After(o, requests), r).1 != FullLogAllows(o, Accepted(o, requests), r) <==>
              |Kept(o, requests, r.ip, w, |requests|)| < o.limit <= |Recent(Times(Accepted(o, requests), r.ip), w)|
  {
    AdmitsExactly(o, requests, r);
    KeptWithinAccepted(o, requests, r.ip, r.now - o.windowMs);
  }

  // ---- No window is overfull ----------------------------------------------------------------------

  // How many times lie in the window (start, start + width].
  function InWindow(ts: seq<int>, start: int, width: int): nat {
    if ts == [] then 0
    else InWindow(ts[..|ts| - 1], start, width) + if start < ts[|ts| - 1] <= start + width then 1 else 0
  }

  lemma {:induction false} WindowWithinRecent(ts: seq<int>, start: int, width: int, w: int)
    requires w <= start
    ensures InWindow(ts, start, width) <= |Recent(ts, w)|
  {
    if ts == [] {
    } else {
      WindowWithinRecent(ts[..|ts| - 1], start, width, w);
    }
  }

  // Every acceptance is one that the full log of the acceptances before it would allow.
  ghost predicate NothingMissed(o: Options, requests: seq<Request>) {
    requests == [] ||
    var prefix, r := requests[..|requests| - 1], requests[|requests| - 1];
    NothingMissed(o, prefix) && (Admit(o, After(o, prefix), r).1 ==> FullLogAllows(o, Accepted(o, prefix), r))
  }

  lemma {:induction false} ForwardMissesNothing(o: Options, requests: seq<Request>)
    requires ClockGoesForward(requests)
    ensures NothingMissed(o, requests)
  {
    if requests == [] {
    } else {
      var n := |requests| - 1;
      ForwardMissesNothing(o, requests[..n]);
      AcceptedIsFullLog(o, requests[..n]);
      assert requests[..n] + [requests[n]] == requests;
      PrunedDecidesAsFull(o, requests[..n], requests[n]);
    }
  }

  lemma OneMoreInWindow(o: Options, log: seq<Request>, r: Request, ip: Address, start: int)
    requires FullLogAllows(o, log, r)
    requires InWindow(Times(log, ip), start, o.windowMs) <= if o.limit > 0 then o.limit else 0
    ensures InWindow(Times(log + [r], ip), start, o.windowMs) <= if o.limit > 0 then o.limit else 0
  {
    var ts := Times(log, ip);
    TimesAppend(log, r, ip);
    if r.ip == ip {
      assert (ts + [r.now])[..|ts|] == ts;
      if start < r.now <= start + o.windowMs {
        WindowWithinRecent(ts, start, o.windowMs, r.now - o.windowMs);
      }
    } else {
      assert Times(log + [r], ip) == ts;
    }
  }

  lemma {:induction false} WindowsWithinLimit(o: Options, requests: seq<Request>, ip: Address, start: int)
    requires NothingMissed(o, requests)
    ensures InWindow(Times(Accepted(o, requests), ip), start, o.windowMs) <= if o.limit > 0 then o.limit else 0
  {
    if requests == [] {
    } else {
      var n := |requests| - 1;
      WindowsWithinLimit(o, requests[..n], ip, start);
      if Admit(o, After(o, requests[..n]), requests[n]).1 {
        OneMoreInWindow(o, Accepted(o, requests[..n]), requests[n], ip, start);
      } else {
        assert Accepted(o, requests) == Accepted(o, requests[..n]);
      }
    }
  }

  // With a clock that does not go back, no window of the configured width holds more accepted
  // requests of one address than the limit.
  lemma NoWindowOverfull(o: Options, requests: seq<Request>, ip: Address, start: int)
    requires ClockGoesForward(requests)
    ensures InWindow(Times(Accepted(o, requests), ip), start, o.windowMs) <= if o.limit > 0 then o.limit else 0
  {
    ForwardMissesNothing(o, requests);
    WindowsWithinLimit(o, requests, ip, start);
  }

  // One more request is accepted.
  lemma Accepts(o: Options, requests: seq<Request>, r: Request, recent: seq<int>)
    requires Recent(BucketOf(After(o, requests), r.ip), r.now - o.windowMs) == recent && |recent| < o.limit
    ensures BucketOf(After(o, requests + [r]), r.ip) == recent + [r.now]
    ensures Times(Accepted(o, requests + [r]), r.ip) == Times(Accepted(o, requests), r.ip) + [r.now]
  {
    assert (requests + [r])[..|requests|] == requests;
    TimesAppend(Accepted(o, requests), r, r.ip);
  }

  const OPTIONS := Options(10, 2)

  // What is known of the guard after these requests of the address.
  ghost predicate Stands(requests: seq<Request>, bucket: seq<int>, accepted: seq<int>) {
    BucketOf(After(OPTIONS, requests), "ip") == bucket && Times(Accepted(OPTIONS, requests), "ip") == accepted
  }

  lemma StandsOn(requests: seq<Request>, bucket: seq<int>, accepted: seq<int>, now: int, recent: seq<int>)
    requires Stands(requests, bucket, accepted) && Recent(bucket, now - 10) == recent && |recent| < 2
    ensures Stands(requests + [Request("ip", now)], recent + [now], accepted + [now])
  {
    Accepts(OPTIONS, requests, Request("ip", now), recent);
  }

  lemma FirstTwo(requests: seq<Request>)
    requires requests == [Request("ip", 100)] + [Request("ip", 100)]
    ensures Stands(requests, [100, 100], [100, 100])
  {
    var one := [Request("ip", 100)];
    StandsOn([], [], [], 100, []);
    assert [] + one == one && [] + [100] == [100];
    StandsOn(one, [100], [100], 100, [100]);
    assert [100] + [100] == [100, 100];
  }

  lemma Third(requests: seq<Request>)
    requires Stands(requests, [100, 100], [100, 100])
    ensures Stands(requests + [Request("ip", 200)], [200], [100, 100, 200])
  {
    assert [100, 100] == [100] + [100] && [100] == [] + [100];
    RecentAppend([100], 100, 190);
    RecentAppend([], 100, 190);
    StandsOn(requests, [100, 100], [100, 100], 200, []);
    assert [] + [200] == [200] && [100, 100] + [200] == [100, 100, 200];
  }

  lemma Fourth(requests: seq<Request>)
    requires Stands(requests, [200], [100, 100, 200])
    ensures Stands(requests + [Request("ip", 101)], [200, 101], [100, 100, 200, 101])
  {
    RecentAppend([], 200, 91);
    StandsOn(requests, [200], [100, 100, 200], 101, [200]);
    assert [200] + [101] == [200, 101] && [100, 100, 200] + [101] == [100, 100, 200, 101];
  }

  lemma ThreeInWindow()
    ensures InWindow([100, 100, 200, 101], 91, 10) == 3
  {
    var ts := [100, 100, 200, 101];
    assert ts[..3] == [100, 100, 200] && [100, 100, 200][..2] == [100, 100] && [100, 100][..1] == [100];
    assert InWindow([100], 91, 10) == 1;
    assert InWindow([100, 100], 91, 10) == 2;
    assert InWindow([100, 100, 200], 91, 10) == 2;
  }

  // When the clock goes back the bound can fail: the request at 200 drops the two at 100, and
  // the one at 101 is then the third in its window.
  lemma BackwardClockOverfills(requests: seq<Request>)
    requires requests == [Request("ip", 100)] + [Request("ip", 100)] + [Request("ip", 200)] + [Request("ip", 101)]
    ensures InWindow(Times(Accepted(OPTIONS, requests), "ip"), 91, OPTIONS.windowMs) == 3 > OPTIONS.limit
  {
    var two := [Request("ip", 100)] + [Request("ip", 100)];
    FirstTwo(two);
    Third(two);
    Fourth(two + [Request("ip", 200)]);
    ThreeInWindow();
  }
}
