/** The data service's fixed-window rate limiter, over whole runs of requests. */
module WindowLimiter {
  import opened Collections

  datatype Visitor = Visitor(count: int, resetAt: int)

  datatype Request = Request(ip: string, now: int)

  type Visitors = map<string, Visitor>

  datatype Limits = Limits(rate: int, window: int)

  predicate Fresh(v: Visitors, r: Request) { r.ip !in v || r.now > v[r.ip].resetAt }

  predicate Admits(l: Limits, v: Visitors, r: Request) { Fresh(v, r) || v[r.ip].count < l.rate }

  function After(l: Limits, v: Visitors, r: Request): Visitors {
    if Fresh(v, r) then v[r.ip := Visitor(1, r.now + l.window)]
    else if v[r.ip].count >= l.rate then v
    else v[r.ip := v[r.ip].(count := v[r.ip].count + 1)]
  }

  class RateLimiter {
    var visitors: Visitors
    const limits: Limits

    constructor (rate: int, window: int)
      ensures visitors == map[] && limits == Limits(rate, window)
    {
      visitors, limits := map[], Limits(rate, window);
    }

    /** The middleware's critical section: admit, or answer 429. */
    method Allow(ip: string, now: int) returns (ok: bool)
      modifies this
      ensures ok == Admits(limits, old(visitors), Request(ip, now))
      ensures visitors == After(limits, old(visitors), Request(ip, now))
    {
      if ip !in visitors || now > visitors[ip].resetAt {
        visitors := visitors[ip := Visitor(1, now + limits.window)];
        return true;
      }
      var info := visitors[ip];
      if info.count >= limits.rate {
        return false;
      }
      visitors := visitors[ip := info.(count := info.count + 1)];
      ok := true;
    }
  }

  // ---- whole runs ----

  function Run(l: Limits, reqs: seq<Request>): Visitors {
    if reqs == [] then map[] else After(l, Run(l, reqs[..|reqs| - 1]), reqs[|reqs| - 1])
  }

  /** The decision on the last request of a run. */
  predicate Admitted(l: Limits, reqs: seq<Request>)
    requires reqs != []
  {
    Admits(l, Run(l, reqs[..|reqs| - 1]), reqs[|reqs| - 1])
  }

  /** How many requests of a client were admitted at an instant in [lo, hi]. */
  function AdmittedIn(l: Limits, reqs: seq<Request>, ip: string, lo: int, hi: int): nat {
    if reqs == [] then 0 else
      var r := reqs[|reqs| - 1];
      AdmittedIn(l, reqs[..|reqs| - 1], ip, lo, hi) +
      (if r.ip == ip && lo <= r.now <= hi && Admitted(l, reqs) then 1 else 0)
  }

  /** How many requests of a client were admitted at or after an instant. */
  function AdmittedSince(l: Limits, reqs: seq<Request>, ip: string, lo: int): nat {
    if reqs == [] then 0 else
      var r := reqs[|reqs| - 1];
      AdmittedSince(l, reqs[..|reqs| - 1], ip, lo) + (if r.ip == ip && lo <= r.now && Admitted(l, reqs) then 1 else 0)
  }

  predicate Monotone(reqs: seq<Request>) {
    forall i, j :: 0 <= i < j < |reqs| ==> reqs[i].now <= reqs[j].now
  }

  lemma {:induction false} SinceShrinks(l: Limits, reqs: seq<Request>, ip: string, lo: int, hi: int)
    requires lo <= hi
    ensures AdmittedSince(l, reqs, ip, hi) <= AdmittedSince(l, reqs, ip, lo)
    decreases |reqs|
  {
    if reqs != [] { SinceShrinks(l, reqs[..|reqs| - 1], ip, lo, hi); }
  }

  lemma {:induction false} InIsSince(l: Limits, reqs: seq<Request>, ip: string, lo: int, hi: int)
    ensures AdmittedIn(l, reqs, ip, lo, hi) <= AdmittedSince(l, reqs, ip, lo)
    decreases |reqs|
  {
    if reqs != [] { InIsSince(l, reqs[..|reqs| - 1], ip, lo, hi); }
  }

  lemma OneMore(l: Limits, reqs: seq<Request>, r: Request)
    ensures Run(l, reqs + [r]) == After(l, Run(l, reqs), r)
    ensures Admitted(l, reqs + [r]) == Admits(l, Run(l, reqs), r)
  {
    assert (reqs + [r])[..|reqs|] == reqs;
  }

  lemma OneMoreSince(l: Limits, reqs: seq<Request>, r: Request, ip: string, lo: int)
    ensures AdmittedSince(l, reqs + [r], ip, lo) == AdmittedSince(l, reqs, ip, lo)
              + if r.ip == ip && lo <= r.now && Admits(l, Run(l, reqs), r) then 1 else 0
  {
    assert (reqs + [r])[..|reqs|] == reqs;
  }

  lemma OneMoreIn(l: Limits, reqs: seq<Request>, r: Request, ip: string, lo: int, hi: int)
    ensures AdmittedIn(l, reqs + [r], ip, lo, hi) == AdmittedIn(l, reqs, ip, lo, hi)
              + if r.ip == ip && lo <= r.now <= hi && Admits(l, Run(l, reqs), r) then 1 else 0
  {
    assert (reqs + [r])[..|reqs|] == reqs;
  }

  lemma {:induction false} UnknownHasNone(l: Limits, reqs: seq<Request>, ip: string, lo: int)
    ensures ip !in Run(l, reqs) ==> AdmittedSince(l, reqs, ip, lo) == 0
    decreases |reqs|
  {
    if reqs != [] { UnknownHasNone(l, reqs[..|reqs| - 1], ip, lo); }
  }

  /**
   * What the counter knows, for the window opened at s = resetAt - window: it counts everything since
   * s, its first request is not after s, and one earlier window at most reaches back into [s - window, s).
   */
  ghost predicate Accounted(l: Limits, reqs: seq<Request>, ip: string, v: Visitor) {
    var s := v.resetAt - l.window;
    && 1 <= v.count <= l.rate
    && AdmittedSince(l, reqs, ip, s) <= v.count
    && AdmittedSince(l, reqs, ip, s + 1) <= v.count - 1
    && AdmittedSince(l, reqs, ip, s - l.window) <= l.rate - 1 + v.count
    && AdmittedSince(l, reqs, ip, v.resetAt + 1) == 0
  }

  /** Before a request that opens a window: nothing since now, at most rate - 1 within the window before. */
  lemma BeforeOpening(l: Limits, reqs: seq<Request>, r: Request, lo: int)
    requires l.rate >= 1 && l.window >= 0 && Fresh(Run(l, reqs), r) && lo >= r.now - l.window
    requires r.ip in Run(l, reqs) ==> Accounted(l, reqs, r.ip, Run(l, reqs)[r.ip])
    ensures AdmittedSince(l, reqs, r.ip, lo) <= l.rate - 1
    ensures lo >= r.now ==> AdmittedSince(l, reqs, r.ip, lo) == 0
    ensures AdmittedSince(l, reqs + [r], r.ip, lo) == AdmittedSince(l, reqs, r.ip, lo) + if lo <= r.now then 1 else 0
  {
    var v := Run(l, reqs);
    OneMoreSince(l, reqs, r, r.ip, lo);
    if r.ip in v {
      SinceShrinks(l, reqs, r.ip, v[r.ip].resetAt - l.window + 1, lo);
      if lo >= r.now { SinceShrinks(l, reqs, r.ip, v[r.ip].resetAt + 1, lo); }
    } else {
      UnknownHasNone(l, reqs, r.ip, lo);
    }
  }

  lemma OpeningIsAccounted(l: Limits, reqs: seq<Request>, r: Request)
    requires l.rate >= 1 && l.window >= 0 && Fresh(Run(l, reqs), r)
    requires r.ip in Run(l, reqs) ==> Accounted(l, reqs, r.ip, Run(l, reqs)[r.ip])
    ensures Accounted(l, reqs + [r], r.ip, Visitor(1, r.now + l.window))
  {
    BeforeOpening(l, reqs, r, r.now);
    BeforeOpening(l, reqs, r, r.now + 1);
    BeforeOpening(l, reqs, r, r.now - l.window);
    BeforeOpening(l, reqs, r, r.now + l.window + 1);
  }

  /** Any other request keeps the account. */
  lemma StepIsAccounted(l: Limits, reqs: seq<Request>, r: Request, ip: string)
    requires ip in Run(l, reqs) && Accounted(l, reqs, ip, Run(l, reqs)[ip]) && !(r.ip == ip && Fresh(Run(l, reqs), r))
    ensures Accounted(l, reqs + [r], ip, After(l, Run(l, reqs), r)[ip])
  {
    var v := Run(l, reqs)[ip];
    var s := v.resetAt - l.window;
    OneMoreSince(l, reqs, r, ip, s);
    OneMoreSince(l, reqs, r, ip, s + 1);
    OneMoreSince(l, reqs, r, ip, s - l.window);
    OneMoreSince(l, reqs, r, ip, v.resetAt + 1);
  }

  lemma {:induction false} AlwaysAccounted(l: Limits, reqs: seq<Request>, ip: string)
    requires l.rate >= 1 && l.window >= 0 && Monotone(reqs)
    ensures ip in Run(l, reqs) ==>
      && Accounted(l, reqs, ip, Run(l, reqs)[ip])
      && reqs != [] && Run(l, reqs)[ip].resetAt - l.window <= reqs[|reqs| - 1].now
    decreases |reqs|
  {
    if reqs != [] {
      var init, r := reqs[..|reqs| - 1], reqs[|reqs| - 1];
      assert reqs == init + [r];
      AlwaysAccounted(l, init, ip);
      if r.ip == ip && Fresh(Run(l, init), r) {
        OpeningIsAccounted(l, init, r);
      } else if ip in Run(l, init) {
        StepIsAccounted(l, init, r, ip);
      }
    }
  }

  /** Any interval as long as the window admits at most 2 * rate - 1 requests of one client. */
  lemma {:induction false} AtMostTwiceTheRate(l: Limits, reqs: seq<Request>, ip: string, lo: int)
    requires l.rate >= 1 && l.window >= 0 && Monotone(reqs)
    ensures AdmittedIn(l, reqs, ip, lo, lo + l.window) <= 2 * l.rate - 1
    decreases |reqs|
  {
    if reqs != [] {
      var init, r := reqs[..|reqs| - 1], reqs[|reqs| - 1];
      AtMostTwiceTheRate(l, init, ip, lo);
      if r.ip == ip && lo <= r.now <= lo + l.window {
        AlwaysAccounted(l, reqs, ip);
        var s := Run(l, reqs)[ip].resetAt - l.window;
        InIsSince(l, reqs, ip, lo, lo + l.window);
        SinceShrinks(l, reqs, ip, s - l.window, lo);
      }
    }
  }

  // ---- the bound is reached ----

  /** A run followed by k requests at one instant. */
  function Burst(reqs: seq<Request>, ip: string, now: int, k: nat): seq<Request> {
    if k == 0 then reqs else Burst(reqs, ip, now, k - 1) + [Request(ip, now)]
  }

  /** An open window below the rate admits one more request and counts it. */
  lemma OpenWindowAdmits(l: Limits, reqs: seq<Request>, ip: string, now: int, v: Visitor, lo: int, hi: int)
    requires ip in Run(l, reqs) && Run(l, reqs)[ip] == v && now <= v.resetAt && v.count < l.rate && lo <= now <= hi
    ensures var more := reqs + [Request(ip, now)];
      && ip in Run(l, more) && Run(l, more)[ip] == Visitor(v.count + 1, v.resetAt)
      && AdmittedIn(l, more, ip, lo, hi) == AdmittedIn(l, reqs, ip, lo, hi) + 1
  {
    OneMore(l, reqs, Request(ip, now));
    OneMoreIn(l, reqs, Request(ip, now), ip, lo, hi);
  }

  /** While the window is open and the count allows it, a burst is admitted in full. */
  lemma {:induction false} BurstIsAdmitted(l: Limits, reqs: seq<Request>, ip: string, now: int, v: Visitor, k: nat, lo: int, hi: int)
    requires ip in Run(l, reqs) && Run(l, reqs)[ip] == v && now <= v.resetAt && v.count + k <= l.rate
    requires lo <= now <= hi
    ensures var all := Burst(reqs, ip, now, k);
      && ip in Run(l, all) && Run(l, all)[ip] == Visitor(v.count + k, v.resetAt)
      && AdmittedIn(l, all, ip, lo, hi) == AdmittedIn(l, reqs, ip, lo, hi) + k
    decreases k
  {
    if k > 0 {
      BurstIsAdmitted(l, reqs, ip, now, v, k - 1, lo, hi);
      OpenWindowAdmits(l, Burst(reqs, ip, now, k - 1), ip, now, Visitor(v.count + k - 1, v.resetAt), lo, hi);
    }
  }

  predicate EndsBy(reqs: seq<Request>, now: int) {
    Monotone(reqs) && forall i :: 0 <= i < |reqs| ==> reqs[i].now <= now
  }

  lemma {:induction false} BurstMonotone(reqs: seq<Request>, ip: string, now: int, k: nat)
    requires EndsBy(reqs, now)
    ensures EndsBy(Burst(reqs, ip, now, k), now)
    decreases k
  {
    if k > 0 { BurstMonotone(reqs, ip, now, k - 1); }
  }

  /** A request that opens a fresh window. */
  lemma FreshWindow(l: Limits, before: seq<Request>, ip: string, now: int, lo: int, hi: int)
    requires EndsBy(before, now) && Fresh(Run(l, before), Request(ip, now))
    ensures var reqs := before + [Request(ip, now)];
      && EndsBy(reqs, now) && ip in Run(l, reqs) && Run(l, reqs)[ip] == Visitor(1, now + l.window)
      && AdmittedIn(l, reqs, ip, lo, hi) == AdmittedIn(l, before, ip, lo, hi) + if lo <= now <= hi then 1 else 0
  {
    OneMore(l, before, Request(ip, now));
    OneMoreIn(l, before, Request(ip, now), ip, lo, hi);
  }

  lemma EndsLater(reqs: seq<Request>, now: int, later: int)
    requires EndsBy(reqs, now) && now <= later
    ensures EndsBy(reqs, later)
  {
  }

  /** A request in a fresh window, then a burst that uses up its count. */
  lemma FullWindow(l: Limits, before: seq<Request>, ip: string, first: int, rest: int, lo: int, hi: int)
    returns (reqs: seq<Request>)
    requires l.rate >= 1 && EndsBy(before, first) && Fresh(Run(l, before), Request(ip, first))
    requires first <= rest <= first + l.window && lo <= rest <= hi
    ensures EndsBy(reqs, rest) && ip in Run(l, reqs) && Run(l, reqs)[ip].resetAt == first + l.window
    ensures AdmittedIn(l, reqs, ip, lo, hi) == AdmittedIn(l, before, ip, lo, hi)
              + (if lo <= first <= hi then 1 else 0) + l.rate - 1
  {
    FreshWindow(l, before, ip, first, lo, hi);
    var mid := before + [Request(ip, first)];
    EndsLater(mid, first, rest);
    BurstIsAdmitted(l, mid, ip, rest, Visitor(1, first + l.window), l.rate - 1, lo, hi);
    BurstMonotone(mid, ip, rest, l.rate - 1);
    reqs := Burst(mid, ip, rest, l.rate - 1);
  }

  /** For every rate the bound is met: a burst that ends one window, then one that starts the next. */
  lemma TwiceTheRateIsReached(l: Limits, ip: string) returns (reqs: seq<Request>)
    requires l.rate >= 1 && l.window >= 1
    ensures Monotone(reqs) && AdmittedIn(l, reqs, ip, l.window, 2 * l.window) == 2 * l.rate - 1
  {
    var w := l.window;
    reqs := FullWindow(l, [], ip, 0, w, w, 2 * w);
    reqs := FullWindow(l, reqs, ip, w + 1, w + 1, w, 2 * w);
  }

  // ---- clients do not affect each other ----

  function OfClient(ip: string): Request -> bool { (r: Request) => r.ip == ip }

  predicate SameFor(ip: string, a: Visitors, b: Visitors) {
    (ip in a <==> ip in b) && (ip in a ==> a[ip] == b[ip])
  }

  lemma {:induction false} ClientState(l: Limits, reqs: seq<Request>, ip: string)
    ensures SameFor(ip, Run(l, reqs), Run(l, Filter(OfClient(ip), reqs)))
    decreases |reqs|
  {
    if reqs != [] {
      var init, r := reqs[..|reqs| - 1], reqs[|reqs| - 1];
      ClientState(l, init, ip);
      OneMore(l, Filter(OfClient(ip), init), r);
      if r.ip != ip { assert Filter(OfClient(ip), reqs) == Filter(OfClient(ip), init); }
    }
  }

  /** Each decision, and every count, is that of the run holding the client's own requests only. */
  lemma {:induction false} ClientsAreIndependent(l: Limits, reqs: seq<Request>, ip: string, lo: int, hi: int)
    ensures AdmittedIn(l, reqs, ip, lo, hi) == AdmittedIn(l, Filter(OfClient(ip), reqs), ip, lo, hi)
    ensures reqs != [] && reqs[|reqs| - 1].ip == ip ==>
      Filter(OfClient(ip), reqs) != [] && Admitted(l, reqs) == Admitted(l, Filter(OfClient(ip), reqs))
    decreases |reqs|
  {
    if reqs != [] {
      var init, r := reqs[..|reqs| - 1], reqs[|reqs| - 1];
      var own := Filter(OfClient(ip), init);
      ClientsAreIndependent(l, init, ip, lo, hi);
      ClientState(l, init, ip);
      if r.ip == ip {
        OneMore(l, own, r);
        OneMoreIn(l, own, r, ip, lo, hi);
      } else {
        assert Filter(OfClient(ip), reqs) == own;
      }
    }
  }
}
