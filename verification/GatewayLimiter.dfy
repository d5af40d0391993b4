/** The gateway's rate limiter with its periodic cleanup, over whole runs of requests and cleanups. */
module GatewayLimiter {
  import opened Collections

  datatype Visitor = Visitor(count: int, lastSeen: int)

  datatype Event = Request(ip: string, now: int) | Cleanup(now: int)

  type Visitors = map<string, Visitor>

  datatype Limits = Limits(rate: int, window: int)

  predicate Fresh(l: Limits, v: Visitors, ip: string, now: int) { ip !in v || now - v[ip].lastSeen > l.window }

  predicate Admits(l: Limits, v: Visitors, ip: string, now: int) {
    Fresh(l, v, ip, now) || v[ip].count + 1 <= l.rate
  }

  function Swept(l: Limits, v: Visitors, now: int): Visitors {
    map ip | ip in v && !(now - v[ip].lastSeen > l.window) :: v[ip]
  }

  function After(l: Limits, v: Visitors, e: Event): Visitors {
    match e
    case Request(ip, now) => v[ip := if Fresh(l, v, ip, now) then Visitor(1, now) else Visitor(v[ip].count + 1, now)]
    case Cleanup(now) => Swept(l, v, now)
  }

  class RateLimiter {
    var visitors: Visitors
    const limits: Limits

    constructor (rate: int, window: int)
      ensures visitors == map[] && limits == Limits(rate, window)
    {
      visitors, limits := map[], Limits(rate, window);
    }

    method Allow(ip: string, now: int) returns (ok: bool)
      modifies this
      ensures ok == Admits(limits, old(visitors), ip, now)
      ensures visitors == After(limits, old(visitors), Request(ip, now))
    {
      if ip !in visitors || now - visitors[ip].lastSeen > limits.window {
        visitors := visitors[ip := Visitor(1, now)];
        return true;
      }
      var v := Visitor(visitors[ip].count + 1, now);
      visitors := visitors[ip := v];
      ok := v.count <= limits.rate;
    }

    /** One pass of the cleanup loop: visit every entry, delete the stale ones. */
    method Sweep(now: int)
      modifies this
      ensures visitors == After(limits, old(visitors), Cleanup(now))
    {
      ghost var before := visitors;
      var todo := visitors.Keys;
      while todo != {}
        invariant todo <= visitors.Keys <= before.Keys
        invariant forall ip :: ip in visitors ==> visitors[ip] == before[ip]
        invariant forall ip :: ip in before && ip !in todo ==> (ip in visitors <==> now - before[ip].lastSeen <= limits.window)
        decreases |todo|
      {
        var ip :| ip in todo;
        todo := todo - {ip};
        if now - visitors[ip].lastSeen > limits.window {
          visitors := visitors - {ip};
        }
      }
    }
  }

  // ---- whole runs ----

  function Run(l: Limits, events: seq<Event>): Visitors {
    if events == [] then map[] else After(l, Run(l, events[..|events| - 1]), events[|events| - 1])
  }

  /** The decision on the last event, if it is a request that is admitted. */
  predicate Admitted(l: Limits, events: seq<Event>)
    requires events != []
  {
    var e := events[|events| - 1];
    e.Request? && Admits(l, Run(l, events[..|events| - 1]), e.ip, e.now)
  }

  predicate Monotone(events: seq<Event>) {
    forall i, j :: 0 <= i < j < |events| ==> events[i].now <= events[j].now
  }

  predicate IsRequest(e: Event) { e.Request? }

  lemma OneMore(l: Limits, events: seq<Event>, e: Event)
    ensures Run(l, events + [e]) == After(l, Run(l, events), e)
    ensures Admitted(l, events + [e]) == (e.Request? && Admits(l, Run(l, events), e.ip, e.now))
  {
    assert (events + [e])[..|events|] == events;
  }

  /** After a cleanup exactly the clients seen within the window are left, as they were. */
  lemma CleanupMeans(l: Limits, v: Visitors, now: int, ip: string)
    ensures var after := After(l, v, Cleanup(now));
      && (ip in after <==> ip in v && now <= v[ip].lastSeen + l.window)
      && (ip in after ==> after[ip] == v[ip])
  {
  }

  // ---- cleanup never changes a decision ----

  /** The swept table is the unswept one without some entries that are stale by `now`. */
  ghost predicate Trimmed(l: Limits, swept: Visitors, full: Visitors, now: int) {
    forall ip :: (ip in swept ==> ip in full && swept[ip] == full[ip])
      && (ip in full && ip !in swept ==> now - full[ip].lastSeen > l.window)
  }

  lemma TrimmedStep(l: Limits, swept: Visitors, full: Visitors, before: int, e: Event)
    requires Trimmed(l, swept, full, before) && before <= e.now
    ensures Trimmed(l, After(l, swept, e), if e.Request? then After(l, full, e) else full, e.now)
    ensures e.Request? ==> Admits(l, swept, e.ip, e.now) == Admits(l, full, e.ip, e.now)
  {
  }

  lemma {:induction false} SweptIsTrimmed(l: Limits, events: seq<Event>, now: int)
    requires Monotone(events) && forall i :: 0 <= i < |events| ==> events[i].now <= now
    ensures Trimmed(l, Run(l, events), Run(l, Filter(IsRequest, events)), now)
    decreases |events|
  {
    if events != [] {
      var init, e := events[..|events| - 1], events[|events| - 1];
      SweptIsTrimmed(l, init, e.now);
      var full := Filter(IsRequest, init);
      TrimmedStep(l, Run(l, init), Run(l, full), e.now, e);
      OneMore(l, full, e);
      if e.Cleanup? { assert Filter(IsRequest, events) == full; }
    }
  }

  /** Removing all cleanups from a run changes no decision on any request. */
  lemma CleanupIsInvisible(l: Limits, events: seq<Event>)
    requires Monotone(events) && events != [] && events[|events| - 1].Request?
    ensures Filter(IsRequest, events) != [] && Admitted(l, events) == Admitted(l, Filter(IsRequest, events))
  {
    var init, e := events[..|events| - 1], events[|events| - 1];
    SweptIsTrimmed(l, init, e.now);
    TrimmedStep(l, Run(l, init), Run(l, Filter(IsRequest, init)), e.now, e);
    OneMore(l, Filter(IsRequest, init), e);
  }

  // ---- streaks ----

  function TimesOf(events: seq<Event>, ip: string): seq<int> {
    if events == [] then [] else
      var e := events[|events| - 1];
      TimesOf(events[..|events| - 1], ip) + (if e.Request? && e.ip == ip then [e.now] else [])
  }

  /** How many requests the streak that ends with the last one holds: gaps never exceed the window. */
  function Streak(window: int, times: seq<int>): nat {
    var n := |times|;
    if n == 0 then 0
    else if n == 1 || times[n - 1] - times[n - 2] > window then 1
    else Streak(window, times[..n - 1]) + 1
  }

  lemma StreakSnoc(window: int, times: seq<int>, t: int)
    ensures Streak(window, times + [t]) ==
      if times == [] || t - times[|times| - 1] > window then 1 else Streak(window, times) + 1
  {
    assert (times + [t])[..|times|] == times;
  }

  /** Without cleanups the table stores, per client, its last time and the length of its streak. */
  lemma {:induction false} TableIsStreaks(l: Limits, events: seq<Event>, ip: string)
    requires forall i :: 0 <= i < |events| ==> events[i].Request?
    ensures var times := TimesOf(events, ip); var v := Run(l, events);
      && (ip in v <==> times != [])
      && (ip in v ==> v[ip] == Visitor(Streak(l.window, times), times[|times| - 1]))
    decreases |events|
  {
    if events != [] {
      var init, e := events[..|events| - 1], events[|events| - 1];
      TableIsStreaks(l, init, ip);
      if e.ip == ip {
        StreakSnoc(l.window, TimesOf(init, ip), e.now);
      } else {
        assert TimesOf(events, ip) == TimesOf(init, ip);
      }
    }
  }

  lemma {:induction false} TimesIgnoreCleanups(events: seq<Event>, ip: string)
    ensures TimesOf(events, ip) == TimesOf(Filter(IsRequest, events), ip)
    ensures forall i :: 0 <= i < |Filter(IsRequest, events)| ==> Filter(IsRequest, events)[i].Request?
    decreases |events|
  {
    if events != [] {
      var init, e := events[..|events| - 1], events[|events| - 1];
      TimesIgnoreCleanups(init, ip);
      var kept := Filter(IsRequest, init);
      if e.Request? {
        assert (kept + [e])[..|kept|] == kept;
      } else {
        assert Filter(IsRequest, events) == kept && TimesOf(events, ip) == TimesOf(init, ip);
      }
    }
  }

  lemma PlainDecision(l: Limits, requests: seq<Event>, ip: string, now: int)
    requires l.rate >= 1 && forall i :: 0 <= i < |requests| ==> requests[i].Request?
    ensures Admits(l, Run(l, requests), ip, now) <==> Streak(l.window, TimesOf(requests, ip) + [now]) <= l.rate
  {
    TableIsStreaks(l, requests, ip);
    StreakSnoc(l.window, TimesOf(requests, ip), now);
  }

  /**
   * Every streak admits exactly its first `rate` requests, whatever other clients and cleanups do:
   * the decision depends on the client's own request times alone.
   */
  lemma FirstRateOfEachStreak(l: Limits, events: seq<Event>)
    requires l.rate >= 1 && Monotone(events) && events != [] && events[|events| - 1].Request?
    ensures Admitted(l, events) <==> Streak(l.window, TimesOf(events, events[|events| - 1].ip)) <= l.rate
  {
    var init, e := events[..|events| - 1], events[|events| - 1];
    var plain := Filter(IsRequest, init);
    SweptIsTrimmed(l, init, e.now);
    TrimmedStep(l, Run(l, init), Run(l, plain), e.now, e);
    TimesIgnoreCleanups(init, e.ip);
    PlainDecision(l, plain, e.ip, e.now);
    assert TimesOf(events, e.ip) == TimesOf(init, e.ip) + [e.now];
  }

  // ---- the rate bound ----

  function AdmittedIn(l: Limits, events: seq<Event>, ip: string, lo: int, hi: int): nat {
    if events == [] then 0 else
      var e := events[|events| - 1];
      AdmittedIn(l, events[..|events| - 1], ip, lo, hi) +
      (if Admitted(l, events) && e.ip == ip && lo <= e.now <= hi then 1 else 0)
  }

  predicate Asks(e: Event, ip: string) { e.Request? && e.ip == ip }

  lemma {:induction false} LastTimeSeen(events: seq<Event>, ip: string, t: int)
    requires forall i :: 0 <= i < |events| ==> events[i].now <= t
    ensures var times := TimesOf(events, ip); times == [] || times[|times| - 1] <= t
    decreases |events|
  {
    if events != [] {
      var init, e := events[..|events| - 1], events[|events| - 1];
      LastTimeSeen(init, ip, t);
      assert TimesOf(events, ip) == TimesOf(init, ip) + if Asks(e, ip) then [e.now] else [];
      assert e.now <= t;
    }
  }

  /** Every request of a client is recorded, and none is later than its last time. */
  lemma {:induction false} LastTimeBounds(events: seq<Event>, ip: string, i: nat)
    requires Monotone(events) && i < |events| && Asks(events[i], ip)
    ensures var times := TimesOf(events, ip); times != [] && events[i].now <= times[|times| - 1]
    decreases |events|
  {
    var init, e := events[..|events| - 1], events[|events| - 1];
    if !Asks(e, ip) {
      LastTimeBounds(init, ip, i);
      assert TimesOf(events, ip) == TimesOf(init, ip);
    }
  }

  /** Nothing is admitted in an interval that starts after all the client's requests. */
  lemma {:induction false} NothingAfterLast(l: Limits, events: seq<Event>, ip: string, lo: int, hi: int)
    requires forall i :: 0 <= i < |events| && Asks(events[i], ip) ==> events[i].now < lo
    ensures AdmittedIn(l, events, ip, lo, hi) == 0
    decreases |events|
  {
    if events != [] {
      assert Asks(events[|events| - 1], ip) ==> events[|events| - 1].now < lo;
      NothingAfterLast(l, events[..|events| - 1], ip, lo, hi);
    }
  }

  /** The client's own request: a new streak starts the count at one, a going streak adds at most one. */
  lemma OwnRequestStep(l: Limits, events: seq<Event>, ip: string, lo: int, hi: int)
    requires l.rate >= 1 && Monotone(events) && events != [] && Asks(events[|events| - 1], ip)
    requires var init, e := events[..|events| - 1], events[|events| - 1];
      var times := TimesOf(init, ip);
      if times == [] || e.now - times[|times| - 1] > l.window then AdmittedIn(l, init, ip, lo, hi) == 0
      else AdmittedIn(l, init, ip, lo, hi) <= Min(Streak(l.window, times), l.rate)
    ensures AdmittedIn(l, events, ip, lo, hi) <= Min(Streak(l.window, TimesOf(events, ip)), l.rate)
  {
    var init, e := events[..|events| - 1], events[|events| - 1];
    StreakSnoc(l.window, TimesOf(init, ip), e.now);
    FirstRateOfEachStreak(l, events);
  }

  /** Back to one window before the client's last request, admissions are within streak and rate. */
  lemma {:induction false} WithinStreak(l: Limits, events: seq<Event>, ip: string, lo: int, hi: int)
    requires l.rate >= 1 && Monotone(events)
    requires var times := TimesOf(events, ip); times == [] || lo >= times[|times| - 1] - l.window
    ensures AdmittedIn(l, events, ip, lo, hi) <= Min(Streak(l.window, TimesOf(events, ip)), l.rate)
    decreases |events|
  {
    if events != [] {
      var init, e := events[..|events| - 1], events[|events| - 1];
      var times := TimesOf(init, ip);
      LastTimeSeen(init, ip, e.now);
      if Asks(e, ip) {
        if times == [] || e.now - times[|times| - 1] > l.window {
          forall i | 0 <= i < |init| && Asks(init[i], ip) ensures init[i].now < lo { LastTimeBounds(init, ip, i); }
          NothingAfterLast(l, init, ip, lo, hi);
        } else {
          WithinStreak(l, init, ip, lo, hi);
        }
        OwnRequestStep(l, events, ip, lo, hi);
      } else {
        assert TimesOf(events, ip) == times;
        WithinStreak(l, init, ip, lo, hi);
      }
    }
  }

  /** Any interval as long as the window admits at most `rate` requests of one client. */
  lemma {:induction false} AtMostRatePerWindow(l: Limits, events: seq<Event>, ip: string, lo: int)
    requires l.rate >= 1 && Monotone(events)
    ensures AdmittedIn(l, events, ip, lo, lo + l.window) <= l.rate
    decreases |events|
  {
    if events != [] {
      var init, e := events[..|events| - 1], events[|events| - 1];
      if e.Request? && e.ip == ip && lo <= e.now <= lo + l.window {
        WithinStreak(l, events, ip, lo, lo + l.window);
      } else {
        AtMostRatePerWindow(l, init, ip, lo);
      }
    }
  }
}
