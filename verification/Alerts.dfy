/** The alert buffers: a ring of recent alerts, a bounded recorder, and the cycles that connect them. */
module Alerts {
  import opened Collections

  datatype Severity = Info | Warning | Critical | Unknown

  datatype Alert = Alert(id: int, severity: Severity)

  function Rank(s: Severity): int {
    match s case Critical => 3 case Warning => 2 case Info => 1 case Unknown => 0
  }

  function AtLeast(min: Severity): Alert -> bool { (a: Alert) => Rank(a.severity) >= Rank(min) }

  /** Critical above warning above info above anything else. */
  lemma AtLeastMeans(min: Severity, a: Alert)
    ensures AtLeast(min)(a) <==>
      match min
      case Unknown => true
      case Info => a.severity != Unknown
      case Warning => a.severity == Warning || a.severity == Critical
      case Critical => a.severity == Critical
  {
  }

  /** The newest `cap` entries of a log, oldest first. */
  function Recent(log: seq<Alert>, cap: nat): seq<Alert> {
    if |log| <= cap then log else log[|log| - cap..]
  }

  function Reverse(s: seq<Alert>): seq<Alert> {
    if s == [] then [] else [s[|s| - 1]] + Reverse(s[..|s| - 1])
  }

  lemma {:induction false} ReverseAt(s: seq<Alert>, k: nat)
    requires k < |s|
    ensures |Reverse(s)| == |s| && Reverse(s)[k] == s[|s| - 1 - k]
    decreases |s|
  {
    if |s| > 1 {
      ReverseAt(s[..|s| - 1], if k == 0 then 0 else k - 1);
    }
  }

  lemma {:induction false} ReverseLen(s: seq<Alert>)
    ensures |Reverse(s)| == |s|
    decreases |s|
  {
    if s != [] { ReverseLen(s[..|s| - 1]); }
  }

  lemma WrapPosition(idx: int, i: int, cap: int)
    requires 0 <= idx < cap && 0 <= i < cap
    ensures (idx - 1 - i + cap * 2) % cap == if i < idx then idx - 1 - i else idx - 1 - i + cap
  {
    var x := idx - 1 - i + cap * 2;
    if i < idx {
      ModIs(x, cap, 2, idx - 1 - i);
    } else {
      ModIs(x, cap, 1, idx - 1 - i + cap);
    }
  }

  lemma ModIs(x: int, cap: int, q: int, r: int)
    requires cap > 0 && x == cap * q + r && 0 <= r < cap
    ensures x % cap == r
  {
    var d, m := x / cap, x % cap;
    assert x == cap * d + m;
    assert cap * (d - q) == r - m;
    AtLeastOnce(cap, d - q);
    AtLeastOnce(cap, q - d);
    assert cap * (q - d) == m - r;
  }

  lemma AtLeastOnce(cap: int, k: int)
    requires cap > 0
    ensures k >= 1 ==> cap * k >= cap
    ensures k == 0 ==> cap * k == 0
  {
    if k >= 1 { assert cap * k == cap + cap * (k - 1); }
  }

  lemma WrapNext(idx: int, cap: int)
    requires 0 <= idx < cap
    ensures (idx + 1) % cap == if idx + 1 == cap then 0 else idx + 1
  {
    if idx + 1 == cap { ModIs(idx + 1, cap, 1, 0); } else { ModIs(idx + 1, cap, 0, idx + 1); }
  }

  /** The ring with next write position `idx` holds the newest `cap` entries of `log`. */
  ghost predicate RingHolds(ring: seq<Alert>, idx: int, full: bool, cap: nat, log: seq<Alert>) {
    && |ring| == cap
    && 0 <= idx < cap
    && (full <==> |log| >= cap)
    && Recent(log, cap) == if full then ring[idx..] + ring[..idx] else ring[..idx]
  }

  lemma RingPush(ring: seq<Alert>, idx: int, full: bool, cap: nat, log: seq<Alert>, a: Alert)
    requires RingHolds(ring, idx, full, cap, log)
    ensures var next := (idx + 1) % cap;
      RingHolds(ring[idx := a], next, full || next == 0, cap, log + [a])
  {
    WrapNext(idx, cap);
    var after, grown := ring[idx := a], log + [a];
    if full {
      assert Recent(grown, cap) == Recent(log, cap)[1..] + [a];
      assert (ring[idx..] + ring[..idx])[1..] + [a] == ring[idx + 1..] + (ring[..idx] + [a]);
      assert after[..idx + 1] == ring[..idx] + [a];
      if idx + 1 < cap {
        assert after[idx + 1..] == ring[idx + 1..];
      } else {
        assert ring[idx + 1..] == [] && after == after[..idx + 1];
      }
    } else {
      assert after[..idx + 1] == ring[..idx] + [a];
    }
  }

  /** A log with the first `k` alerts of a batch appended one by one. */
  function Grown(log: seq<Alert>, alerts: seq<Alert>, k: nat): seq<Alert>
    requires k <= |alerts|
  {
    if k == 0 then log else Grown(log, alerts, k - 1) + [alerts[k - 1]]
  }

  lemma {:induction false} GrownIsAll(log: seq<Alert>, alerts: seq<Alert>, k: nat)
    requires k <= |alerts|
    ensures Grown(log, alerts, k) == log + alerts[..k]
    ensures k == |alerts| ==> Grown(log, alerts, k) == log + alerts
  {
    if k > 0 {
      GrownIsAll(log, alerts, k - 1);
      assert alerts[..k] == alerts[..k - 1] + [alerts[k - 1]];
      Regroup(log, alerts[..k - 1], [alerts[k - 1]]);
    }
    assert alerts[..|alerts|] == alerts;
  }

  /** A bounded ring buffer over a fixed array. */
  class AlertHistory {
    var entries: array<Alert>
    var idx: int
    var full: bool
    const cap: int
    /** Everything appended since the last drain. */
    ghost var log: seq<Alert>

    ghost predicate Valid()
      reads this, entries
    {
      cap > 0 && RingHolds(entries[..], idx, full, cap, log)
    }

    constructor (capacity: int)
      ensures Valid() && log == [] && cap == (if capacity <= 0 then 1 else capacity) && fresh(entries)
    {
      var c := if capacity <= 0 then 1 else capacity;
      cap, entries, idx, full, log := c, new Alert[c], 0, false, [];
    }

    method Push(a: Alert)
      requires Valid()
      modifies this`idx, this`full, this`log, entries
      ensures Valid() && entries == old(entries) && log == old(log) + [a]
    {
      RingPush(entries[..], idx, full, cap, log, a);
      entries[idx] := a;
      assert entries[..] == old(entries[..])[idx := a];
      idx := (idx + 1) % cap;
      if idx == 0 {
        full := true;
      }
      log := log + [a];
    }

    method Append(alerts: seq<Alert>)
      requires Valid()
      modifies this`idx, this`full, this`log, entries
      ensures Valid() && entries == old(entries) && log == old(log) + alerts
    {
      ghost var was := log;
      for k := 0 to |alerts|
        invariant Valid() && entries == old(entries) && log == Grown(was, alerts, k)
      {
        Push(alerts[k]);
      }
      GrownIsAll(was, alerts, |alerts|);
    }

    /** Newest first: the reversed last `cap` entries since the last drain. */
    method Snapshot() returns (out: seq<Alert>)
      requires Valid()
      ensures out == Reverse(Recent(log, cap))
    {
      var n := if full then cap else idx;
      ghost var recent := Recent(log, cap);
      ReverseLen(recent);
      out := [];
      for i := 0 to n
        invariant |out| == i && out == Reverse(recent)[..i]
      {
        WrapPosition(idx, i, cap);
        var pos := (idx - 1 - i + cap * 2) % cap;
        ReverseAt(recent, i);
        assert recent[n - 1 - i] == entries[pos];
        out := out + [entries[pos]];
      }
    }

    method Len() returns (n: int)
      requires Valid()
      ensures n == Min(|log|, cap)
    {
      n := if full then cap else idx;
    }

    method FilterBySeverity(min: Severity) returns (out: seq<Alert>)
      requires Valid()
      ensures out == Filter(AtLeast(min), Reverse(Recent(log, cap)))
    {
      var snap := Snapshot();
      out := [];
      for i := 0 to |snap|
        invariant out == Filter(AtLeast(min), snap[..i])
      {
        assert snap[..i + 1][..i] == snap[..i];
        if Rank(snap[i].severity) >= Rank(min) {
          out := out + [snap[i]];
        }
      }
      assert snap[..|snap|] == snap;
    }

    method DrainAndReset() returns (out: seq<Alert>)
      requires Valid()
      modifies this
      ensures Valid() && log == [] && fresh(entries)
      ensures out == Reverse(Recent(old(log), cap))
    {
      out := Snapshot();
      entries := new Alert[cap];
      idx, full, log := 0, false, [];
    }
  }

  /** The bounded recorder: a full buffer drops its oldest entry and counts the eviction. */
  class RecorderChannel {
    var buf: seq<Alert>
    var evicted: nat
    const cap: int

    constructor (capacity: int)
      ensures buf == [] && evicted == 0 && cap == (if capacity <= 0 then 100 else capacity)
    {
      cap, buf, evicted := if capacity <= 0 then 100 else capacity, [], 0;
    }

    method Send(a: Alert)
      requires cap > 0
      modifies this
      ensures buf == Kept(old(buf), cap, a)
      ensures evicted == old(evicted) + if |old(buf)| >= cap then 1 else 0
    {
      if |buf| >= cap {
        buf := buf[1..] + [a];
        evicted := evicted + 1;
        return;
      }
      buf := buf + [a];
    }

    method DrainAndReset() returns (out: seq<Alert>)
      modifies this
      ensures out == old(buf) && buf == [] && evicted == old(evicted)
    {
      out := buf;
      buf := [];
    }
  }

  function Kept(buf: seq<Alert>, cap: int, a: Alert): seq<Alert>
    requires cap > 0
  {
    if |buf| >= cap then buf[1..] + [a] else buf + [a]
  }

  // ---- any interleaving of sends and evaluation cycles ----

  /**
   * Sends, and cycles that drain the recorder and then deliver the batch to the history. Each operation
   * holds a mutex, so a run is a sequence of them; a batch is in flight between its drain and its delivery.
   */
  datatype Op = Send(a: Alert) | Drain(cycle: nat) | Deliver(cycle: nat)

  /** A drained batch; it starts at `from` among all drained alerts. */
  datatype Batch = Batch(cycle: nat, from: nat, alerts: seq<Alert>)

  /** Batches in flight are in the order of draining; `newest` is where the newest delivered alert was drained, plus one. */
  datatype Sys = Sys(buf: seq<Alert>, evicted: nat, inFlight: seq<Batch>, newest: nat,
                     history: seq<Alert>, drained: seq<Alert>, sent: seq<Alert>)

  function To(b: Batch): nat { b.from + |b.alerts| }

  /** The position of a cycle's batch, or the number of batches. */
  function Slot(batches: seq<Batch>, cycle: nat): (i: nat)
    ensures i <= |batches| && (i < |batches| ==> batches[i].cycle == cycle)
    ensures forall j :: 0 <= j < i ==> batches[j].cycle != cycle
  {
    if batches == [] || batches[0].cycle == cycle then 0 else 1 + Slot(batches[1..], cycle)
  }

  function Next(cap: int, s: Sys, op: Op): Sys
    requires cap > 0
  {
    match op
    case Send(a) =>
      s.(buf := Kept(s.buf, cap, a), evicted := s.evicted + (if |s.buf| >= cap then 1 else 0), sent := s.sent + [a])
    case Drain(c) =>
      if Slot(s.inFlight, c) < |s.inFlight| then s
      else s.(buf := [], inFlight := s.inFlight + [Batch(c, |s.drained|, s.buf)], drained := s.drained + s.buf)
    case Deliver(c) =>
      var i := Slot(s.inFlight, c);
      if i == |s.inFlight| then s
      else Delivered(s, i)
  }

  function Delivered(s: Sys, i: nat): Sys
    requires i < |s.inFlight|
  {
    var b := s.inFlight[i];
    s.(inFlight := s.inFlight[..i] + s.inFlight[i + 1..], history := s.history + b.alerts,
       newest := if b.alerts == [] || To(b) <= s.newest then s.newest else To(b))
  }

  function Run(cap: int, ops: seq<Op>): Sys
    requires cap > 0
  {
    if ops == [] then Sys([], 0, [], 0, [], [], [])
    else Next(cap, Run(cap, ops[..|ops| - 1]), ops[|ops| - 1])
  }

  /** `a` is `b` with some elements left out. */
  predicate InOrderPart(a: seq<Alert>, b: seq<Alert>)
    decreases |b|
  {
    a == [] || (b != [] &&
      ((a[|a| - 1] == b[|b| - 1] && InOrderPart(a[..|a| - 1], b[..|b| - 1])) || InOrderPart(a, b[..|b| - 1])))
  }

  lemma {:induction false} PartDropsOne(a: seq<Alert>, b: seq<Alert>, i: nat)
    requires InOrderPart(a, b) && i < |a|
    ensures InOrderPart(a[..i] + a[i + 1..], b)
    decreases |b|
  {
    var n, m := |a| - 1, |b| - 1;
    var shorter := a[..i] + a[i + 1..];
    if a[n] == b[m] && InOrderPart(a[..n], b[..m]) {
      if i == n {
        assert shorter == a[..n];
      } else {
        PartDropsOne(a[..n], b[..m], i);
        assert shorter[..|shorter| - 1] == a[..n][..i] + a[..n][i + 1..];
      }
    } else {
      PartDropsOne(a, b[..m], i);
    }
  }

  lemma PartExtends(a: seq<Alert>, b: seq<Alert>, x: Alert)
    requires InOrderPart(a, b)
    ensures InOrderPart(a + [x], b + [x])
  {
    assert (a + [x])[..|a|] == a && (b + [x])[..|b|] == b;
  }

  lemma WithoutOldest(drained: seq<Alert>, buf: seq<Alert>)
    requires buf != []
    ensures var all, i := drained + buf, |drained|; all[..i] + all[i + 1..] == drained + buf[1..]
  {
  }

  /** A full buffer makes room for the new alert. */
  lemma SendToFull(drained: seq<Alert>, buf: seq<Alert>, sent: seq<Alert>, a: Alert)
    requires buf != [] && InOrderPart(drained + buf, sent)
    ensures InOrderPart(drained + (buf[1..] + [a]), sent + [a])
  {
    PartDropsOne(drained + buf, sent, |drained|);
    WithoutOldest(drained, buf);
    PartExtends(drained + buf[1..], sent, a);
    Regroup(drained, buf[1..], [a]);
  }

  lemma SendToRoom(drained: seq<Alert>, buf: seq<Alert>, sent: seq<Alert>, a: Alert)
    requires InOrderPart(drained + buf, sent)
    ensures InOrderPart(drained + (buf + [a]), sent + [a])
  {
    PartExtends(drained + buf, sent, a);
    Regroup(drained, buf, [a]);
  }

  lemma SendKeepsOrder(cap: int, drained: seq<Alert>, buf: seq<Alert>, sent: seq<Alert>, a: Alert)
    requires cap > 0 && InOrderPart(drained + buf, sent)
    ensures InOrderPart(drained + Kept(buf, cap, a), sent + [a])
  {
    if |buf| >= cap { SendToFull(drained, buf, sent, a); } else { SendToRoom(drained, buf, sent, a); }
  }

  lemma {:induction false} OrderIsKept(cap: int, ops: seq<Op>)
    requires cap > 0
    ensures InOrderPart(Run(cap, ops).drained + Run(cap, ops).buf, Run(cap, ops).sent)
    decreases |ops|
  {
    if ops != [] {
      var s := Run(cap, ops[..|ops| - 1]);
      OrderIsKept(cap, ops[..|ops| - 1]);
      match ops[|ops| - 1]
      case Send(a) => SendKeepsOrder(cap, s.drained, s.buf, s.sent, a);
      case Drain(c) => assert (s.drained + s.buf) + [] == s.drained + s.buf;
      case Deliver(c) =>
    }
  }

  lemma {:induction false} CountIsKept(cap: int, ops: seq<Op>)
    requires cap > 0
    ensures var s := Run(cap, ops); |s.sent| == |s.drained| + |s.buf| + s.evicted && |s.buf| <= cap
    decreases |ops|
  {
    if ops != [] { CountIsKept(cap, ops[..|ops| - 1]); }
  }

  /** In every interleaving nothing is lost silently, and draining and buffering keep the order of sending. */
  lemma AlertsAreConserved(cap: int, ops: seq<Op>)
    requires cap > 0
    ensures var s := Run(cap, ops);
      && |s.sent| == |s.drained| + |s.buf| + s.evicted
      && |s.buf| <= cap
      && InOrderPart(s.drained + s.buf, s.sent)
  {
    OrderIsKept(cap, ops);
    CountIsKept(cap, ops);
  }

  /** Without evictions there is nothing left out: drained, then buffered, is all that was sent. */
  lemma {:induction false} NothingEvictedNothingLost(cap: int, ops: seq<Op>)
    requires cap > 0
    ensures Run(cap, ops).evicted == 0 ==> Run(cap, ops).drained + Run(cap, ops).buf == Run(cap, ops).sent
    decreases |ops|
  {
    if ops != [] {
      var s := Run(cap, ops[..|ops| - 1]);
      NothingEvictedNothingLost(cap, ops[..|ops| - 1]);
      match ops[|ops| - 1]
      case Send(a) => assert s.drained + (s.buf + [a]) == (s.drained + s.buf) + [a];
      case Drain(c) => assert s.drained + s.buf + [] == s.drained + s.buf;
      case Deliver(c) =>
    }
  }

  /** The alerts that operations send, in order. */
  function SentIn(ops: seq<Op>): seq<Alert> {
    if ops == [] then [] else
      var op := ops[|ops| - 1];
      SentIn(ops[..|ops| - 1]) + (if op.Send? then [op.a] else [])
  }

  predicate NoDrain(ops: seq<Op>) { forall i :: 0 <= i < |ops| ==> !ops[i].Drain? }

  lemma KeptIsRecent(buf: seq<Alert>, all: seq<Alert>, cap: int, a: Alert)
    requires cap > 0 && buf == Recent(all, cap)
    ensures Kept(buf, cap, a) == Recent(all + [a], cap)
  {
  }

  /** Until the next drain the recorder holds the newest `cap` of what it had and what was sent since. */
  lemma {:induction false} BufferIsRecent(cap: int, before: seq<Op>, ops: seq<Op>)
    requires cap > 0 && NoDrain(ops)
    ensures Run(cap, before + ops).buf == Recent(Run(cap, before).buf + SentIn(ops), cap)
    ensures Run(cap, before + ops).sent == Run(cap, before).sent + SentIn(ops)
    decreases |ops|
  {
    var had := Run(cap, before).buf;
    if ops == [] {
      assert before + ops == before && had + SentIn(ops) == had && Run(cap, before).sent + [] == Run(cap, before).sent;
      CountIsKept(cap, before);
    } else {
      var n := |ops| - 1;
      assert (before + ops)[..|before + ops| - 1] == before + ops[..n];
      BufferIsRecent(cap, before, ops[..n]);
      if ops[n].Send? {
        KeptIsRecent(Run(cap, before + ops[..n]).buf, had + SentIn(ops[..n]), cap, ops[n].a);
        Regroup(had, SentIn(ops[..n]), [ops[n].a]);
        Regroup(Run(cap, before).sent, SentIn(ops[..n]), [ops[n].a]);
      } else {
        assert SentIn(ops) == SentIn(ops[..n]);
      }
    }
  }

  // ---- the order of the history ----

  lemma {:induction false} PartTrans(a: seq<Alert>, b: seq<Alert>, c: seq<Alert>)
    requires InOrderPart(a, b) && InOrderPart(b, c)
    ensures InOrderPart(a, c)
    decreases |c|
  {
    if a != [] && b != [] {
      var m, k := |b| - 1, |c| - 1;
      if b[m] == c[k] && InOrderPart(b[..m], c[..k]) {
        if a[|a| - 1] == b[m] && InOrderPart(a[..|a| - 1], b[..m]) {
          PartTrans(a[..|a| - 1], b[..m], c[..k]);
        } else {
          PartTrans(a, b[..m], c[..k]);
        }
      } else {
        PartTrans(a, b, c[..k]);
      }
    }
  }

  lemma {:induction false} PartPads(a: seq<Alert>, b: seq<Alert>, gap: seq<Alert>)
    requires InOrderPart(a, b)
    ensures InOrderPart(a, b + gap)
    decreases |gap|
  {
    if gap == [] {
      assert b + gap == b;
    } else {
      var n := |gap| - 1;
      PartPads(a, b, gap[..n]);
      assert (b + gap)[..|b| + n] == b + gap[..n];
    }
  }

  lemma {:induction false} PartAppends(a: seq<Alert>, b: seq<Alert>, block: seq<Alert>)
    requires InOrderPart(a, b)
    ensures InOrderPart(a + block, b + block)
    decreases |block|
  {
    if block == [] {
      assert a + block == a && b + block == b;
    } else {
      var n := |block| - 1;
      var init, x := block[..n], block[n];
      assert block == init + [x];
      PartAppends(a, b, init);
      PartExtends(a + init, b + init, x);
      Regroup(a, init, [x]);
      Regroup(b, init, [x]);
    }
  }

  /** Two places of a part are two places of the whole, in the same order. */
  lemma {:induction false} PartPlaces(a: seq<Alert>, b: seq<Alert>, p: nat, q: nat) returns (i: nat, j: nat)
    requires InOrderPart(a, b) && p < q < |a|
    ensures i < j < |b| && b[i] == a[p] && b[j] == a[q]
    decreases |b|
  {
    var n, m := |a| - 1, |b| - 1;
    if a[n] == b[m] && InOrderPart(a[..n], b[..m]) {
      if q < n {
        i, j := PartPlaces(a[..n], b[..m], p, q);
      } else {
        i := PartPlace(a[..n], b[..m], p);
        j := m;
      }
    } else {
      i, j := PartPlaces(a, b[..m], p, q);
    }
  }

  lemma {:induction false} PartPlace(a: seq<Alert>, b: seq<Alert>, p: nat) returns (i: nat)
    requires InOrderPart(a, b) && p < |a|
    ensures i < |b| && b[i] == a[p]
    decreases |b|
  {
    var n, m := |a| - 1, |b| - 1;
    if a[n] == b[m] && InOrderPart(a[..n], b[..m]) {
      if p < n { i := PartPlace(a[..n], b[..m], p); } else { i := m; }
    } else {
      i := PartPlace(a, b[..m], p);
    }
  }

  predicate IsSlice(b: Batch, drained: seq<Alert>) {
    To(b) <= |drained| && b.alerts == drained[b.from..To(b)]
  }

  /** The newest delivered alert lies outside the batch. */
  predicate Outside(b: Batch, newest: nat) { To(b) < newest || newest <= b.from }

  /** Batches in flight are disjoint slices of the drained alerts, none of them around the newest delivered one. */
  predicate Placed(s: Sys) {
    && s.newest <= |s.drained|
    && (s.newest > 0 ==> s.drained[s.newest - 1] in s.history)
    && (forall k :: 0 <= k < |s.inFlight| ==> IsSlice(s.inFlight[k], s.drained) && Outside(s.inFlight[k], s.newest))
    && Disjoint(s.inFlight)
  }

  lemma SliceStays(b: Batch, drained: seq<Alert>, more: seq<Alert>)
    requires IsSlice(b, drained)
    ensures IsSlice(b, drained + more)
  {
    assert (drained + more)[b.from..To(b)] == drained[b.from..To(b)];
  }

  lemma DrainStaysPlaced(s: Sys, b: Batch)
    requires Placed(s) && b.from == |s.drained|
    ensures Placed(s.(buf := [], inFlight := s.inFlight + [b], drained := s.drained + b.alerts))
  {
    forall k | 0 <= k < |s.inFlight|
      ensures IsSlice(s.inFlight[k], s.drained + b.alerts)
    {
      SliceStays(s.inFlight[k], s.drained, b.alerts);
    }
    assert IsSlice(b, s.drained + b.alerts);
  }

  lemma NewestStaysOutside(s: Sys, i: nat, k: nat)
    requires Placed(s) && i < |s.inFlight| && k < |s.inFlight| && i != k
    ensures Outside(s.inFlight[k], Delivered(s, i).newest)
  {
  }

  lemma NewestIsDelivered(s: Sys, i: nat)
    requires Placed(s) && i < |s.inFlight|
    ensures var t := Delivered(s, i);
      t.newest <= |s.drained| && (t.newest > 0 ==> s.drained[t.newest - 1] in t.history)
  {
    var b := s.inFlight[i];
    assert IsSlice(b, s.drained);
    if b.alerts != [] {
      var last := b.alerts[|b.alerts| - 1];
      assert last == s.drained[To(b) - 1];
      assert last in s.history + b.alerts;
    }
  }

  predicate Disjoint(batches: seq<Batch>) {
    forall k, l :: 0 <= k < l < |batches| ==> To(batches[k]) <= batches[l].from
  }

  lemma DisjointWithout(batches: seq<Batch>, i: nat)
    requires i < |batches| && Disjoint(batches)
    ensures Disjoint(batches[..i] + batches[i + 1..])
  {
  }

  lemma DeliverStaysPlaced(s: Sys, i: nat)
    requires Placed(s) && i < |s.inFlight|
    ensures Placed(Delivered(s, i))
  {
    var t := Delivered(s, i);
    NewestIsDelivered(s, i);
    DisjointWithout(s.inFlight, i);
    forall k | 0 <= k < |t.inFlight|
      ensures IsSlice(t.inFlight[k], t.drained) && Outside(t.inFlight[k], t.newest)
    {
      NewestStaysOutside(s, i, if k < i then k else k + 1);
    }
  }

  lemma {:induction false} AlwaysPlaced(cap: int, ops: seq<Op>)
    requires cap > 0
    ensures Placed(Run(cap, ops))
    decreases |ops|
  {
    if ops != [] {
      var s := Run(cap, ops[..|ops| - 1]);
      AlwaysPlaced(cap, ops[..|ops| - 1]);
      match ops[|ops| - 1]
      case Send(a) =>
      case Drain(c) => DrainStaysPlaced(s, Batch(c, |s.drained|, s.buf));
      case Deliver(c) => if Slot(s.inFlight, c) < |s.inFlight| { DeliverStaysPlaced(s, Slot(s.inFlight, c)); }
    }
  }

  /** The operation delivers alerts that were drained before some alert delivered already. */
  predicate Late(s: Sys, op: Op) {
    op.Deliver? &&
      var i := Slot(s.inFlight, op.cycle);
      i < |s.inFlight| && s.inFlight[i].alerts != [] && s.inFlight[i].from < s.newest
  }

  /** Some delivery of the run is late. */
  predicate Overtaken(cap: int, ops: seq<Op>)
    requires cap > 0
  {
    exists n :: 0 <= n < |ops| && Late(Run(cap, ops[..n]), ops[n])
  }

  lemma OvertakenSnoc(cap: int, ops: seq<Op>)
    requires cap > 0 && ops != []
    ensures var n := |ops| - 1;
      Overtaken(cap, ops) <==> Overtaken(cap, ops[..n]) || Late(Run(cap, ops[..n]), ops[n])
  {
    var n := |ops| - 1;
    assert forall k :: 0 <= k < n ==> ops[..n][..k] == ops[..k] && ops[..n][k] == ops[k];
    if Overtaken(cap, ops) && !Late(Run(cap, ops[..n]), ops[n]) {
      var k :| 0 <= k < |ops| && Late(Run(cap, ops[..k]), ops[k]);
      assert Late(Run(cap, ops[..n][..k]), ops[..n][k]);
    }
    if Overtaken(cap, ops[..n]) {
      var k :| 0 <= k < n && Late(Run(cap, ops[..n][..k]), ops[..n][k]);
      assert Late(Run(cap, ops[..k]), ops[k]);
    }
  }

  predicate Punctual(s: Sys) { s.newest <= |s.drained| && InOrderPart(s.history, s.drained[..s.newest]) }

  /** A later slice goes behind an in-order part of what came before it. */
  lemma PartJoins(history: seq<Alert>, drained: seq<Alert>, newest: nat, from: nat, to: nat)
    requires newest <= from <= to <= |drained| && InOrderPart(history, drained[..newest])
    ensures InOrderPart(history + drained[from..to], drained[..to])
  {
    PartPads(history, drained[..newest], drained[newest..from]);
    assert drained[..newest] + drained[newest..from] == drained[..from];
    PartAppends(history, drained[..from], drained[from..to]);
    assert drained[..from] + drained[from..to] == drained[..to];
  }

  lemma DeliverStaysPunctual(s: Sys, i: nat)
    requires Placed(s) && Punctual(s) && i < |s.inFlight|
    requires s.inFlight[i].alerts == [] || s.newest <= s.inFlight[i].from
    ensures Punctual(Delivered(s, i))
  {
    var b := s.inFlight[i];
    assert IsSlice(b, s.drained);
    if b.alerts == [] {
      assert s.history + b.alerts == s.history;
    } else {
      PartJoins(s.history, s.drained, s.newest, b.from, To(b));
    }
  }

  /** Without late deliveries the history follows the order of draining. */
  lemma {:induction false} PunctualHistory(cap: int, ops: seq<Op>)
    requires cap > 0 && !Overtaken(cap, ops)
    ensures Punctual(Run(cap, ops))
    decreases |ops|
  {
    if ops != [] {
      var before := ops[..|ops| - 1];
      var s := Run(cap, before);
      OvertakenSnoc(cap, ops);
      PunctualHistory(cap, before);
      AlwaysPlaced(cap, before);
      match ops[|ops| - 1]
      case Send(a) =>
      case Drain(c) => assert (s.drained + s.buf)[..s.newest] == s.drained[..s.newest];
      case Deliver(c) =>
        if Slot(s.inFlight, c) < |s.inFlight| { DeliverStaysPunctual(s, Slot(s.inFlight, c)); }
    }
  }

  /** Two alerts stand in the history in the order opposite to the one they were drained in. */
  predicate Swapped(s: Sys, p: nat, q: nat, i: nat, j: nat) {
    p < q < |s.history| && i < j < |s.drained| && s.history[p] == s.drained[j] && s.history[q] == s.drained[i]
  }

  lemma LateSwaps(s: Sys, k: nat) returns (p: nat, q: nat, i: nat, j: nat)
    requires Placed(s) && k < |s.inFlight| && s.inFlight[k].alerts != [] && s.inFlight[k].from < s.newest
    ensures Swapped(Delivered(s, k), p, q, i, j)
  {
    var b := s.inFlight[k];
    assert IsSlice(b, s.drained) && Outside(b, s.newest);
    p :| 0 <= p < |s.history| && s.history[p] == s.drained[s.newest - 1];
    q, i, j := |s.history|, b.from, s.newest - 1;
    assert b.alerts[0] == s.drained[b.from];
  }

  lemma SwappedStays(cap: int, s: Sys, op: Op, p: nat, q: nat, i: nat, j: nat)
    requires cap > 0 && Swapped(s, p, q, i, j)
    ensures Swapped(Next(cap, s, op), p, q, i, j)
  {
  }

  /** A late delivery swaps two alerts, for good. */
  lemma {:induction false} OvertakenSwaps(cap: int, ops: seq<Op>) returns (p: nat, q: nat, i: nat, j: nat)
    requires cap > 0 && Overtaken(cap, ops)
    ensures Swapped(Run(cap, ops), p, q, i, j)
    decreases |ops|
  {
    var before, op := ops[..|ops| - 1], ops[|ops| - 1];
    OvertakenSnoc(cap, ops);
    if Overtaken(cap, before) {
      p, q, i, j := OvertakenSwaps(cap, before);
      SwappedStays(cap, Run(cap, before), op, p, q, i, j);
    } else {
      AlwaysPlaced(cap, before);
      p, q, i, j := LateSwaps(Run(cap, before), Slot(Run(cap, before).inFlight, op.cycle));
    }
  }

  predicate Distinct(a: seq<Alert>) { forall i, j :: 0 <= i < j < |a| ==> a[i] != a[j] }

  lemma PunctualPart(s: Sys)
    requires Punctual(s)
    ensures InOrderPart(s.history + s.buf, s.drained + s.buf)
  {
    PartPads(s.history, s.drained[..s.newest], s.drained[s.newest..]);
    assert s.drained[..s.newest] + s.drained[s.newest..] == s.drained;
    PartAppends(s.history, s.drained, s.buf);
  }

  /** In every run without a late delivery history then buffer is an in-order part of what was sent. */
  lemma PunctualHistoryIsInOrder(cap: int, ops: seq<Op>)
    requires cap > 0 && !Overtaken(cap, ops)
    ensures InOrderPart(Run(cap, ops).history + Run(cap, ops).buf, Run(cap, ops).sent)
  {
    var s := Run(cap, ops);
    PunctualHistory(cap, ops);
    PunctualPart(s);
    AlertsAreConserved(cap, ops);
    PartTrans(s.history + s.buf, s.drained + s.buf, s.sent);
  }

  lemma SwappedIsOutOfOrder(cap: int, ops: seq<Op>, p: nat, q: nat, i: nat, j: nat)
    requires cap > 0 && Distinct(Run(cap, ops).sent) && Swapped(Run(cap, ops), p, q, i, j)
    ensures !InOrderPart(Run(cap, ops).history, Run(cap, ops).sent)
  {
    var s := Run(cap, ops);
    AlertsAreConserved(cap, ops);
    var i', j' := PartPlaces(s.drained + s.buf, s.sent, i, j);
    if InOrderPart(s.history, s.sent) {
      var p', q' := PartPlaces(s.history, s.sent, p, q);
      assert false;
    }
  }

  /** For distinct alerts the history keeps the order of sending if and only if no delivery is late. */
  lemma HistoryInOrderIff(cap: int, ops: seq<Op>)
    requires cap > 0 && Distinct(Run(cap, ops).sent)
    ensures InOrderPart(Run(cap, ops).history, Run(cap, ops).sent) <==> !Overtaken(cap, ops)
  {
    var s := Run(cap, ops);
    if Overtaken(cap, ops) {
      var p, q, i, j := OvertakenSwaps(cap, ops);
      SwappedIsOutOfOrder(cap, ops, p, q, i, j);
    } else {
      PunctualHistoryIsInOrder(cap, ops);
      PartAppends([], [], s.history);
      assert [] + s.history == s.history;
      PartPads(s.history, s.history, s.buf);
      PartTrans(s.history, s.history + s.buf, s.sent);
    }
  }

  // ---- oldest first ----

  /** All alerts in flight, oldest batch first. */
  function Flat(batches: seq<Batch>): seq<Alert> {
    if batches == [] then [] else Flat(batches[..|batches| - 1]) + batches[|batches| - 1].alerts
  }

  lemma {:induction false} FlatTail(batches: seq<Batch>)
    requires batches != []
    ensures Flat(batches) == batches[0].alerts + Flat(batches[1..])
    decreases |batches|
  {
    var n := |batches| - 1;
    if n > 0 {
      FlatTail(batches[..n]);
      assert batches[..n][1..] == batches[1..][..n - 1];
      assert batches[0].alerts + Flat(batches[1..][..n - 1]) + batches[n].alerts
          == batches[0].alerts + (Flat(batches[1..][..n - 1]) + batches[n].alerts);
    }
  }

  /** Every delivery takes the oldest batch in flight. */
  predicate OldestFirst(cap: int, ops: seq<Op>)
    requires cap > 0
  {
    forall n :: 0 <= n < |ops| && ops[n].Deliver? ==>
      Run(cap, ops[..n]).inFlight == [] || Run(cap, ops[..n]).inFlight[0].cycle == ops[n].cycle
  }

  predicate Conserved(s: Sys) { s.history + Flat(s.inFlight) == s.drained }

  lemma DrainConserves(s: Sys, b: Batch)
    requires Conserved(s)
    ensures Conserved(s.(buf := [], inFlight := s.inFlight + [b], drained := s.drained + b.alerts))
  {
    assert (s.inFlight + [b])[..|s.inFlight|] == s.inFlight;
    assert s.history + (Flat(s.inFlight) + b.alerts) == (s.history + Flat(s.inFlight)) + b.alerts;
  }

  lemma OldestConserves(s: Sys)
    requires Conserved(s) && s.inFlight != []
    ensures Conserved(Delivered(s, 0))
  {
    FlatTail(s.inFlight);
    var b, rest := s.inFlight[0], Flat(s.inFlight[1..]);
    assert s.inFlight[..0] + s.inFlight[1..] == s.inFlight[1..];
    assert (s.history + b.alerts) + rest == s.history + (b.alerts + rest);
  }

  lemma OldestFirstPrefix(cap: int, ops: seq<Op>)
    requires cap > 0 && OldestFirst(cap, ops) && ops != []
    ensures OldestFirst(cap, ops[..|ops| - 1])
  {
    var before := ops[..|ops| - 1];
    forall n | 0 <= n < |before| && before[n].Deliver?
      ensures Run(cap, before[..n]).inFlight == [] || Run(cap, before[..n]).inFlight[0].cycle == before[n].cycle
    {
      assert before[..n] == ops[..n] && before[n] == ops[n];
    }
  }

  /** Then history followed by the batches in flight is exactly what was drained, whatever else interleaves. */
  lemma {:induction false} OldestFirstHistoryIsDrained(cap: int, ops: seq<Op>)
    requires cap > 0 && OldestFirst(cap, ops)
    ensures Run(cap, ops).history + Flat(Run(cap, ops).inFlight) == Run(cap, ops).drained
    decreases |ops|
  {
    if ops != [] {
      var n := |ops| - 1;
      var s := Run(cap, ops[..n]);
      OldestFirstPrefix(cap, ops);
      OldestFirstHistoryIsDrained(cap, ops[..n]);
      match ops[n]
      case Send(a) =>
      case Drain(c) => DrainConserves(s, Batch(c, |s.drained|, s.buf));
      case Deliver(c) => if s.inFlight != [] { OldestConserves(s); }
    }
  }

  lemma RunSnoc(cap: int, ops: seq<Op>, op: Op, s: Sys)
    requires cap > 0 && Run(cap, ops) == s
    ensures Run(cap, ops + [op]) == Next(cap, s, op)
  {
    assert (ops + [op])[..|ops|] == ops;
  }

  /** Two batches in flight at once, drained in the order x, y. */
  lemma TwoInFlight(x: Alert, y: Alert) returns (ops: seq<Op>)
    ensures Run(5, ops) == Sys([], 0, [Batch(0, 0, [x]), Batch(1, 1, [y])], 0, [], [x, y], [x, y])
  {
    var s1 := Sys([x], 0, [], 0, [], [], [x]);
    var s2 := Sys([], 0, [Batch(0, 0, [x])], 0, [], [x], [x]);
    var s3 := Sys([y], 0, [Batch(0, 0, [x])], 0, [], [x], [x, y]);
    RunSnoc(5, [], Send(x), Sys([], 0, [], 0, [], [], []));
    ops := [] + [Send(x)];
    assert Run(5, ops) == s1;
    RunSnoc(5, ops, Drain(0), s1);
    ops := ops + [Drain(0)];
    assert Run(5, ops) == s2;
    RunSnoc(5, ops, Send(y), s2);
    ops := ops + [Send(y)];
    assert Run(5, ops) == s3;
    RunSnoc(5, ops, Drain(1), s3);
    ops := ops + [Drain(1)];
  }

  lemma DeliverYoungest(x: Alert, y: Alert)
    ensures var s := Sys([], 0, [Batch(0, 0, [x]), Batch(1, 1, [y])], 0, [], [x, y], [x, y]);
      Next(5, s, Deliver(1)) == Sys([], 0, [Batch(0, 0, [x])], 2, [y], [x, y], [x, y])
  {
    var batches := [Batch(0, 0, [x]), Batch(1, 1, [y])];
    assert Slot(batches, 1) == 1;
    assert batches[..1] + batches[2..] == [Batch(0, 0, [x])];
  }

  lemma DeliverOldest(x: Alert, y: Alert)
    ensures var s := Sys([], 0, [Batch(0, 0, [x])], 2, [y], [x, y], [x, y]);
      Late(s, Deliver(0)) && Next(5, s, Deliver(0)) == Sys([], 0, [], 2, [y, x], [x, y], [x, y])
  {
    var batches := [Batch(0, 0, [x])];
    assert Slot(batches, 0) == 0;
    assert batches[..0] + batches[1..] == [] && [y] + [x] == [y, x];
  }

  /** Two overlapping cycles that deliver in the wrong order. */
  lemma OverlappingCyclesReorder(x: Alert, y: Alert) returns (ops: seq<Op>)
    requires x != y
    ensures Run(5, ops).sent == [x, y] && Run(5, ops).history == [y, x]
    ensures Overtaken(5, ops) && !InOrderPart(Run(5, ops).history, Run(5, ops).sent)
  {
    ops := TwoInFlight(x, y);
    RunSnoc(5, ops, Deliver(1), Run(5, ops));
    DeliverYoungest(x, y);
    ops := ops + [Deliver(1)];
    RunSnoc(5, ops, Deliver(0), Run(5, ops));
    DeliverOldest(x, y);
    var before := ops;
    ops := ops + [Deliver(0)];
    assert ops[..|ops| - 1] == before;
    OvertakenSnoc(5, ops);
    HistoryInOrderIff(5, ops);
  }
}
