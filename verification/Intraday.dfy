/** Point-in-time intraday features: window edges, the visibility gate and day slicing. */
module Intraday {
  import opened Collections
  import opened Signals

  const MINUTE: int := 60_000_000_000
  const HOUR: int := 60 * MINUTE

  /** `visibleAt` is None when it was never declared: such a bar is never visible. */
  datatype MinuteBar = MinuteBar(date: int, visibleAt: Option<int>, open: real, close: real)

  predicate Visible(b: MinuteBar, asOf: int) { b.visibleAt.Some? && b.visibleAt.value <= asOf }

  function VisibleBy(asOf: int): MinuteBar -> bool { (b: MinuteBar) => Visible(b, asOf) }

  predicate Within(b: MinuteBar, lo: int, hi: int) { lo <= b.date < hi }

  // ---- window edges ----

  /** The earliest bar with lo <= date < hi, the first one in the list on a tie. */
  function FirstIn(bars: seq<MinuteBar>, lo: int, hi: int): Option<MinuteBar> {
    if bars == [] then None else
      var best := FirstIn(bars[..|bars| - 1], lo, hi);
      var b := bars[|bars| - 1];
      if Within(b, lo, hi) && (best.None? || b.date < best.value.date) then Some(b) else best
  }

  /** The latest bar with lo <= date < hi, the first one in the list on a tie. */
  function LastIn(bars: seq<MinuteBar>, lo: int, hi: int): Option<MinuteBar> {
    if bars == [] then None else
      var best := LastIn(bars[..|bars| - 1], lo, hi);
      var b := bars[|bars| - 1];
      if Within(b, lo, hi) && (best.None? || b.date > best.value.date) then Some(b) else best
  }

  /** `windowEdgeBars`: one pass, no assumption that the bars are sorted. */
  method WindowEdgeBars(bars: seq<MinuteBar>, lo: int, hi: int) returns (edges: Option<(MinuteBar, MinuteBar)>)
    ensures edges.Some? == FirstIn(bars, lo, hi).Some? == LastIn(bars, lo, hi).Some?
    ensures edges.Some? ==> FirstIn(bars, lo, hi) == Some(edges.value.0) && LastIn(bars, lo, hi) == Some(edges.value.1)
  {
    edges := None;
    for i := 0 to |bars|
      invariant edges.Some? == FirstIn(bars[..i], lo, hi).Some? == LastIn(bars[..i], lo, hi).Some?
      invariant edges.Some? ==>
        FirstIn(bars[..i], lo, hi) == Some(edges.value.0) && LastIn(bars[..i], lo, hi) == Some(edges.value.1)
    {
      var b := bars[i];
      assert bars[..i + 1][..i] == bars[..i];
      if b.date < lo || !(b.date < hi) { continue; }
      if edges.None? {
        edges := Some((b, b));
        continue;
      }
      var (first, last) := edges.value;
      if b.date < first.date { first := b; }
      if b.date > last.date { last := b; }
      edges := Some((first, last));
    }
    assert bars[..|bars|] == bars;
  }

  /** The edges are bars of the window, and no bar of the window lies outside them. */
  lemma {:induction false} EdgesBound(bars: seq<MinuteBar>, lo: int, hi: int)
    ensures FirstIn(bars, lo, hi).Some? == LastIn(bars, lo, hi).Some?
    ensures FirstIn(bars, lo, hi).Some? ==>
      && FirstIn(bars, lo, hi).value in bars && Within(FirstIn(bars, lo, hi).value, lo, hi)
      && LastIn(bars, lo, hi).value in bars && Within(LastIn(bars, lo, hi).value, lo, hi)
    ensures forall b :: b in bars && Within(b, lo, hi) ==>
      FirstIn(bars, lo, hi).Some? && FirstIn(bars, lo, hi).value.date <= b.date <= LastIn(bars, lo, hi).value.date
    decreases |bars|
  {
    if bars != [] {
      EdgesBound(bars[..|bars| - 1], lo, hi);
      assert bars == bars[..|bars| - 1] + [bars[|bars| - 1]];
    }
  }

  // ---- the feature ----

  const WINDOW_START: int := 9 * HOUR + 30 * MINUTE
  const WINDOW_END: int := 10 * HOUR

  /** Go's `VisibleAt.Before(t)`: the undeclared zero time is before everything. */
  predicate ClosesBefore(b: MinuteBar, t: int) { b.visibleAt.None? || b.visibleAt.value < t }

  /** `openMomentum30m`: the value, or None when it is not available at `asOf`. */
  function OpenMomentum(dayStart: int, bars: seq<MinuteBar>, asOf: int): Option<real> {
    var first := FirstIn(bars, dayStart + WINDOW_START, dayStart + WINDOW_END);
    var last := LastIn(bars, dayStart + WINDOW_START, dayStart + WINDOW_END);
    if first.None? || last.None? then None
    else if ClosesBefore(last.value, dayStart + WINDOW_END) then None
    else if !Visible(first.value, asOf) || !Visible(last.value, asOf) then None
    else if first.value.open <= 0.0 then None
    else Some(last.value.close / first.value.open - 1.0)
  }

  /** Bar f is the earliest of [lo, hi), the first one in the list on a tie. */
  ghost predicate EarliestAt(bars: seq<MinuteBar>, lo: int, hi: int, f: nat) {
    && f < |bars| && lo <= bars[f].date < hi
    && forall k :: 0 <= k < |bars| && lo <= bars[k].date < hi ==>
         bars[f].date < bars[k].date || (bars[f].date == bars[k].date && f <= k)
  }

  /** Bar l is the latest of [lo, hi), the first one in the list on a tie. */
  ghost predicate LatestAt(bars: seq<MinuteBar>, lo: int, hi: int, l: nat) {
    && l < |bars| && lo <= bars[l].date < hi
    && forall k :: 0 <= k < |bars| && lo <= bars[k].date < hi ==>
         bars[k].date < bars[l].date || (bars[k].date == bars[l].date && l <= k)
  }

  lemma {:induction false} FirstIsEarliest(bars: seq<MinuteBar>, lo: int, hi: int, f: nat)
    requires EarliestAt(bars, lo, hi, f)
    ensures FirstIn(bars, lo, hi) == Some(bars[f])
    decreases |bars|
  {
    var n := |bars| - 1;
    if f < n {
      FirstIsEarliest(bars[..n], lo, hi, f);
    } else {
      EdgesBound(bars[..n], lo, hi);
    }
  }

  lemma {:induction false} LastIsLatest(bars: seq<MinuteBar>, lo: int, hi: int, l: nat)
    requires LatestAt(bars, lo, hi, l)
    ensures LastIn(bars, lo, hi) == Some(bars[l])
    decreases |bars|
  {
    var n := |bars| - 1;
    if l < n {
      LastIsLatest(bars[..n], lo, hi, l);
    } else {
      EdgesBound(bars[..n], lo, hi);
    }
  }

  /** 09:30 and 10:00 after midnight, in nanoseconds. */
  function At0930(dayStart: int): int { dayStart + 34_200_000_000_000 }

  function At1000(dayStart: int): int { dayStart + 36_000_000_000_000 }

  /**
   * The feature over the bars. With f and l the first and last bar of 09:30 to 10:00, it is l's close over f's
   * open less one, available exactly when l closes the window, both are declared visible by then and f opened
   * at a positive price.
   */
  lemma FeatureMeans(dayStart: int, bars: seq<MinuteBar>, asOf: int, f: nat, l: nat)
    requires EarliestAt(bars, At0930(dayStart), At1000(dayStart), f)
    requires LatestAt(bars, At0930(dayStart), At1000(dayStart), l)
    ensures OpenMomentum(dayStart, bars, asOf) ==
      if && bars[f].visibleAt.Some? && bars[f].visibleAt.value <= asOf
         && bars[l].visibleAt.Some? && At1000(dayStart) <= bars[l].visibleAt.value <= asOf
         && bars[f].open > 0.0
      then Some(bars[l].close / bars[f].open - 1.0) else None
  {
    FirstIsEarliest(bars, At0930(dayStart), At1000(dayStart), f);
    LastIsLatest(bars, At0930(dayStart), At1000(dayStart), l);
  }

  /** Without a bar from 09:30 to 10:00 there is no feature. */
  lemma NoBarNoFeature(dayStart: int, bars: seq<MinuteBar>, asOf: int)
    requires forall k :: 0 <= k < |bars| ==> !(At0930(dayStart) <= bars[k].date < At1000(dayStart))
    ensures OpenMomentum(dayStart, bars, asOf) == None
  {
    EdgesBound(bars, At0930(dayStart), At1000(dayStart));
  }

  /** Bars not yet visible cannot replace a visible first bar: dropping them leaves it in place. */
  lemma {:induction false} VisibleFirstStays(bars: seq<MinuteBar>, lo: int, hi: int, asOf: int)
    requires FirstIn(bars, lo, hi).Some? && Visible(FirstIn(bars, lo, hi).value, asOf)
    ensures FirstIn(Filter(VisibleBy(asOf), bars), lo, hi) == FirstIn(bars, lo, hi)
    decreases |bars|
  {
    var init, b := bars[..|bars| - 1], bars[|bars| - 1];
    var kept := Filter(VisibleBy(asOf), init);
    if FirstIn(bars, lo, hi) == FirstIn(init, lo, hi) {
      VisibleFirstStays(init, lo, hi, asOf);
      if !Visible(b, asOf) { assert Filter(VisibleBy(asOf), bars) == kept; }
    } else {
      EdgesBound(init, lo, hi);
      EdgesBound(kept, lo, hi);
      FilterMembers(VisibleBy(asOf), init);
    }
    assert (kept + [b])[..|kept|] == kept;
  }

  /** The same for the last bar. */
  lemma {:induction false} VisibleLastStays(bars: seq<MinuteBar>, lo: int, hi: int, asOf: int)
    requires LastIn(bars, lo, hi).Some? && Visible(LastIn(bars, lo, hi).value, asOf)
    ensures LastIn(Filter(VisibleBy(asOf), bars), lo, hi) == LastIn(bars, lo, hi)
    decreases |bars|
  {
    var init, b := bars[..|bars| - 1], bars[|bars| - 1];
    var kept := Filter(VisibleBy(asOf), init);
    if LastIn(bars, lo, hi) == LastIn(init, lo, hi) {
      VisibleLastStays(init, lo, hi, asOf);
      if !Visible(b, asOf) { assert Filter(VisibleBy(asOf), bars) == kept; }
    } else {
      EdgesBound(init, lo, hi);
      EdgesBound(kept, lo, hi);
      FilterMembers(VisibleBy(asOf), init);
    }
    assert (kept + [b])[..|kept|] == kept;
  }

  /** No look-ahead: an available value is the value computed from the visible bars alone. */
  lemma AvailableFromVisibleOnly(dayStart: int, bars: seq<MinuteBar>, asOf: int)
    ensures OpenMomentum(dayStart, bars, asOf).Some? ==>
      OpenMomentum(dayStart, bars, asOf) == OpenMomentum(dayStart, Filter(VisibleBy(asOf), bars), asOf)
  {
    if OpenMomentum(dayStart, bars, asOf).Some? {
      VisibleFirstStays(bars, dayStart + WINDOW_START, dayStart + WINDOW_END, asOf);
      VisibleLastStays(bars, dayStart + WINDOW_START, dayStart + WINDOW_END, asOf);
    }
  }

  /** Once available, a value stays available and unchanged at every later moment. */
  lemma AvailableStays(dayStart: int, bars: seq<MinuteBar>, asOf: int, later: int)
    requires asOf <= later && OpenMomentum(dayStart, bars, asOf).Some?
    ensures OpenMomentum(dayStart, bars, later) == OpenMomentum(dayStart, bars, asOf)
  {
  }

  // ---- slicing a day out of a sorted series ----

  predicate SortedByDate(bars: seq<MinuteBar>) {
    forall i, j :: 0 <= i < j < |bars| ==> bars[i].date <= bars[j].date
  }

  function InDay(lo: int, hi: int): MinuteBar -> bool { (b: MinuteBar) => Within(b, lo, hi) }

  /** `sort.Search` for the first bar not before `t`. */
  method SearchDate(bars: seq<MinuteBar>, t: int) returns (k: nat)
    requires SortedByDate(bars)
    ensures k <= |bars| && forall i :: 0 <= i < |bars| ==> (bars[i].date < t <==> i < k)
  {
    var i, j := 0, |bars|;
    while i < j
      invariant 0 <= i <= j <= |bars|
      invariant forall m :: 0 <= m < i ==> bars[m].date < t
      invariant forall m :: j <= m < |bars| ==> bars[m].date >= t
    {
      var h := (i + j) / 2;
      if bars[h].date < t { i := h + 1; } else { j := h; }
    }
    k := i;
  }

  lemma {:induction false} SliceIsFilter(bars: seq<MinuteBar>, lo: nat, hi: nat, keep: MinuteBar -> bool)
    requires lo <= hi <= |bars| && forall i :: 0 <= i < |bars| ==> (keep(bars[i]) <==> lo <= i < hi)
    ensures Filter(keep, bars) == bars[lo..hi]
    decreases |bars|
  {
    if bars != [] {
      var n := |bars| - 1;
      if lo < hi == |bars| {
        SliceOfTake(bars, n, lo, n);
        SliceIsFilter(bars[..n], lo, n, keep);
        assert bars[lo..hi] == bars[lo..n] + [bars[n]];
      } else if hi < |bars| {
        SliceOfTake(bars, n, lo, hi);
        SliceIsFilter(bars[..n], lo, hi, keep);
      } else {
        FilterNone(keep, bars);
      }
    }
  }

  /** `dayBars`: two binary searches give exactly the bars of the day, as a linear filter would. */
  method DayBars(all: seq<MinuteBar>, dayStart: int, dayEnd: int) returns (bars: seq<MinuteBar>)
    requires SortedByDate(all)
    ensures bars == Filter(InDay(dayStart, dayEnd), all)
  {
    var lo := SearchDate(all, dayStart);
    var hi := SearchDate(all, dayEnd);
    if lo >= hi {
      FilterNone(InDay(dayStart, dayEnd), all);
      return [];
    }
    SliceIsFilter(all, lo, hi, InDay(dayStart, dayEnd));
    bars := all[lo..hi];
  }

  /** The provider's answer for a catalogued feature, with the day sliced by a plain filter. */
  function DayFeature(snapshot: map<string, seq<MinuteBar>>, symbol: string, dayStart: int, dayEnd: int, asOf: int): Option<real> {
    if symbol !in snapshot then None
    else OpenMomentum(dayStart, Filter(InDay(dayStart, dayEnd), snapshot[symbol]), asOf)
  }

  /** `IntradayFeature`: unknown names and cancelled calls get nothing. */
  method IntradayFeature(snapshot: map<string, seq<MinuteBar>>, symbol: string, name: string,
                         dayStart: int, dayEnd: int, asOf: int, cancelled: bool)
    returns (value: Option<real>)
    requires forall s :: s in snapshot ==> SortedByDate(snapshot[s])
    ensures value == if cancelled || name != "open_momentum_30m" then None
                     else DayFeature(snapshot, symbol, dayStart, dayEnd, asOf)
  {
    if cancelled || name != "open_momentum_30m" || symbol !in snapshot { return None; }
    var bars := DayBars(snapshot[symbol], dayStart, dayEnd);
    if bars == [] { return None; }
    var lo, hi := dayStart + WINDOW_START, dayStart + WINDOW_END;
    var edges := WindowEdgeBars(bars, lo, hi);
    if edges.None? { return None; }
    var (first, last) := edges.value;
    if ClosesBefore(last, hi) { return None; }
    if !Visible(first, asOf) || !Visible(last, asOf) { return None; }
    if first.open <= 0.0 { return None; }
    value := Some(last.close / first.open - 1.0);
  }

  lemma {:induction false} FiltersCommute(p: MinuteBar -> bool, q: MinuteBar -> bool, s: seq<MinuteBar>)
    ensures Filter(p, Filter(q, s)) == Filter(q, Filter(p, s))
    decreases |s|
  {
    if s != [] {
      var init, x := s[..|s| - 1], s[|s| - 1];
      FiltersCommute(p, q, init);
      FilterConcat(p, Filter(q, init), if q(x) then [x] else []);
      FilterConcat(q, Filter(p, init), if p(x) then [x] else []);
      FilterOne(p, x);
      FilterOne(q, x);
    }
  }

  /**
   * Point-in-time safety of the provider: two snapshots that agree on the bars visible by `asOf`
   * never give two different available values.
   */
  lemma ProviderIsPointInTime(a: map<string, seq<MinuteBar>>, b: map<string, seq<MinuteBar>>, symbol: string,
                              dayStart: int, dayEnd: int, asOf: int)
    requires symbol in a && symbol in b
    requires Filter(VisibleBy(asOf), a[symbol]) == Filter(VisibleBy(asOf), b[symbol])
    requires DayFeature(a, symbol, dayStart, dayEnd, asOf).Some? && DayFeature(b, symbol, dayStart, dayEnd, asOf).Some?
    ensures DayFeature(a, symbol, dayStart, dayEnd, asOf) == DayFeature(b, symbol, dayStart, dayEnd, asOf)
  {
    AvailableFromVisibleOnly(dayStart, Filter(InDay(dayStart, dayEnd), a[symbol]), asOf);
    AvailableFromVisibleOnly(dayStart, Filter(InDay(dayStart, dayEnd), b[symbol]), asOf);
    FiltersCommute(VisibleBy(asOf), InDay(dayStart, dayEnd), a[symbol]);
    FiltersCommute(VisibleBy(asOf), InDay(dayStart, dayEnd), b[symbol]);
  }
}
