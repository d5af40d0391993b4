/** Loading the minute-bar snapshot in chunks: what is requested, what is skipped, what the day slice sees. */
module IntradayLoad {
  import opened Collections
  import opened Signals
  import opened Intraday

  const CHUNK: int := 365 * DAY
  const REACH: int := 364 * DAY

  /** The inclusive upper bound of the chunk that starts at `cs`. */
  function ChunkEnd(cs: int, endExclusive: int): int {
    if cs + REACH > endExclusive then endExclusive - 1 else cs + REACH
  }

  /** A closed interval of instants. */
  datatype Window = Window(lo: int, hi: int)

  function Windows(cs: int, endExclusive: int): seq<Window>
    decreases endExclusive - cs
  {
    if cs >= endExclusive then [] else [Window(cs, ChunkEnd(cs, endExclusive))] + Windows(cs + CHUNK, endExclusive)
  }

  /** Some chunk from `cs` on asks for instant `t`. */
  predicate Requested(t: int, cs: int, endExclusive: int)
    decreases endExclusive - cs
  {
    cs < endExclusive && (cs <= t <= ChunkEnd(cs, endExclusive) || Requested(t, cs + CHUNK, endExclusive))
  }

  function Between(lo: int, hi: int): MinuteBar -> bool { (b: MinuteBar) => lo <= b.date <= hi }

  function RequestedFrom(cs: int, endExclusive: int): MinuteBar -> bool {
    (b: MinuteBar) => Requested(b.date, cs, endExclusive)
  }

  /** The chunks of one series, concatenated. */
  function Loaded(series: seq<MinuteBar>, cs: int, endExclusive: int): seq<MinuteBar>
    decreases endExclusive - cs
  {
    if cs >= endExclusive then []
    else Filter(Between(cs, ChunkEnd(cs, endExclusive)), series) + Loaded(series, cs + CHUNK, endExclusive)
  }

  function Append(m: map<string, seq<MinuteBar>>, symbol: string, bars: seq<MinuteBar>): map<string, seq<MinuteBar>> {
    if bars == [] then m else m[symbol := (if symbol in m then m[symbol] else []) + bars]
  }

  type Table = string -> seq<MinuteBar>

  function Snapshot(table: Table, symbols: seq<string>, start: int, endExclusive: int): map<string, seq<MinuteBar>> {
    if symbols == [] then map[] else
      var s := symbols[|symbols| - 1];
      Append(Snapshot(table, symbols[..|symbols| - 1], start, endExclusive), s, Loaded(table(s), start, endExclusive))
  }

  /** The router answers a closed interval from its table, or fails. */
  type Router = (string, int, int) -> Option<seq<MinuteBar>>

  ghost predicate Faithful(router: Router, table: Table) {
    forall s, lo, hi :: router(s, lo, hi).Some? ==> router(s, lo, hi).value == Filter(Between(lo, hi), table(s))
  }

  predicate AllAnswered(router: Router, symbol: string, cs: int, endExclusive: int)
    decreases endExclusive - cs
  {
    cs < endExclusive ==>
      router(symbol, cs, ChunkEnd(cs, endExclusive)).Some? && AllAnswered(router, symbol, cs + CHUNK, endExclusive)
  }

  lemma AppendTwice(m: map<string, seq<MinuteBar>>, s: string, a: seq<MinuteBar>, b: seq<MinuteBar>)
    ensures Append(Append(m, s, a), s, b) == Append(m, s, a + b)
  {
    if a == [] {
      assert a + b == b;
    } else if b == [] {
      assert a + b == a;
    } else {
      var have := if s in m then m[s] else [];
      assert (have + a) + b == have + (a + b);
    }
  }

  /** The chunk loop for one symbol; false when the router fails. */
  method LoadSymbol(router: Router, ghost table: Table, symbol: string, start: int, endExclusive: int,
                    before: map<string, seq<MinuteBar>>)
    returns (ok: bool, snapshot: map<string, seq<MinuteBar>>, count: nat)
    requires Faithful(router, table)
    ensures ok ==> snapshot == Append(before, symbol, Loaded(table(symbol), start, endExclusive))
    ensures ok ==> count == |Loaded(table(symbol), start, endExclusive)|
    ensures ok == AllAnswered(router, symbol, start, endExclusive)
  {
    snapshot, count := before, 0;
    var cs := start;
    while cs < endExclusive
      invariant Append(snapshot, symbol, Loaded(table(symbol), cs, endExclusive))
             == Append(before, symbol, Loaded(table(symbol), start, endExclusive))
      invariant AllAnswered(router, symbol, start, endExclusive) == AllAnswered(router, symbol, cs, endExclusive)
      invariant count + |Loaded(table(symbol), cs, endExclusive)| == |Loaded(table(symbol), start, endExclusive)|
      decreases endExclusive - cs
    {
      var ce := cs + REACH;
      if ce > endExclusive {
        ce := endExclusive - 1;
      }
      var bars := router(symbol, cs, ce);
      if bars.None? { return false, map[], 0; }
      AppendTwice(snapshot, symbol, bars.value, Loaded(table(symbol), cs + CHUNK, endExclusive));
      if bars.value != [] {
        snapshot := snapshot[symbol := (if symbol in snapshot then snapshot[symbol] else []) + bars.value];
        count := count + |bars.value|;
      }
      cs := cs + CHUNK;
    }
    ok := true;
  }

  function CountAll(table: Table, symbols: seq<string>, start: int, endExclusive: int): nat {
    if symbols == [] then 0
    else CountAll(table, symbols[..|symbols| - 1], start, endExclusive) + |Loaded(table(symbols[|symbols| - 1]), start, endExclusive)|
  }

  /** `loadIntradaySnapshot`: symbol by symbol, with the number of bars; any failure discards everything. */
  method LoadIntradaySnapshot(router: Router, ghost table: Table, symbols: seq<string>, start: int, endExclusive: int)
    returns (snapshot: Option<map<string, seq<MinuteBar>>>, total: nat)
    requires Faithful(router, table)
    ensures snapshot.Some? <==> forall i :: 0 <= i < |symbols| ==> AllAnswered(router, symbols[i], start, endExclusive)
    ensures snapshot.Some? ==> snapshot.value == Snapshot(table, symbols, start, endExclusive)
    ensures total == if snapshot.Some? then CountAll(table, symbols, start, endExclusive) else 0
  {
    var all: map<string, seq<MinuteBar>> := map[];
    total := 0;
    for k := 0 to |symbols|
      invariant all == Snapshot(table, symbols[..k], start, endExclusive)
      invariant total == CountAll(table, symbols[..k], start, endExclusive)
      invariant forall i :: 0 <= i < k ==> AllAnswered(router, symbols[i], start, endExclusive)
    {
      assert symbols[..k + 1][..k] == symbols[..k];
      var ok, next, count := LoadSymbol(router, table, symbols[k], start, endExclusive, all);
      if !ok { return None, 0; }
      all, total := next, total + count;
    }
    assert symbols[..|symbols|] == symbols;
    snapshot := Some(all);
  }

  lemma {:induction false} SnapshotHolds(table: Table, symbols: seq<string>, start: int, endExclusive: int, symbol: string)
    requires forall i, j :: 0 <= i < j < |symbols| ==> symbols[i] != symbols[j]
    ensures var m := Snapshot(table, symbols, start, endExclusive);
      (if symbol in m then m[symbol] else []) == if symbol in symbols then Loaded(table(symbol), start, endExclusive) else []
    decreases |symbols|
  {
    if symbols != [] {
      SnapshotHolds(table, symbols[..|symbols| - 1], start, endExclusive, symbol);
      assert symbols == symbols[..|symbols| - 1] + [symbols[|symbols| - 1]];
    }
  }

  /** How many bars a snapshot holds for the symbols. */
  function BarsIn(m: map<string, seq<MinuteBar>>, symbols: seq<string>): nat {
    if symbols == [] then 0 else
      var s := symbols[|symbols| - 1];
      BarsIn(m, symbols[..|symbols| - 1]) + (if s in m then |m[s]| else 0)
  }

  lemma {:induction false} BarsAreCounted(m: map<string, seq<MinuteBar>>, table: Table, symbols: seq<string>, start: int, endExclusive: int)
    requires forall i :: 0 <= i < |symbols| ==>
      (if symbols[i] in m then m[symbols[i]] else []) == Loaded(table(symbols[i]), start, endExclusive)
    ensures BarsIn(m, symbols) == CountAll(table, symbols, start, endExclusive)
    decreases |symbols|
  {
    if symbols != [] { BarsAreCounted(m, table, symbols[..|symbols| - 1], start, endExclusive); }
  }

  /** The reported total is the number of bars in the snapshot. */
  lemma TotalIsSnapshotSize(table: Table, symbols: seq<string>, start: int, endExclusive: int)
    requires forall i, j :: 0 <= i < j < |symbols| ==> symbols[i] != symbols[j]
    ensures CountAll(table, symbols, start, endExclusive) == BarsIn(Snapshot(table, symbols, start, endExclusive), symbols)
  {
    var m := Snapshot(table, symbols, start, endExclusive);
    forall i | 0 <= i < |symbols|
      ensures (if symbols[i] in m then m[symbols[i]] else []) == Loaded(table(symbols[i]), start, endExclusive)
    {
      SnapshotHolds(table, symbols, start, endExclusive, symbols[i]);
    }
    BarsAreCounted(m, table, symbols, start, endExclusive);
  }

  // ---- what the chunks cover ----

  lemma WindowAt(cs: int, endExclusive: int, i: nat)
    requires cs < endExclusive && i < |Windows(cs, endExclusive)|
    ensures i == 0 ==> Windows(cs, endExclusive)[i] == Window(cs, ChunkEnd(cs, endExclusive))
    ensures i > 0 ==>
      && i - 1 < |Windows(cs + CHUNK, endExclusive)|
      && Windows(cs, endExclusive)[i] == Windows(cs + CHUNK, endExclusive)[i - 1]
    ensures cs <= ChunkEnd(cs, endExclusive) <= endExclusive && ChunkEnd(cs, endExclusive) < cs + CHUNK
  {
  }

  predicate Ascending(w: seq<Window>, lo: int, hi: int) {
    && (forall i :: 0 <= i < |w| ==> lo <= w[i].lo <= w[i].hi <= hi)
    && (forall i, j :: 0 <= i < j < |w| ==> w[i].hi < w[j].lo)
  }

  /** The windows are non-empty, ascending and pairwise disjoint. */
  lemma {:induction false} WindowsAscend(cs: int, endExclusive: int)
    ensures Ascending(Windows(cs, endExclusive), cs, endExclusive)
    decreases endExclusive - cs
  {
    if cs < endExclusive {
      WindowsAscend(cs + CHUNK, endExclusive);
      var w := Windows(cs, endExclusive);
      forall i | 0 <= i < |w| ensures cs <= w[i].lo <= w[i].hi <= endExclusive {
        WindowAt(cs, endExclusive, i);
      }
      forall i, j | 0 <= i < j < |w| ensures w[i].hi < w[j].lo {
        WindowAt(cs, endExclusive, i);
        WindowAt(cs, endExclusive, j);
      }
    }
  }

  predicate InWindow(w: seq<Window>, i: int, t: int) { 0 <= i < |w| && w[i].lo <= t <= w[i].hi }

  /** The instants requested are those in some window. */
  lemma {:induction false} RequestedHasWindow(t: int, cs: int, endExclusive: int) returns (i: int)
    requires Requested(t, cs, endExclusive)
    ensures InWindow(Windows(cs, endExclusive), i, t)
    decreases endExclusive - cs
  {
    if cs <= t <= ChunkEnd(cs, endExclusive) {
      i := 0;
    } else {
      i := RequestedHasWindow(t, cs + CHUNK, endExclusive);
      i := i + 1;
      WindowAt(cs, endExclusive, i);
    }
  }

  lemma {:induction false} WindowIsRequested(t: int, cs: int, endExclusive: int, i: int)
    requires InWindow(Windows(cs, endExclusive), i, t)
    ensures Requested(t, cs, endExclusive)
    decreases endExclusive - cs
  {
    WindowAt(cs, endExclusive, i);
    if i > 0 { WindowIsRequested(t, cs + CHUNK, endExclusive, i - 1); }
  }

  lemma {:induction false} RequestedIsLater(t: int, cs: int, endExclusive: int)
    requires Requested(t, cs, endExclusive)
    ensures cs <= t
    decreases endExclusive - cs
  {
    if !(cs <= t <= ChunkEnd(cs, endExclusive)) { RequestedIsLater(t, cs + CHUNK, endExclusive); }
  }

  /** The start of the chunk whose 365 days hold `t`. */
  function ChunkOf(t: int, start: int): int { start + (t - start) / CHUNK * CHUNK }

  /** `t` lies in the last day of the chunk at `cs`, past its last requested instant. */
  predicate InGap(t: int, cs: int, endExclusive: int) {
    cs + REACH <= endExclusive && cs + REACH < t < cs + CHUNK
  }

  lemma {:induction false} RequestedInChunk(t: int, cs: int, endExclusive: int, k: nat)
    requires cs + k * CHUNK <= t < cs + k * CHUNK + CHUNK && t < endExclusive
    ensures Requested(t, cs, endExclusive) <==> !InGap(t, cs + k * CHUNK, endExclusive)
    decreases k
  {
    if k == 0 {
      if Requested(t, cs + CHUNK, endExclusive) { RequestedIsLater(t, cs + CHUNK, endExclusive); }
    } else {
      assert cs + CHUNK + (k - 1) * CHUNK == cs + k * CHUNK;
      RequestedInChunk(t, cs + CHUNK, endExclusive, k - 1);
    }
  }

  /**
   * Exactly the instants in (cs + 364d, cs + 365d) of unclipped chunks are never requested: the last
   * day of every full chunk is skipped.
   */
  lemma SkippedInstants(t: int, start: int, endExclusive: int)
    requires start <= t < endExclusive
    ensures Requested(t, start, endExclusive) <==> !InGap(t, ChunkOf(t, start), endExclusive)
  {
    var k := (t - start) / CHUNK;
    ChunkBounds(t - start);
    RequestedInChunk(t, start, endExclusive, k);
  }

  lemma ChunkBounds(d: int)
    requires d >= 0
    ensures 0 <= d / CHUNK && d / CHUNK * CHUNK <= d < d / CHUNK * CHUNK + CHUNK
  {
  }

  // ---- the loaded series is a filter of the table ----

  lemma {:induction false} FilterUnion(p: MinuteBar -> bool, q: MinuteBar -> bool, either: MinuteBar -> bool, s: seq<MinuteBar>)
    requires SortedByDate(s)
    requires forall x, y :: p(x) && q(y) ==> x.date < y.date
    requires forall x :: either(x) <==> p(x) || q(x)
    ensures Filter(either, s) == Filter(p, s) + Filter(q, s)
    decreases |s|
  {
    if s != [] {
      var init, x := s[..|s| - 1], s[|s| - 1];
      FilterUnion(p, q, either, init);
      if p(x) && !q(x) {
        forall i | 0 <= i < |init| ensures !q(init[i]) { assert init[i].date <= x.date; }
        FilterNone(q, init);
        assert Filter(q, s) == [];
      }
    }
  }

  /** Concatenating the chunks of a sorted series keeps exactly the requested bars, still sorted. */
  lemma {:induction false} LoadedIsFilter(series: seq<MinuteBar>, cs: int, endExclusive: int)
    requires SortedByDate(series)
    ensures Loaded(series, cs, endExclusive) == Filter(RequestedFrom(cs, endExclusive), series)
    decreases endExclusive - cs
  {
    if cs >= endExclusive {
      FilterNone(RequestedFrom(cs, endExclusive), series);
    } else {
      var ce := ChunkEnd(cs, endExclusive);
      LoadedIsFilter(series, cs + CHUNK, endExclusive);
      forall x, y | Between(cs, ce)(x) && RequestedFrom(cs + CHUNK, endExclusive)(y) ensures x.date < y.date {
        RequestedIsLater(y.date, cs + CHUNK, endExclusive);
      }
      FilterUnion(Between(cs, ce), RequestedFrom(cs + CHUNK, endExclusive), RequestedFrom(cs, endExclusive), series);
    }
  }

  lemma {:induction false} FilterStaysSorted(keep: MinuteBar -> bool, s: seq<MinuteBar>)
    requires SortedByDate(s)
    ensures SortedByDate(Filter(keep, s))
    decreases |s|
  {
    if s != [] {
      var init, x := s[..|s| - 1], s[|s| - 1];
      FilterStaysSorted(keep, init);
      FilterMembers(keep, init);
      var kept := Filter(keep, init);
      forall i | 0 <= i < |kept| ensures kept[i].date <= x.date {
        assert kept[i] in kept;
        var j :| 0 <= j < |init| && init[j] == kept[i];
      }
    }
  }

  /** So the convention the binary search relies on holds for what was loaded. */
  lemma LoadedIsSorted(series: seq<MinuteBar>, start: int, endExclusive: int)
    requires SortedByDate(series)
    ensures SortedByDate(Loaded(series, start, endExclusive))
  {
    LoadedIsFilter(series, start, endExclusive);
    FilterStaysSorted(RequestedFrom(start, endExclusive), series);
  }

  // ---- end to end ----

  lemma {:induction false} FilterImplied(p: MinuteBar -> bool, q: MinuteBar -> bool, s: seq<MinuteBar>)
    requires forall i :: 0 <= i < |s| && p(s[i]) ==> q(s[i])
    ensures Filter(p, Filter(q, s)) == Filter(p, s)
    decreases |s|
  {
    if s != [] {
      var init, x := s[..|s| - 1], s[|s| - 1];
      FilterImplied(p, q, init);
      FilterConcat(p, Filter(q, init), if q(x) then [x] else []);
      FilterOne(p, x);
    }
  }

  /** The edges of a window are those of its own bars. */
  lemma {:induction false} EdgesOfWindow(bars: seq<MinuteBar>, lo: int, hi: int)
    ensures FirstIn(Filter(InDay(lo, hi), bars), lo, hi) == FirstIn(bars, lo, hi)
    ensures LastIn(Filter(InDay(lo, hi), bars), lo, hi) == LastIn(bars, lo, hi)
    decreases |bars|
  {
    if bars != [] {
      var init, b := bars[..|bars| - 1], bars[|bars| - 1];
      EdgesOfWindow(init, lo, hi);
      var kept := Filter(InDay(lo, hi), init);
      if Within(b, lo, hi) {
        assert Filter(InDay(lo, hi), bars) == kept + [b] && (kept + [b])[..|kept|] == kept;
      } else {
        assert Filter(InDay(lo, hi), bars) == kept;
      }
    }
  }

  /** The bars of the feature window, on a series sliced to its day or not. */
  lemma WindowOfDay(series: seq<MinuteBar>, dayStart: int)
    ensures Filter(InDay(dayStart + WINDOW_START, dayStart + WINDOW_END), Filter(InDay(dayStart, dayStart + DAY), series))
         == Filter(InDay(dayStart + WINDOW_START, dayStart + WINDOW_END), series)
  {
    FilterImplied(InDay(dayStart + WINDOW_START, dayStart + WINDOW_END), InDay(dayStart, dayStart + DAY), series);
  }

  /** Series with the same bars in the feature window have the same feature. */
  lemma FeatureOfWindow(dayStart: int, a: seq<MinuteBar>, b: seq<MinuteBar>, asOf: int)
    requires Filter(InDay(dayStart + WINDOW_START, dayStart + WINDOW_END), a)
          == Filter(InDay(dayStart + WINDOW_START, dayStart + WINDOW_END), b)
    ensures OpenMomentum(dayStart, a, asOf) == OpenMomentum(dayStart, b, asOf)
  {
    EdgesOfWindow(a, dayStart + WINDOW_START, dayStart + WINDOW_END);
    EdgesOfWindow(b, dayStart + WINDOW_START, dayStart + WINDOW_END);
  }

  /** The feature of the day that starts at `dayStart`, from a series. */
  function FeatureOn(series: seq<MinuteBar>, dayStart: int, asOf: int): Option<real> {
    OpenMomentum(dayStart, Filter(InDay(dayStart, dayStart + DAY), series), asOf)
  }

  /** When the feature window was requested, the loaded series gives the feature of the table. */
  lemma RequestedWindowIsExact(series: seq<MinuteBar>, start: int, endExclusive: int, dayStart: int, asOf: int)
    requires SortedByDate(series)
    requires forall t :: dayStart + WINDOW_START <= t < dayStart + WINDOW_END ==> Requested(t, start, endExclusive)
    ensures FeatureOn(Loaded(series, start, endExclusive), dayStart, asOf) == FeatureOn(series, dayStart, asOf)
  {
    var loaded := Loaded(series, start, endExclusive);
    LoadedIsFilter(series, start, endExclusive);
    FilterImplied(InDay(dayStart + WINDOW_START, dayStart + WINDOW_END), RequestedFrom(start, endExclusive), series);
    WindowOfDay(loaded, dayStart);
    WindowOfDay(series, dayStart);
    FeatureOfWindow(dayStart, Filter(InDay(dayStart, dayStart + DAY), loaded), Filter(InDay(dayStart, dayStart + DAY), series), asOf);
  }

  lemma EmptyWindowHasNoFeature(dayStart: int, bars: seq<MinuteBar>, asOf: int)
    requires forall b :: b in bars ==> !Within(b, dayStart + WINDOW_START, dayStart + WINDOW_END)
    ensures OpenMomentum(dayStart, bars, asOf) == None
  {
    EdgesBound(bars, dayStart + WINDOW_START, dayStart + WINDOW_END);
  }

  /** Shanghai midnight of the replay day number `d`; the engine's days are UTC midnights, eight hours later. */
  function ReplayDay(start: int, d: int): int { start + d * DAY - 8 * HOUR }

  /** `shanghaiDayStart`: midnight, eight hours ahead of UTC, of the day an instant falls on there. */
  function ShanghaiDayStart(t: int): int { (t + 28_800_000_000_000) / DAY * DAY - 28_800_000_000_000 }

  lemma ShanghaiDayHolds(t: int)
    ensures ShanghaiDayStart(t) <= t < ShanghaiDayStart(t) + DAY
    ensures (ShanghaiDayStart(t) + 28_800_000_000_000) % DAY == 0
  {
    var q := (t + 28_800_000_000_000) / DAY;
    assert q * DAY % DAY == 0;
  }

  /** A UTC midnight is 08:00 in Shanghai, so the replay day is the same calendar day there. */
  lemma ReplayDayIsShanghais(first: int, d: int)
    ensures ShanghaiDayStart((first + d) * DAY) == ReplayDay(first * DAY, d)
  {
    assert ((first + d) * DAY + 28_800_000_000_000) / DAY == first + d;
  }

  lemma DayInChunk(d: nat)
    ensures d * DAY == d / 365 * CHUNK + d % 365 * DAY && 0 <= d % 365 <= 364
  {
    assert d == 365 * (d / 365) + d % 365;
  }

  /** The feature window, 01:30 to 02:00 UTC, is requested on every replay day but the last of a full chunk. */
  lemma WindowRequestedIff(start: int, n: nat, d: nat, t: int)
    requires d < n && ReplayDay(start, d) + WINDOW_START <= t < ReplayDay(start, d) + WINDOW_END
    ensures Requested(t, start, start + n * DAY) <==> d % 365 != 364
  {
    DayInChunk(d);
    assert (d + 1) * DAY <= n * DAY;
    RequestedInChunk(t, start, start + n * DAY, d / 365);
  }

  /** On the last day of a full chunk nothing of the feature window is loaded. */
  lemma SkippedDayHasNoFeature(series: seq<MinuteBar>, start: int, n: nat, d: nat, asOf: int)
    requires SortedByDate(series) && d < n && d % 365 == 364
    ensures FeatureOn(Loaded(series, start, start + n * DAY), ReplayDay(start, d), asOf) == None
  {
    var dayStart := ReplayDay(start, d);
    var loaded := Loaded(series, start, start + n * DAY);
    var day := Filter(InDay(dayStart, dayStart + DAY), loaded);
    LoadedIsFilter(series, start, start + n * DAY);
    FilterMembers(RequestedFrom(start, start + n * DAY), series);
    FilterMembers(InDay(dayStart, dayStart + DAY), loaded);
    forall b | b in day ensures !Within(b, dayStart + WINDOW_START, dayStart + WINDOW_END) {
      assert RequestedFrom(start, start + n * DAY)(b);
      if Within(b, dayStart + WINDOW_START, dayStart + WINDOW_END) { WindowRequestedIff(start, n, d, b.date); }
    }
    EmptyWindowHasNoFeature(dayStart, day, asOf);
  }

  /** The feature of every replay day, from what was loaded of one series. */
  lemma LoadedFeature(series: seq<MinuteBar>, start: int, end: int, n: nat, d: nat, dayStart: int, asOf: int)
    requires SortedByDate(series) && d < n && end == start + n * DAY && dayStart == ReplayDay(start, d)
    ensures FeatureOn(Loaded(series, start, end), dayStart, asOf)
         == if d % 365 == 364 then None else FeatureOn(series, dayStart, asOf)
  {
    if d % 365 == 364 {
      SkippedDayHasNoFeature(series, start, n, d, asOf);
    } else {
      forall t | dayStart + WINDOW_START <= t < dayStart + WINDOW_END ensures Requested(t, start, end) {
        WindowRequestedIff(start, n, d, t);
      }
      RequestedWindowIsExact(series, start, end, dayStart, asOf);
    }
  }

  lemma EmptyDay(dayStart: int, asOf: int)
    ensures FeatureOn([], dayStart, asOf) == None
  {
    assert Filter(InDay(dayStart, dayStart + DAY), []) == [];
  }

  lemma ProviderIsFeature(table: Table, symbols: seq<string>, start: int, end: int, symbol: string, dayStart: int, asOf: int)
    requires forall i, j :: 0 <= i < j < |symbols| ==> symbols[i] != symbols[j]
    requires symbol in symbols
    ensures DayFeature(Snapshot(table, symbols, start, end), symbol, dayStart, dayStart + DAY, asOf)
         == FeatureOn(Loaded(table(symbol), start, end), dayStart, asOf)
  {
    SnapshotHolds(table, symbols, start, end, symbol);
    EmptyDay(dayStart, asOf);
  }

  /**
   * End to end, for every day of a backtest of `n` days: the provider gives the feature of the full table,
   * except on every 365th day, where it gives none.
   */
  lemma EveryReplayDay(table: Table, symbols: seq<string>, start: int, end: int, n: nat, d: nat, dayStart: int,
                       symbol: string, asOf: int)
    requires forall i, j :: 0 <= i < j < |symbols| ==> symbols[i] != symbols[j]
    requires SortedByDate(table(symbol)) && symbol in symbols
    requires d < n && end == start + n * DAY && dayStart == ReplayDay(start, d)
    ensures DayFeature(Snapshot(table, symbols, start, end), symbol, dayStart, dayStart + DAY, asOf)
         == if d % 365 == 364 then None else FeatureOn(table(symbol), dayStart, asOf)
  {
    ProviderIsFeature(table, symbols, start, end, symbol, dayStart, asOf);
    LoadedFeature(table(symbol), start, end, n, d, dayStart, asOf);
  }
}
