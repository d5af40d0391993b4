/**
 * Target-weight lookups: the Go kernel scans the raw rows forwards on every bar, the Python
 * sidecar sorts once and then bisects. Instants are nanoseconds; a date is its UTC midnight.
 */
module Signals {
  import opened Collections

  const DAY: int := 86_400_000_000_000

  function DayOf(instant: int): int { instant / DAY }

  /** How the `as_of` text of a row reads. Go accepts dates only, Python dates and timestamps. */
  datatype AsOf = Date(day: int) | Timestamp(instant: int) | Unreadable

  datatype Row = Row(symbol: string, weight: real, asOf: AsOf)

  /** A normalised signal, effective from instant `at`. */
  datatype Signal = Signal(symbol: string, weight: real, at: int)

  predicate Matches(s: Signal, symbol: string, cutoff: int) {
    s.symbol == symbol && s.at <= cutoff
  }

  // ---- reference meaning ----

  /** Among signals in arrival order: the latest visible one, a later arrival winning a tie. */
  function Latest(signals: seq<Signal>, symbol: string, cutoff: int): Option<Signal> {
    if signals == [] then None else
      var best := Latest(signals[..|signals| - 1], symbol, cutoff);
      var s := signals[|signals| - 1];
      if Matches(s, symbol, cutoff) && (best.None? || s.at >= best.value.at) then Some(s) else best
  }

  ghost predicate IsLatest(signals: seq<Signal>, symbol: string, cutoff: int, i: int) {
    && 0 <= i < |signals|
    && Matches(signals[i], symbol, cutoff)
    && forall j :: 0 <= j < |signals| && Matches(signals[j], symbol, cutoff) ==>
         signals[j].at < signals[i].at || (signals[j].at == signals[i].at && j <= i)
  }

  /** `Latest` finds the newest visible signal, the last arrival among ties, and misses none. */
  lemma {:induction false} LatestFinds(signals: seq<Signal>, symbol: string, cutoff: int) returns (k: int)
    ensures match Latest(signals, symbol, cutoff)
      case Some(s) => IsLatest(signals, symbol, cutoff, k) && signals[k] == s
      case None => forall i :: 0 <= i < |signals| ==> !Matches(signals[i], symbol, cutoff)
    decreases |signals|
  {
    k := 0;
    if signals != [] {
      var n := |signals| - 1;
      k := LatestFinds(signals[..n], symbol, cutoff);
      var best := Latest(signals[..n], symbol, cutoff);
      if Matches(signals[n], symbol, cutoff) && (best.None? || signals[n].at >= best.value.at) {
        k := n;
      }
    }
  }

  /** What `Latest` means without its scan: it is the one signal that `IsLatest`. */
  lemma LatestMeaning(signals: seq<Signal>, symbol: string, cutoff: int, i: int)
    requires IsLatest(signals, symbol, cutoff, i)
    ensures Latest(signals, symbol, cutoff) == Some(signals[i])
  {
    var k := LatestFinds(signals, symbol, cutoff);
  }

  // ---- the Go lookup ----

  /** The rows Go can parse, as signals; the others it skips. */
  function DatedOnly(rows: seq<Row>): seq<Signal> {
    if rows == [] then [] else
      var r := rows[|rows| - 1];
      DatedOnly(rows[..|rows| - 1]) +
      (if r.asOf.Date? then [Signal(r.symbol, r.weight, r.asOf.day * DAY)] else [])
  }

  /** Before or at a midnight is before or at a day. */
  lemma MidnightOrder(a: int, b: int)
    ensures a * DAY <= b * DAY <==> a <= b
  {
  }

  /** One more row is one more step of the scan. */
  lemma DatedStep(rows: seq<Row>, i: nat, symbol: string, day: int)
    requires i < |rows|
    ensures
      var before := Latest(DatedOnly(rows[..i]), symbol, day * DAY);
      var r := rows[i];
      Latest(DatedOnly(rows[..i + 1]), symbol, day * DAY) ==
      if r.asOf.Date? && r.symbol == symbol && r.asOf.day <= day
         && (before.None? || r.asOf.day * DAY >= before.value.at)
      then Some(Signal(symbol, r.weight, r.asOf.day * DAY)) else before
  {
    var before, after := DatedOnly(rows[..i]), DatedOnly(rows[..i + 1]);
    assert rows[..i + 1][..i] == rows[..i];
    if rows[i].asOf.Date? {
      var last := Signal(rows[i].symbol, rows[i].weight, rows[i].asOf.day * DAY);
      assert after == before + [last];
      assert after[..|after| - 1] == before;
      MidnightOrder(rows[i].asOf.day, day);
    } else {
      assert after == before;
    }
  }

  /** `targetWeight`: one forward scan keeping the best date so far. */
  method GoTargetWeight(rows: seq<Row>, symbol: string, day: int) returns (weight: real, found: bool)
    ensures found == Latest(DatedOnly(rows), symbol, day * DAY).Some?
    ensures found ==> weight == Latest(DatedOnly(rows), symbol, day * DAY).value.weight
    ensures !found ==> weight == 0.0
  {
    var best := 0;
    weight, found := 0.0, false;
    for i := 0 to |rows|
      invariant var l := Latest(DatedOnly(rows[..i]), symbol, day * DAY);
        && found == l.Some?
        && (found ==> l.value.at == best * DAY && weight == l.value.weight)
        && (!found ==> weight == 0.0)
    {
      DatedStep(rows, i, symbol, day);
      var row := rows[i];
      if row.symbol != symbol || !row.asOf.Date? || row.asOf.day > day {
        continue;
      }
      MidnightOrder(best, row.asOf.day);
      if !found || !(row.asOf.day < best) {
        best, weight, found := row.asOf.day, row.weight, true;
      }
    }
    assert rows[..|rows|] == rows;
  }

  // ---- the Python stream ----

  /** Building a TargetWeight raises on an empty symbol, a weight outside [0, 1] or bad text. */
  function Normalise(row: Row): Option<Signal> {
    if row.symbol == [] || row.weight < 0.0 || row.weight > 1.0 then None
    else match row.asOf
      case Date(day) => Some(Signal(row.symbol, row.weight, day * DAY))
      case Timestamp(instant) => Some(Signal(row.symbol, row.weight, instant))
      case Unreadable => None
  }

  /** `from_rows`, before sorting: one bad row raises for the whole list. */
  function NormaliseAll(rows: seq<Row>): Option<seq<Signal>> {
    if rows == [] then Some([]) else
      var init := NormaliseAll(rows[..|rows| - 1]);
      var last := Normalise(rows[|rows| - 1]);
      if init.None? || last.None? then None else Some(init.value + [last.value])
  }

  /** A row is accepted exactly with a symbol, a weight in [0, 1] and a readable date or timestamp, and a list when all its rows are. */
  lemma {:induction false} AcceptedIff(rows: seq<Row>)
    ensures NormaliseAll(rows).Some? <==>
      forall i :: 0 <= i < |rows| ==> rows[i].symbol != "" && 0.0 <= rows[i].weight <= 1.0 && rows[i].asOf != Unreadable
    decreases |rows|
  {
    if rows != [] { AcceptedIff(rows[..|rows| - 1]); }
  }

  /** A signal carries its row's symbol and weight, from midnight of its date or from its timestamp. */
  lemma SignalMeans(row: Row)
    requires Normalise(row).Some?
    ensures var s := Normalise(row).value;
      && s.symbol == row.symbol && s.weight == row.weight
      && (row.asOf.Date? ==> s.at == row.asOf.day * 86_400_000_000_000)
      && (row.asOf.Timestamp? ==> s.at == row.asOf.instant)
  {
  }

  /** Code-point order on strings, shorter prefixes first. */
  predicate StringLe(a: string, b: string) {
    a == [] || (b != [] && (a[0] < b[0] || (a[0] == b[0] && StringLe(a[1..], b[1..]))))
  }

  lemma {:induction false} StringLeOrder(a: string, b: string, c: string)
    ensures StringLe(a, b) || StringLe(b, a)
    ensures StringLe(a, b) && StringLe(b, a) ==> a == b
    ensures StringLe(a, b) && StringLe(b, c) ==> StringLe(a, c)
    decreases |a| + |b| + |c|
  {
    if a != [] && b != [] {
      StringLeOrder(a[1..], b[1..], if c == [] then [] else c[1..]);
      assert a == [a[0]] + a[1..] && b == [b[0]] + b[1..];
    }
  }

  /** The order is decided by the first difference; without one the shorter string comes first. */
  lemma {:induction false} StringLeMeans(a: string, b: string, k: nat)
    requires k <= |a| && k <= |b| && a[..k] == b[..k]
    ensures k < |a| && k < |b| && a[k] != b[k] ==> (StringLe(a, b) <==> a[k] < b[k])
    ensures k == |a| ==> StringLe(a, b)
    ensures k == |b| < |a| ==> !StringLe(a, b)
    decreases k
  {
    if k > 0 {
      assert a[..k][0] == a[0] && b[..k][0] == b[0];
      assert a[1..][..k - 1] == a[..k][1..] && b[1..][..k - 1] == b[..k][1..];
      StringLeMeans(a[1..], b[1..], k - 1);
    }
  }

  lemma StringLeIsTotal()
    ensures TotalOrder(StringLe)
  {
    forall a, b ensures StringLe(a, b) || StringLe(b, a) { StringLeOrder(a, b, []); }
    forall a, b | StringLe(a, b) && StringLe(b, a) ensures a == b { StringLeOrder(a, b, []); }
    forall a, b, c | StringLe(a, b) && StringLe(b, c) ensures StringLe(a, c) { StringLeOrder(a, b, c); }
  }

  /** The sort key (as_of, symbol). */
  predicate KeyLe(a: Signal, b: Signal) {
    a.at < b.at || (a.at == b.at && StringLe(a.symbol, b.symbol))
  }

  predicate Sorted(s: seq<Signal>) {
    forall i, j :: 0 <= i < j < |s| ==> KeyLe(s[i], s[j])
  }

  /** Insert behind every signal whose key is not greater, so equal keys keep their order. */
  function Insert(s: seq<Signal>, x: Signal): seq<Signal> {
    if s == [] || KeyLe(s[|s| - 1], x) then s + [x]
    else Insert(s[..|s| - 1], x) + [s[|s| - 1]]
  }

  /** Python's stable `sorted` on the key (as_of, symbol). */
  function StableSort(s: seq<Signal>): seq<Signal> {
    if s == [] then [] else Insert(StableSort(s[..|s| - 1]), s[|s| - 1])
  }

  function SameKey(k: Signal): Signal -> bool { (x: Signal) => x.at == k.at && x.symbol == k.symbol }

  lemma {:induction false} InsertPermutes(s: seq<Signal>, x: Signal)
    ensures multiset(Insert(s, x)) == multiset(s) + multiset{x}
    decreases |s|
  {
    if !(s == [] || KeyLe(s[|s| - 1], x)) {
      var init, last := s[..|s| - 1], s[|s| - 1];
      assert s == init + [last];
      InsertPermutes(init, x);
    }
  }

  lemma {:induction false} InsertStaysBelow(s: seq<Signal>, x: Signal, top: Signal)
    requires KeyLe(x, top) && forall i :: 0 <= i < |s| ==> KeyLe(s[i], top)
    ensures forall i :: 0 <= i < |Insert(s, x)| ==> KeyLe(Insert(s, x)[i], top)
    decreases |s|
  {
    if !(s == [] || KeyLe(s[|s| - 1], x)) { InsertStaysBelow(s[..|s| - 1], x, top); }
  }

  lemma {:induction false} InsertSorts(s: seq<Signal>, x: Signal)
    requires Sorted(s)
    ensures Sorted(Insert(s, x))
    decreases |s|
  {
    if !(s == [] || KeyLe(s[|s| - 1], x)) {
      var init, last := s[..|s| - 1], s[|s| - 1];
      InsertSorts(init, x);
      StringLeOrder(x.symbol, last.symbol, []);
      InsertStaysBelow(init, x, last);
    } else if s != [] {
      forall i | 0 <= i < |s| ensures KeyLe(s[i], x) {
        StringLeOrder(s[i].symbol, s[|s| - 1].symbol, x.symbol);
      }
    }
  }

  lemma {:induction false} InsertKeepsOrder(s: seq<Signal>, x: Signal, k: Signal)
    ensures Filter(SameKey(k), Insert(s, x)) == Filter(SameKey(k), s + [x])
    decreases |s|
  {
    if !(s == [] || KeyLe(s[|s| - 1], x)) {
      var init, last := s[..|s| - 1], s[|s| - 1];
      assert s == init + [last];
      InsertKeepsOrder(init, x, k);
      StringLeOrder(x.symbol, last.symbol, []);
      var ins := Insert(s, x);
      assert ins[..|ins| - 1] == Insert(init, x) && ins[|ins| - 1] == last;
      FilterSwap(SameKey(k), init, x, last);
      FilterConcat(SameKey(k), init + [x], [last]);
      FilterConcat(SameKey(k), Insert(init, x), [last]);
    }
  }

  /** Sorted, a permutation, and signals with equal keys keep their arrival order. */
  lemma {:induction false} StableSortIsStable(s: seq<Signal>)
    ensures Sorted(StableSort(s))
    ensures multiset(StableSort(s)) == multiset(s)
    ensures forall k :: Filter(SameKey(k), StableSort(s)) == Filter(SameKey(k), s)
    decreases |s|
  {
    if s != [] {
      var init, last := s[..|s| - 1], s[|s| - 1];
      assert s == init + [last];
      StableSortIsStable(init);
      InsertSorts(StableSort(init), last);
      InsertPermutes(StableSort(init), last);
      forall k ensures Filter(SameKey(k), StableSort(s)) == Filter(SameKey(k), s) {
        InsertKeepsOrder(StableSort(init), last, k);
        FilterConcat(SameKey(k), StableSort(init), [last]);
        FilterConcat(SameKey(k), init, [last]);
      }
    }
  }

  /** The backward scan over a sorted list: the last visible match in list order. */
  function LastMatch(s: seq<Signal>, symbol: string, cutoff: int): Option<Signal> {
    if s == [] then None
    else if Matches(s[|s| - 1], symbol, cutoff) then Some(s[|s| - 1])
    else LastMatch(s[..|s| - 1], symbol, cutoff)
  }

  lemma {:induction false} LastMatchIn(s: seq<Signal>, symbol: string, cutoff: int)
    ensures LastMatch(s, symbol, cutoff).Some? ==>
      LastMatch(s, symbol, cutoff).value in s && Matches(LastMatch(s, symbol, cutoff).value, symbol, cutoff)
    decreases |s|
  {
    if s != [] { LastMatchIn(s[..|s| - 1], symbol, cutoff); }
  }

  /** Inserting a new arrival updates the backward scan exactly as the forward scan would. */
  lemma {:induction false} LastMatchInsert(s: seq<Signal>, x: Signal, symbol: string, cutoff: int)
    requires Sorted(s)
    ensures var best := LastMatch(s, symbol, cutoff);
      LastMatch(Insert(s, x), symbol, cutoff) ==
      if Matches(x, symbol, cutoff) && (best.None? || x.at >= best.value.at) then Some(x) else best
    decreases |s|
  {
    LastMatchIn(s, symbol, cutoff);
    if s == [] || KeyLe(s[|s| - 1], x) {
      assert (s + [x])[..|s|] == s;
      if s != [] {
        assert forall y :: y in s ==> y == s[|s| - 1] || KeyLe(y, s[|s| - 1]);
      }
    } else {
      var init, last := s[..|s| - 1], s[|s| - 1];
      LastMatchInsert(init, x, symbol, cutoff);
      var ins := Insert(s, x);
      assert ins[..|ins| - 1] == Insert(init, x) && ins[|ins| - 1] == last;
      StringLeOrder(x.symbol, last.symbol, []);
    }
  }

  /** Sorting once and scanning backwards finds what the forward scan over arrivals finds. */
  lemma {:induction false} SortedLookupIsLatest(s: seq<Signal>, symbol: string, cutoff: int)
    ensures LastMatch(StableSort(s), symbol, cutoff) == Latest(s, symbol, cutoff)
    decreases |s|
  {
    if s != [] {
      var init := s[..|s| - 1];
      SortedLookupIsLatest(init, symbol, cutoff);
      StableSortIsStable(init);
      LastMatchInsert(StableSort(init), s[|s| - 1], symbol, cutoff);
    }
  }

  /** `_prefix_end`: bisect_right on the sorted instants. */
  method PrefixEnd(s: seq<Signal>, cutoff: int) returns (end: nat)
    requires Sorted(s)
    ensures end <= |s|
    ensures forall i :: 0 <= i < |s| ==> (s[i].at <= cutoff <==> i < end)
  {
    var lo, hi := 0, |s|;
    while lo < hi
      invariant 0 <= lo <= hi <= |s|
      invariant forall i :: 0 <= i < lo ==> s[i].at <= cutoff
      invariant forall i :: hi <= i < |s| ==> s[i].at > cutoff
    {
      var mid := (lo + hi) / 2;
      if cutoff < s[mid].at {
        hi := mid;
      } else {
        lo := mid + 1;
      }
    }
    end := lo;
  }

  lemma {:induction false} LastMatchPrefix(s: seq<Signal>, end: nat, symbol: string, cutoff: int)
    requires end <= |s| && forall i :: end <= i < |s| ==> s[i].at > cutoff
    ensures LastMatch(s[..end], symbol, cutoff) == LastMatch(s, symbol, cutoff)
    decreases |s|
  {
    if end < |s| {
      LastMatchPrefix(s[..|s| - 1], end, symbol, cutoff);
      assert s[..|s| - 1][..end] == s[..end];
    } else {
      assert s[..end] == s;
    }
  }

  /** `target_weight`: bisect, then scan the visible prefix backwards. */
  method StreamTargetWeight(stream: seq<Signal>, symbol: string, cutoff: int) returns (weight: Option<real>)
    requires Sorted(stream)
    ensures var l := LastMatch(stream, symbol, cutoff);
      weight == if l.Some? then Some(l.value.weight) else None
  {
    var end := PrefixEnd(stream, cutoff);
    LastMatchPrefix(stream, end, symbol, cutoff);
    var i := end;
    while i > 0
      invariant 0 <= i <= end
      invariant LastMatch(stream[..i], symbol, cutoff) == LastMatch(stream, symbol, cutoff)
    {
      assert stream[..i][..i - 1] == stream[..i - 1];
      if stream[i - 1].symbol == symbol {
        return Some(stream[i - 1].weight);
      }
      i := i - 1;
    }
    weight := None;
  }

  /** `as_of`: fill a dictionary from the visible prefix, later entries overwriting. */
  method StreamAsOf(stream: seq<Signal>, cutoff: int) returns (latest: map<string, Signal>)
    requires Sorted(stream)
    ensures forall symbol ::
      LastMatch(stream, symbol, cutoff) == if symbol in latest then Some(latest[symbol]) else None
  {
    var end := PrefixEnd(stream, cutoff);
    latest := map[];
    for i := 0 to end
      invariant forall symbol ::
        LastMatch(stream[..i], symbol, cutoff) == if symbol in latest then Some(latest[symbol]) else None
    {
      assert stream[..i + 1][..i] == stream[..i];
      latest := latest[stream[i].symbol := stream[i]];
    }
    forall symbol ensures LastMatch(stream, symbol, cutoff) == LastMatch(stream[..end], symbol, cutoff) {
      LastMatchPrefix(stream, end, symbol, cutoff);
    }
  }

  // ---- agreement ----

  lemma MidnightVisibility(day: int, moment: int)
    ensures day * DAY <= moment <==> day <= DayOf(moment)
  {
  }

  /** With midnight-stamped signals an intraday moment sees exactly what its midnight sees. */
  lemma {:induction false} LatestAtMidnight(rows: seq<Row>, symbol: string, moment: int)
    ensures Latest(DatedOnly(rows), symbol, moment) == Latest(DatedOnly(rows), symbol, DayOf(moment) * DAY)
    decreases |rows|
  {
    if rows != [] {
      var init, r := rows[..|rows| - 1], rows[|rows| - 1];
      LatestAtMidnight(init, symbol, moment);
      if r.asOf.Date? {
        var all := DatedOnly(rows);
        var last := Signal(r.symbol, r.weight, r.asOf.day * DAY);
        assert all == DatedOnly(init) + [last];
        assert all[..|all| - 1] == DatedOnly(init) && all[|all| - 1] == last;
        MidnightVisibility(r.asOf.day, moment);
        assert Matches(last, symbol, moment) == Matches(last, symbol, DayOf(moment) * DAY);
      } else {
        assert DatedOnly(rows) == DatedOnly(init);
      }
    }
  }

  /** The weight of the last arrival for a symbol and instant. */
  function LastWeight(s: seq<Signal>, symbol: string, at: int): Option<real> {
    if s == [] then None
    else if s[|s| - 1].symbol == symbol && s[|s| - 1].at == at then Some(s[|s| - 1].weight)
    else LastWeight(s[..|s| - 1], symbol, at)
  }

  lemma {:induction false} LatestIsLastWeight(s: seq<Signal>, symbol: string, cutoff: int)
    ensures var l := Latest(s, symbol, cutoff);
      l.Some? ==> l.value.symbol == symbol && l.value.at <= cutoff && LastWeight(s, symbol, l.value.at) == Some(l.value.weight)
    decreases |s|
  {
    if s != [] { LatestIsLastWeight(s[..|s| - 1], symbol, cutoff); }
  }

  lemma {:induction false} LastWeightIsLatest(s: seq<Signal>, symbol: string, at: int)
    requires LastWeight(s, symbol, at).Some?
    ensures Latest(s, symbol, at) == Some(Signal(symbol, LastWeight(s, symbol, at).value, at))
    decreases |s|
  {
    var n := |s| - 1;
    LatestIsLastWeight(s[..n], symbol, at);
    if !(s[n].symbol == symbol && s[n].at == at) { LastWeightIsLatest(s[..n], symbol, at); }
  }

  /** Nothing arrives for the symbol between two instants, so both see the same. */
  lemma {:induction false} LatestBetween(s: seq<Signal>, symbol: string, from: int, to: int)
    requires from <= to && forall i :: 0 <= i < |s| && Matches(s[i], symbol, to) ==> s[i].at <= from
    ensures Latest(s, symbol, to) == Latest(s, symbol, from)
    decreases |s|
  {
    if s != [] { LatestBetween(s[..|s| - 1], symbol, from, to); }
  }

  lemma {:induction false} NormalisedAt(rows: seq<Row>)
    requires NormaliseAll(rows).Some?
    ensures var all := NormaliseAll(rows).value;
      |all| == |rows| && forall i :: 0 <= i < |rows| ==> Normalise(rows[i]) == Some(all[i])
    decreases |rows|
  {
    if rows != [] { NormalisedAt(rows[..|rows| - 1]); }
  }

  /** Go's signals are among the sidecar's. */
  lemma {:induction false} DatedAreNormalised(rows: seq<Row>, x: Signal)
    requires NormaliseAll(rows).Some? && x in DatedOnly(rows)
    ensures x in NormaliseAll(rows).value
    decreases |rows|
  {
    var init, r := rows[..|rows| - 1], rows[|rows| - 1];
    if x in DatedOnly(init) { DatedAreNormalised(init, x); }
  }

  /** A timestamped row for this symbol and instant. */
  predicate Stamped(rows: seq<Row>, symbol: string, at: int) {
    exists i :: 0 <= i < |rows| && rows[i].symbol == symbol && rows[i].asOf == Timestamp(at)
  }

  lemma {:induction false} UnstampedWeights(rows: seq<Row>, symbol: string, at: int)
    requires NormaliseAll(rows).Some? && !Stamped(rows, symbol, at)
    ensures LastWeight(NormaliseAll(rows).value, symbol, at) == LastWeight(DatedOnly(rows), symbol, at)
    decreases |rows|
  {
    if rows != [] {
      var init, r := rows[..|rows| - 1], rows[|rows| - 1];
      var all, dated := NormaliseAll(rows).value, DatedOnly(rows);
      assert all == NormaliseAll(init).value + [Normalise(r).value];
      assert all[..|all| - 1] == NormaliseAll(init).value;
      assert forall i :: 0 <= i < |init| ==> init[i] == rows[i];
      UnstampedWeights(init, symbol, at);
      if r.asOf.Date? {
        assert dated[..|dated| - 1] == DatedOnly(init);
      } else {
        assert dated == DatedOnly(init);
        assert rows[|rows| - 1].asOf.Timestamp?;
      }
    }
  }

  /** The sidecar's lookup at a moment, over all rows. */
  function SidecarLookup(rows: seq<Row>, symbol: string, moment: int): Option<Signal>
    requires NormaliseAll(rows).Some?
  {
    LastMatch(StableSort(NormaliseAll(rows).value), symbol, moment)
  }

  /** Go's lookup on the day of a moment. */
  function GoLookup(rows: seq<Row>, symbol: string, moment: int): Option<Signal> {
    Latest(DatedOnly(rows), symbol, DayOf(moment) * DAY)
  }

  /** Both lookups at a moment, before sorting and rounding to days. */
  lemma LookupsAreLatest(rows: seq<Row>, symbol: string, moment: int)
    requires NormaliseAll(rows).Some?
    ensures SidecarLookup(rows, symbol, moment) == Latest(NormaliseAll(rows).value, symbol, moment)
    ensures GoLookup(rows, symbol, moment) == Latest(DatedOnly(rows), symbol, moment)
  {
    SortedLookupIsLatest(NormaliseAll(rows).value, symbol, moment);
    LatestAtMidnight(rows, symbol, moment);
  }

  /** What the sidecar sees at a moment decides since when Go's answer stands. */
  lemma GoStandsSince(rows: seq<Row>, symbol: string, moment: int)
    requires NormaliseAll(rows).Some?
    ensures match SidecarLookup(rows, symbol, moment)
      case None => GoLookup(rows, symbol, moment) == None
      case Some(x) => x.at <= moment && SidecarLookup(rows, symbol, x.at) == Some(x)
                      && GoLookup(rows, symbol, moment) == GoLookup(rows, symbol, x.at)
  {
    var all, dated := NormaliseAll(rows).value, DatedOnly(rows);
    LookupsAreLatest(rows, symbol, moment);
    var k := LatestFinds(all, symbol, moment);
    forall i | 0 <= i < |dated| ensures dated[i] in all { DatedAreNormalised(rows, dated[i]); }
    match Latest(all, symbol, moment)
    case None =>
      var d := LatestFinds(dated, symbol, moment);
    case Some(x) =>
      LookupsAreLatest(rows, symbol, x.at);
      LatestIsLastWeight(all, symbol, moment);
      LastWeightIsLatest(all, symbol, x.at);
      LatestBetween(dated, symbol, x.at, moment);
  }

  lemma UnstampedAgrees(rows: seq<Row>, symbol: string, moment: int)
    requires NormaliseAll(rows).Some?
    requires var l := SidecarLookup(rows, symbol, moment); l.Some? ==>
      LastWeight(DatedOnly(rows), symbol, l.value.at) == LastWeight(NormaliseAll(rows).value, symbol, l.value.at)
    ensures SidecarLookup(rows, symbol, moment) == GoLookup(rows, symbol, moment)
  {
    GoStandsSince(rows, symbol, moment);
    var l := SidecarLookup(rows, symbol, moment);
    if l.Some? {
      LookupsAreLatest(rows, symbol, moment);
      LookupsAreLatest(rows, symbol, l.value.at);
      LatestIsLastWeight(NormaliseAll(rows).value, symbol, moment);
      LastWeightIsLatest(DatedOnly(rows), symbol, l.value.at);
    }
  }

  lemma {:induction false} HasLastWeight(s: seq<Signal>, i: nat)
    requires i < |s|
    ensures LastWeight(s, s[i].symbol, s[i].at).Some?
    decreases |s|
  {
    if i < |s| - 1 { HasLastWeight(s[..|s| - 1], i); }
  }

  /** At its own instant a timestamped row is seen by the sidecar. */
  lemma StampedIsSeen(rows: seq<Row>, i: nat)
    requires NormaliseAll(rows).Some? && i < |rows| && rows[i].asOf.Timestamp?
    ensures var w := LastWeight(NormaliseAll(rows).value, rows[i].symbol, rows[i].asOf.instant);
      w.Some? && SidecarLookup(rows, rows[i].symbol, rows[i].asOf.instant)
                 == Some(Signal(rows[i].symbol, w.value, rows[i].asOf.instant))
  {
    var all := NormaliseAll(rows).value;
    NormalisedAt(rows);
    assert Normalise(rows[i]) == Some(all[i]);
    HasLastWeight(all, i);
    LookupsAreLatest(rows, rows[i].symbol, rows[i].asOf.instant);
    LastWeightIsLatest(all, rows[i].symbol, rows[i].asOf.instant);
  }

  /** What both lookups return: the weight alone. */
  function WeightOf(l: Option<Signal>): Option<real> { if l.None? then None else Some(l.value.weight) }

  /** The last row of a key carries the weight of the newest dated row of the symbol up to that instant. */
  predicate Repeats(rows: seq<Row>, symbol: string, at: int)
    requires NormaliseAll(rows).Some?
  {
    LastWeight(NormaliseAll(rows).value, symbol, at) == WeightOf(Latest(DatedOnly(rows), symbol, at))
  }

  /** No timestamped row changes the weight that the dated rows give. */
  predicate Standing(rows: seq<Row>)
    requires NormaliseAll(rows).Some?
  {
    forall i :: 0 <= i < |rows| && rows[i].asOf.Timestamp? ==> Repeats(rows, rows[i].symbol, rows[i].asOf.instant)
  }

  /** At its own instant a timestamped row makes the lookups differ exactly when it does not repeat the dated weight. */
  lemma {:induction false} StampedRowShowsIff(rows: seq<Row>, i: nat)
    requires NormaliseAll(rows).Some? && i < |rows| && rows[i].asOf.Timestamp?
    ensures var symbol, at := rows[i].symbol, rows[i].asOf.instant;
      WeightOf(SidecarLookup(rows, symbol, at)) == WeightOf(GoLookup(rows, symbol, at)) <==> Repeats(rows, symbol, at)
  {
    StampedIsSeen(rows, i);
    LookupsAreLatest(rows, rows[i].symbol, rows[i].asOf.instant);
  }

  lemma {:induction false} WeightsAgree(rows: seq<Row>, symbol: string, moment: int)
    requires NormaliseAll(rows).Some? && Standing(rows)
    ensures WeightOf(SidecarLookup(rows, symbol, moment)) == WeightOf(GoLookup(rows, symbol, moment))
  {
    GoStandsSince(rows, symbol, moment);
    var l := SidecarLookup(rows, symbol, moment);
    if l.Some? {
      if Stamped(rows, symbol, l.value.at) {
        var i :| 0 <= i < |rows| && rows[i].symbol == symbol && rows[i].asOf == Timestamp(l.value.at);
        StampedRowShowsIff(rows, i);
      } else {
        UnstampedWeights(rows, symbol, l.value.at);
        UnstampedAgrees(rows, symbol, moment);
      }
    }
  }

  /**
   * Three lookups, one answer: for any rows the sidecar accepts, with any duplicates and ties, the sorted
   * backward scan and the Go forward scan return the same weight for every symbol and moment, if and only
   * if every timestamped row repeats the weight of the dated rows.
   */
  lemma {:induction false} LookupsAgreeIff(rows: seq<Row>)
    requires NormaliseAll(rows).Some?
    ensures (forall symbol, moment :: WeightOf(SidecarLookup(rows, symbol, moment)) == WeightOf(GoLookup(rows, symbol, moment)))
      <==> Standing(rows)
  {
    if Standing(rows) {
      forall symbol, moment
        ensures WeightOf(SidecarLookup(rows, symbol, moment)) == WeightOf(GoLookup(rows, symbol, moment))
      {
        WeightsAgree(rows, symbol, moment);
      }
    } else {
      var i :| 0 <= i < |rows| && rows[i].asOf.Timestamp? && !Repeats(rows, rows[i].symbol, rows[i].asOf.instant);
      StampedRowShowsIff(rows, i);
    }
  }

  lemma OneStampedRow(rows: seq<Row>)
    requires |rows| == 1 && rows[0].asOf.Timestamp?
    ensures DatedOnly(rows) == []
  {
    assert rows[..0] == [];
  }

  /** One timestamped row on its own: the sidecar returns its weight, Go returns none. */
  lemma {:induction false} TimestampsAreInvisibleToGo(rows: seq<Row>)
    requires NormaliseAll(rows).Some? && |rows| == 1 && rows[0].asOf.Timestamp?
    ensures WeightOf(SidecarLookup(rows, rows[0].symbol, rows[0].asOf.instant)) == Some(rows[0].weight)
    ensures WeightOf(GoLookup(rows, rows[0].symbol, rows[0].asOf.instant)) == None
  {
    NormalisedAt(rows);
    StampedIsSeen(rows, 0);
    OneStampedRow(rows);
  }

  // ---- no look-ahead ----

  function SeenBy(m: int): Signal -> bool { (s: Signal) => s.at <= m }

  /** Signals that take effect after `m` do not matter to a lookup at or before it. */
  lemma {:induction false} LatestIgnoresLater(s: seq<Signal>, symbol: string, cutoff: int, m: int)
    requires cutoff <= m
    ensures Latest(Filter(SeenBy(m), s), symbol, cutoff) == Latest(s, symbol, cutoff)
    decreases |s|
  {
    if s != [] {
      var init, x := s[..|s| - 1], s[|s| - 1];
      LatestIgnoresLater(init, symbol, cutoff, m);
      var kept := Filter(SeenBy(m), init);
      if x.at <= m {
        assert Filter(SeenBy(m), s) == kept + [x] && (kept + [x])[..|kept|] == kept;
      } else {
        assert Filter(SeenBy(m), s) == kept;
      }
    }
  }

  /** Two streams answer every lookup up to `m` alike. */
  ghost predicate SameUpTo(a: seq<Signal>, b: seq<Signal>, m: int) {
    forall symbol, cutoff :: cutoff <= m ==> LastMatch(a, symbol, cutoff) == LastMatch(b, symbol, cutoff)
  }

  lemma StreamsAgreeUpTo(a: seq<Signal>, b: seq<Signal>, m: int)
    requires Filter(SeenBy(m), a) == Filter(SeenBy(m), b)
    ensures SameUpTo(StableSort(a), StableSort(b), m)
  {
    forall symbol, cutoff | cutoff <= m
      ensures LastMatch(StableSort(a), symbol, cutoff) == LastMatch(StableSort(b), symbol, cutoff)
    {
      SortedLookupIsLatest(a, symbol, cutoff);
      SortedLookupIsLatest(b, symbol, cutoff);
      LatestIgnoresLater(a, symbol, cutoff, m);
      LatestIgnoresLater(b, symbol, cutoff, m);
    }
  }
}
