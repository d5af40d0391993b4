/** No look-ahead in the Go replay: what happens through day d depends on data dated up to d only. */
module GoCausality {
  import opened Collections
  import opened Signals
  import opened Market
  import opened GoReplay

  function BarUpTo(d: int): Bar -> bool { (b: Bar) => DayOf(b.moment) <= d }

  function KnownBy(d: int): Row -> bool { (r: Row) => r.asOf.Date? && r.asOf.day <= d }

  /** Same symbols, same bars dated up to d, same signals dated up to d; the rest is arbitrary. */
  ghost predicate AgreeUpTo(rowsA: seq<Row>, barsA: map<string, seq<Bar>>,
                            rowsB: seq<Row>, barsB: map<string, seq<Bar>>, d: int) {
    && barsA.Keys == barsB.Keys
    && Filter(KnownBy(d), rowsA) == Filter(KnownBy(d), rowsB)
    && forall s :: s in barsA ==> Filter(BarUpTo(d), barsA[s]) == Filter(BarUpTo(d), barsB[s])
  }

  lemma {:induction false} BarOnFiltered(series: seq<Bar>, day: int, d: int)
    requires day <= d
    ensures BarOn(series, day) == BarOn(Filter(BarUpTo(d), series), day)
    decreases |series|
  {
    if series != [] {
      BarOnFiltered(series[1..], day, d);
      assert series == [series[0]] + series[1..];
      FilterConcat(BarUpTo(d), [series[0]], series[1..]);
      FilterOne(BarUpTo(d), series[0]);
      var tail := Filter(BarUpTo(d), series[1..]);
      if BarUpTo(d)(series[0]) {
        assert Filter(BarUpTo(d), series) == [series[0]] + tail;
        assert ([series[0]] + tail)[1..] == tail;
      } else {
        assert Filter(BarUpTo(d), series) == tail;
      }
    }
  }

  lemma {:induction false} WeightFiltered(rows: seq<Row>, symbol: string, day: int, d: int)
    requires day <= d
    ensures WeightOn(rows, symbol, day) == WeightOn(Filter(KnownBy(d), rows), symbol, day)
    ensures Latest(DatedOnly(rows), symbol, day * DAY) == Latest(DatedOnly(Filter(KnownBy(d), rows)), symbol, day * DAY)
    decreases |rows|
  {
    if rows != [] {
      var n := |rows| - 1;
      var init := rows[..n];
      WeightFiltered(init, symbol, day, d);
      assert rows[..n + 1] == rows;
      DatedStep(rows, n, symbol, day);
      var kept := Filter(KnownBy(d), init);
      if KnownBy(d)(rows[n]) {
        var all := kept + [rows[n]];
        assert Filter(KnownBy(d), rows) == all && all[..|kept|] == kept && all[..|kept| + 1] == all;
        DatedStep(all, |kept|, symbol, day);
      } else {
        assert Filter(KnownBy(d), rows) == kept;
      }
    }
  }

  lemma SymbolAgrees(cfg: Config, t: Tracker, rowsA: seq<Row>, barsA: map<string, seq<Bar>>,
                     rowsB: seq<Row>, barsB: map<string, seq<Bar>>, d: int, symbol: string, day: int, st: State)
    requires AgreeUpTo(rowsA, barsA, rowsB, barsB, d) && day <= d && symbol in barsA
    requires Runnable(Input(cfg, rowsA, barsA, t)) && Runnable(Input(cfg, rowsB, barsB, t))
    ensures TradeSymbol(Input(cfg, rowsA, barsA, t), symbol, day, st)
         == TradeSymbol(Input(cfg, rowsB, barsB, t), symbol, day, st)
  {
    BarOnFiltered(barsA[symbol], day, d);
    BarOnFiltered(barsB[symbol], day, d);
    WeightFiltered(rowsA, symbol, day, d);
    WeightFiltered(rowsB, symbol, day, d);
    assert |barsA| == |barsA.Keys| == |barsB.Keys| == |barsB|;
    BarOnIn(barsA[symbol], day);
    var bar := BarOn(barsA[symbol], day);
    if bar.Some? {
      var b := OpenDay(BookOf(st, symbol), day);
      assert SignedOrder(Input(cfg, rowsA, barsA, t), symbol, day, bar.value, b)
          == SignedOrder(Input(cfg, rowsB, barsB, t), symbol, day, bar.value, b);
    }
  }

  lemma {:induction false} SymbolsAgree(cfg: Config, t: Tracker, rowsA: seq<Row>, barsA: map<string, seq<Bar>>,
                                        rowsB: seq<Row>, barsB: map<string, seq<Bar>>, d: int,
                                        symbols: seq<string>, day: int, st: State)
    requires AgreeUpTo(rowsA, barsA, rowsB, barsB, d) && day <= d && forall s :: s in symbols ==> s in barsA
    requires Runnable(Input(cfg, rowsA, barsA, t)) && Runnable(Input(cfg, rowsB, barsB, t))
    ensures RunSymbols(Input(cfg, rowsA, barsA, t), symbols, day, st)
         == RunSymbols(Input(cfg, rowsB, barsB, t), symbols, day, st)
    decreases |symbols|
  {
    if symbols != [] {
      SymbolAgrees(cfg, t, rowsA, barsA, rowsB, barsB, d, symbols[0], day, st);
      match TradeSymbol(Input(cfg, rowsA, barsA, t), symbols[0], day, st)
      case Ok(next) => SymbolsAgree(cfg, t, rowsA, barsA, rowsB, barsB, d, symbols[1..], day, next);
      case Err(_) =>
    }
  }

  lemma {:induction false} DaysAgree(cfg: Config, t: Tracker, rowsA: seq<Row>, barsA: map<string, seq<Bar>>,
                                     rowsB: seq<Row>, barsB: map<string, seq<Bar>>, d: int,
                                     symbols: seq<string>, days: seq<int>, st: State)
    requires AgreeUpTo(rowsA, barsA, rowsB, barsB, d) && forall s :: s in symbols ==> s in barsA
    requires forall x :: x in days ==> x <= d
    requires Runnable(Input(cfg, rowsA, barsA, t)) && Runnable(Input(cfg, rowsB, barsB, t))
    ensures RunDays(Input(cfg, rowsA, barsA, t), symbols, days, st)
         == RunDays(Input(cfg, rowsB, barsB, t), symbols, days, st)
    decreases |days|
  {
    if days != [] {
      var morning := OpenLog(st, days[0]);
      assert days[0] in days;
      SymbolsAgree(cfg, t, rowsA, barsA, rowsB, barsB, d, symbols, days[0], morning);
      assert forall x :: x in days[1..] ==> x in days;
      match RunSymbols(Input(cfg, rowsA, barsA, t), symbols, days[0], morning)
      case Ok(next) => DaysAgree(cfg, t, rowsA, barsA, rowsB, barsB, d, symbols, days[1..], next);
      case Err(_) =>
    }
  }

  // ---- the calendar, cut at d ----

  function DaysUpTo(s: set<int>, d: int): set<int> { set x | x in s && x <= d }

  function DaysAfter(s: set<int>, d: int): set<int> { set x | x in s && x > d }

  lemma AscendingEndsWith(s: set<int>, m: int)
    requires m in s && forall x :: x in s ==> x <= m
    ensures AscendingInts(s) == AscendingInts(s - {m}) + [m]
  {
    assert MaxOf(s) == m;
  }

  /** The sorted calendar is the sorted days up to d, then the sorted days after d. */
  lemma {:induction false} AscendingCut(s: set<int>, d: int)
    ensures AscendingInts(s) == AscendingInts(DaysUpTo(s, d)) + AscendingInts(DaysAfter(s, d))
    decreases |s|
  {
    if s != {} {
      var m := MaxOf(s);
      if m > d {
        AscendingCut(s - {m}, d);
        assert DaysUpTo(s, d) == DaysUpTo(s - {m}, d);
        assert DaysAfter(s, d) - {m} == DaysAfter(s - {m}, d);
        AscendingEndsWith(DaysAfter(s, d), m);
        Regroup(AscendingInts(DaysUpTo(s, d)), AscendingInts(DaysAfter(s - {m}, d)), [m]);
      } else {
        assert DaysUpTo(s, d) == s && DaysAfter(s, d) == {};
      }
    }
  }

  function CalendarUpTo(bars: map<string, seq<Bar>>, d: int): seq<int> {
    AscendingInts(DaysUpTo(CalendarSet(bars), d))
  }

  function CalendarAfter(bars: map<string, seq<Bar>>, d: int): seq<int> {
    AscendingInts(DaysAfter(CalendarSet(bars), d))
  }

  lemma CalendarsAgree(barsA: map<string, seq<Bar>>, barsB: map<string, seq<Bar>>, d: int)
    requires barsA.Keys == barsB.Keys
    requires forall s :: s in barsA ==> Filter(BarUpTo(d), barsA[s]) == Filter(BarUpTo(d), barsB[s])
    ensures DaysUpTo(CalendarSet(barsA), d) <= DaysUpTo(CalendarSet(barsB), d)
  {
    forall x | x in DaysUpTo(CalendarSet(barsA), d) ensures x in CalendarSet(barsB) {
      var s, i :| s in barsA && 0 <= i < |barsA[s]| && DayOf(barsA[s][i].moment) == x;
      var bar := barsA[s][i];
      FilterMembers(BarUpTo(d), barsA[s]);
      FilterMembers(BarUpTo(d), barsB[s]);
      assert bar in barsB[s];
      var j :| 0 <= j < |barsB[s]| && barsB[s][j] == bar;
    }
  }

  lemma CutCalendarsAgree(rowsA: seq<Row>, barsA: map<string, seq<Bar>>,
                          rowsB: seq<Row>, barsB: map<string, seq<Bar>>, d: int)
    requires AgreeUpTo(rowsA, barsA, rowsB, barsB, d)
    ensures CalendarUpTo(barsA, d) == CalendarUpTo(barsB, d)
    ensures SortedSymbols(barsA) == SortedSymbols(barsB)
    ensures forall s :: s in SortedSymbols(barsA) ==> s in barsA
    ensures forall x :: x in CalendarUpTo(barsA, d) ==> x <= d
  {
    CalendarsAgree(barsA, barsB, d);
    CalendarsAgree(barsB, barsA, d);
    assert DaysUpTo(CalendarSet(barsA), d) == DaysUpTo(CalendarSet(barsB), d);
  }

  /** Orders, fills and state after every calendar day up to and including d. */
  function ThroughDay(inp: Input, d: int): Result<State, Refusal>
    requires Runnable(inp)
  {
    RunDays(inp, SortedSymbols(inp.bars), CalendarUpTo(inp.bars, d), State(map[], []))
  }

  /** Causality over whole runs. */
  lemma ReplayIsCausal(cfg: Config, t: Tracker, rowsA: seq<Row>, barsA: map<string, seq<Bar>>,
                       rowsB: seq<Row>, barsB: map<string, seq<Bar>>, d: int)
    requires AgreeUpTo(rowsA, barsA, rowsB, barsB, d)
    requires Runnable(Input(cfg, rowsA, barsA, t)) && Runnable(Input(cfg, rowsB, barsB, t))
    ensures ThroughDay(Input(cfg, rowsA, barsA, t), d) == ThroughDay(Input(cfg, rowsB, barsB, t), d)
  {
    CutCalendarsAgree(rowsA, barsA, rowsB, barsB, d);
    DaysAgree(cfg, t, rowsA, barsA, rowsB, barsB, d, SortedSymbols(barsA), CalendarUpTo(barsA, d), State(map[], []));
  }

  lemma {:induction false} RunDaysConcat(inp: Input, symbols: seq<string>, a: seq<int>, b: seq<int>, st: State)
    requires Runnable(inp) && forall s :: s in symbols ==> s in inp.bars
    ensures RunDays(inp, symbols, a + b, st) ==
      match RunDays(inp, symbols, a, st)
      case Err(o) => Err(o)
      case Ok(mid) => RunDays(inp, symbols, b, mid)
    decreases |a|
  {
    if a == [] {
      assert a + b == b;
    } else {
      assert (a + b)[1..] == a[1..] + b;
      match RunSymbols(inp, symbols, a[0], OpenLog(st, a[0]))
      case Ok(next) => RunDaysConcat(inp, symbols, a[1..], b, next);
      case Err(_) =>
    }
  }

  lemma {:induction false} SymbolsOnlyAppend(inp: Input, symbols: seq<string>, day: int, st: State)
    requires Runnable(inp) && forall s :: s in symbols ==> s in inp.bars
    ensures match RunSymbols(inp, symbols, day, st) case Err(_) => true case Ok(next) => st.log <= next.log
    decreases |symbols|
  {
    if symbols != [] {
      match TradeSymbol(inp, symbols[0], day, st)
      case Ok(next) =>
        assert st.log <= next.log;
        SymbolsOnlyAppend(inp, symbols[1..], day, next);
      case Err(_) =>
    }
  }

  lemma {:induction false} DaysOnlyAppend(inp: Input, symbols: seq<string>, days: seq<int>, st: State)
    requires Runnable(inp) && forall s :: s in symbols ==> s in inp.bars
    ensures match RunDays(inp, symbols, days, st) case Err(_) => true case Ok(next) => st.log <= next.log
    decreases |days|
  {
    if days != [] {
      var morning := OpenLog(st, days[0]);
      SymbolsOnlyAppend(inp, symbols, days[0], morning);
      match RunSymbols(inp, symbols, days[0], morning)
      case Ok(next) => DaysOnlyAppend(inp, symbols, days[1..], next);
      case Err(_) =>
    }
  }

  lemma ConcatIsFinal(inp: Input, symbols: seq<string>, cut: seq<int>, later: seq<int>, st: State)
    requires Runnable(inp) && forall s :: s in symbols ==> s in inp.bars
    ensures var all := RunDays(inp, symbols, cut + later, st);
      match RunDays(inp, symbols, cut, st)
      case Err(o) => all == Err(o)
      case Ok(mid) => all == RunDays(inp, symbols, later, mid) && (all.Ok? ==> mid.log <= all.value.log)
  {
    RunDaysConcat(inp, symbols, cut, later, st);
    match RunDays(inp, symbols, cut, st)
    case Ok(mid) => DaysOnlyAppend(inp, symbols, later, mid);
    case Err(_) =>
  }

  /**
   * What was decided through day d is final: a failure by then is the failure of the whole replay,
   * and otherwise the replay goes on from that state over later days, only appending to its log.
   */
  lemma ThroughDayIsFinal(inp: Input, d: int)
    requires Runnable(inp)
    ensures match ThroughDay(inp, d)
      case Err(o) => Replay(inp) == Err(o)
      case Ok(mid) =>
        && Replay(inp) == RunDays(inp, SortedSymbols(inp.bars), CalendarAfter(inp.bars, d), mid)
        && (Replay(inp).Ok? ==> mid.log <= Replay(inp).value.log)
  {
    AscendingCut(CalendarSet(inp.bars), d);
    ConcatIsFinal(inp, SortedSymbols(inp.bars), CalendarUpTo(inp.bars, d), CalendarAfter(inp.bars, d), State(map[], []));
  }
}
