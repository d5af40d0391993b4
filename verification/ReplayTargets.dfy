/** Towards the target: no step overshoots, targets fit the capital, a steady target is reached. */
module ReplayTargets {
  import opened Collections
  import opened AshareRules
  import opened Signals
  import opened Market
  import opened GoReplay
  import opened GoCausality
  import opened ReplayAlignment

  /** Any part of the wanted order leaves the holding on the same side of the target, or on it. */
  lemma NeverOvershoots(cfg: Config, bar: Bar, target: int, b: Book, filled: nat)
    ensures var w := Wanted(cfg, bar, target - b.held, b);
      && (w > 0 ==> target > b.held)
      && (w < 0 ==> target < b.held)
      && (w > 0 && filled <= w ==> Settle(b, Buy, filled).held <= target)
      && (w < 0 && filled <= -w ==> Settle(b, Sell, filled).held >= target)
  {
    var budget := GoParticipationCap(bar.volume, cfg.dMax) - b.traded;
    if cfg.lot > 0 {
      RoundDownShares(Min(target - b.held, budget), cfg.lot);
    }
  }

  /** An order of the replay moves towards the target of its signal, whatever part of it is filled. */
  lemma OrdersNeverOvershoot(inp: Input, symbol: string, day: int, bar: Bar, b: Book, filled: nat)
    requires Runnable(inp) && bar.close != 0.0 && WeightOn(inp.rows, symbol, day).Some?
    ensures var signed := SignedOrder(inp, symbol, day, bar, b);
      var target := Target(inp.cfg, Share(inp), WeightOn(inp.rows, symbol, day).value, bar.close);
      && (signed > 0 && filled <= signed ==> b.held <= Settle(b, Buy, filled).held <= target)
      && (signed < 0 && filled <= -signed ==> target <= Settle(b, Sell, filled).held <= b.held)
  {
    var target := Target(inp.cfg, Share(inp), WeightOn(inp.rows, symbol, day).value, bar.close);
    NeverOvershoots(inp.cfg, bar, target, b, filled);
  }

  // ---- T+1 over whole runs, with any partial fills ----

  /** Sellable shares are real ones, so no sale can turn a holding short. */
  predicate LongOnly(b: Book) { 0 <= b.sellable <= b.held && b.traded >= 0 }

  ghost predicate AllLong(st: State) { forall s :: LongOnly(BookOf(st, s)) }

  lemma BarKeepsLong(inp: Input, symbol: string, day: int, bar: Bar, st: State)
    requires Runnable(inp) && Honest(inp.tracker) && AllLong(st)
    ensures TradeBar(inp, symbol, day, bar, st).Ok? ==> AllLong(TradeBar(inp, symbol, day, bar, st).value)
  {
    var b := OpenDay(BookOf(st, symbol), day);
    assert LongOnly(b) by { assert LongOnly(BookOf(st, symbol)); }
    var signed := SignedOrder(inp, symbol, day, bar, b);
    SignedOrderFits(inp, symbol, day, bar, b);
    PlaceKeepsLong(inp.tracker, symbol, day, bar.close, b, signed, st);
  }

  lemma SignedOrderFits(inp: Input, symbol: string, day: int, bar: Bar, b: Book)
    requires Runnable(inp)
    ensures SignedOrder(inp, symbol, day, bar, b) < 0 ==> -SignedOrder(inp, symbol, day, bar, b) <= b.sellable
  {
    match WeightOn(inp.rows, symbol, day)
    case None =>
    case Some(w) =>
      var budget := GoParticipationCap(bar.volume, inp.cfg.dMax) - b.traded;
      match GapTo(inp.cfg, Share(inp), w, bar.close, b.held)
      case Shares(n) => RoundDownNonNegative(Min(n, budget) as real, inp.cfg.lot);
      case Endless => RoundDownNonNegative(budget as real, inp.cfg.lot);
      case NotANumber =>
  }

  lemma PlaceKeepsLong(t: Tracker, symbol: string, day: int, price: real, b: Book, signed: int, st: State)
    requires Honest(t) && AllLong(st) && LongOnly(b) && (signed < 0 ==> -signed <= b.sellable)
    ensures var r := Place(t, symbol, day, price, b, signed, st); r.Ok? ==> AllLong(r.value)
  {
    var r := Place(t, symbol, day, price, b, signed, st);
    if r.Ok? {
      forall s ensures LongOnly(BookOf(r.value, s)) {
        if s != symbol { assert LongOnly(BookOf(st, s)); }
      }
    }
  }

  lemma {:induction false} SymbolsKeepLong(inp: Input, symbols: seq<string>, day: int, st: State)
    requires Runnable(inp) && Honest(inp.tracker) && AllLong(st) && forall s :: s in symbols ==> s in inp.bars
    ensures var r := RunSymbols(inp, symbols, day, st); r.Ok? ==> AllLong(r.value)
    decreases |symbols|
  {
    if symbols != [] {
      var symbol := symbols[0];
      match BarOn(inp.bars[symbol], day)
      case None => SymbolsKeepLong(inp, symbols[1..], day, st);
      case Some(bar) =>
        BarKeepsLong(inp, symbol, day, bar, st);
        match TradeBar(inp, symbol, day, bar, st)
        case Ok(next) => SymbolsKeepLong(inp, symbols[1..], day, next);
        case Err(_) =>
    }
  }

  /** In every run of the Go loop with an honest tracker no holding is ever short. */
  lemma {:induction false} RunsStayLong(inp: Input, symbols: seq<string>, days: seq<int>, st: State)
    requires Runnable(inp) && Honest(inp.tracker) && AllLong(st) && forall s :: s in symbols ==> s in inp.bars
    ensures var r := RunDays(inp, symbols, days, st); r.Ok? ==> AllLong(r.value)
    decreases |days|
  {
    if days != [] {
      var morning := OpenLog(st, days[0]);
      assert AllLong(morning) by { assert forall s :: BookOf(morning, s) == BookOf(st, s); }
      SymbolsKeepLong(inp, symbols, days[0], morning);
      match RunSymbols(inp, symbols, days[0], morning)
      case Ok(next) => RunsStayLong(inp, symbols, days[1..], next);
      case Err(_) =>
    }
  }

  // ---- the targets of all symbols together ----

  lemma QuotientTimes(a: real, b: real)
    requires b > 0.0 && a >= 0.0
    ensures a / b * b == a && a / b >= 0.0
  {
  }

  lemma OneNotional(cfg: Config, share: real, weight: real, price: real)
    requires share >= 0.0 && 0.0 <= weight <= 1.0 && price > 0.0
    ensures Target(cfg, share, weight, price) as real * price <= share
  {
    var q := WeightedShares(weight, share, price);
    var money := weight * share;
    assert money <= share by { MulLe(weight, 1.0, share); }
    assert money >= 0.0;
    var t := Target(cfg, share, weight, price) as real;
    QuotientTimes(money, price);
    if cfg.lot > 0 {
      RoundDownIsLargestMultiple(q, cfg.lot);
      assert t <= q;
    } else {
      assert t == 0.0;
    }
    MulLe(t, q, price);
  }

  /** What the target of a symbol on a day costs at that day's close; nothing without a bar or a signal. */
  function Notional(inp: Input, symbol: string, day: int): real
    requires Runnable(inp) && symbol in inp.bars
  {
    match BarOn(inp.bars[symbol], day)
    case None => 0.0
    case Some(bar) =>
      match WeightOn(inp.rows, symbol, day)
      case None => 0.0
      case Some(w) =>
        if bar.close == 0.0 then 0.0 else Target(inp.cfg, Share(inp), w, bar.close) as real * bar.close
  }

  /** Over a list of symbols. */
  function TotalNotional(inp: Input, symbols: seq<string>, day: int): real
    requires Runnable(inp) && forall s :: s in symbols ==> s in inp.bars
  {
    if symbols == [] then 0.0
    else Notional(inp, symbols[0], day) + TotalNotional(inp, symbols[1..], day)
  }

  predicate FairWeights(rows: seq<Row>) { forall i :: 0 <= i < |rows| ==> 0.0 <= rows[i].weight <= 1.0 }

  lemma {:induction false} FairLatest(rows: seq<Row>, symbol: string, day: int)
    requires FairWeights(rows)
    ensures WeightOn(rows, symbol, day).Some? ==> 0.0 <= WeightOn(rows, symbol, day).value <= 1.0
    decreases |rows|
  {
    if rows != [] {
      FairLatest(rows[..|rows| - 1], symbol, day);
      DatedStep(rows, |rows| - 1, symbol, day);
      assert rows[..|rows|] == rows;
    }
  }

  /** A negative quotient rounds to no shares, so only a positive close can cost anything. */
  lemma NotionalIsShared(inp: Input, symbol: string, day: int)
    requires Runnable(inp) && symbol in inp.bars && FairWeights(inp.rows) && Share(inp) >= 0.0
    ensures Notional(inp, symbol, day) <= Share(inp)
  {
    FairLatest(inp.rows, symbol, day);
    match BarOn(inp.bars[symbol], day)
    case None =>
    case Some(bar) =>
      match WeightOn(inp.rows, symbol, day)
      case None =>
      case Some(w) =>
        if bar.close > 0.0 {
          OneNotional(inp.cfg, Share(inp), w, bar.close);
        } else if bar.close < 0.0 {
          NegativePrice(w * Share(inp), bar.close);
        }
  }

  lemma NegativePrice(money: real, price: real)
    requires money >= 0.0 && price < 0.0
    ensures money / price <= 0.0
  {
    assert money / price == -(money / -price);
    QuotientTimes(money, -price);
  }

  function Times(n: nat, x: real): real { if n == 0 then 0.0 else Times(n - 1, x) + x }

  lemma {:induction false} TimesIsProduct(n: nat, x: real)
    ensures Times(n, x) == n as real * x
  {
    if n > 0 {
      TimesIsProduct(n - 1, x);
      assert n as real * x == (n - 1) as real * x + x;
    }
  }

  lemma {:induction false} TotalIsShared(inp: Input, symbols: seq<string>, day: int)
    requires Runnable(inp) && FairWeights(inp.rows) && Share(inp) >= 0.0 && forall s :: s in symbols ==> s in inp.bars
    ensures TotalNotional(inp, symbols, day) <= Times(|symbols|, Share(inp))
    decreases |symbols|
  {
    if symbols != [] {
      NotionalIsShared(inp, symbols[0], day);
      TotalIsShared(inp, symbols[1..], day);
      assert Times(|symbols|, Share(inp)) == Times(|symbols| - 1, Share(inp)) + Share(inp);
    }
  }

  lemma {:induction false} EachSymbolOnce(symbols: set<string>)
    ensures |AscendingSymbols(symbols)| == |symbols|
    decreases |symbols|
  {
    if symbols != {} { EachSymbolOnce(symbols - {LastSymbol(symbols)}); }
  }

  lemma ShareOfCapital(inp: Input)
    requires Runnable(inp) && inp.cfg.capital >= 0.0
    ensures Share(inp) >= 0.0 && Times(|inp.bars|, Share(inp)) == inp.cfg.capital
  {
    QuotientTimes(inp.cfg.capital, |inp.bars| as real);
    TimesIsProduct(|inp.bars|, Share(inp));
  }

  /** With weights in [0, 1], the targets of a day of the replay cost at most the whole capital, over all its symbols. */
  lemma TargetsFitCapital(inp: Input, day: int)
    requires Runnable(inp) && inp.cfg.capital >= 0.0 && FairWeights(inp.rows)
    ensures TotalNotional(inp, SortedSymbols(inp.bars), day) <= inp.cfg.capital
  {
    ShareOfCapital(inp);
    EachSymbolOnce(inp.bars.Keys);
    assert |inp.bars| == |inp.bars.Keys|;
    TotalIsShared(inp, SortedSymbols(inp.bars), day);
  }

  // ---- reaching a steady target ----

  /** One bar with a full fill, for a fixed target. */
  function DayOnce(cfg: Config, target: int, bar: Bar, b: Book): Book {
    var today := OpenDay(b, DayOf(bar.moment));
    var signed := Wanted(cfg, bar, target - today.held, today);
    var o := OrderFor("", 0, bar.close, signed);
    (if signed == 0 then today else Settle(today, o.side, o.qty)).(prevClose := Some(bar.close))
  }

  /** It is what a day of the replay does under a signal with that target, when orders fill in full. */
  lemma DayOnceIsReplay(inp: Input, symbol: string, bar: Bar, b: Book)
    requires Runnable(inp) && symbol in inp.bars && bar.close != 0.0
    requires BarOn(inp.bars[symbol], DayOf(bar.moment)) == Some(bar)
    requires WeightOn(inp.rows, symbol, DayOf(bar.moment)).Some?
    ensures DayLane(inp, FULL, symbol, DayOf(bar.moment), Lane(b, false)) == Lane(
      DayOnce(inp.cfg, Target(inp.cfg, Share(inp), WeightOn(inp.rows, symbol, DayOf(bar.moment)).value, bar.close), bar, b), false)
  {
  }

  const FULL: FillFn := (o: Order) => Some(o.qty)

  function DaysOn(cfg: Config, target: int, bars: seq<Bar>, b: Book): Book
    decreases |bars|
  {
    if bars == [] then b else DaysOn(cfg, target, bars[1..], DayOnce(cfg, target, bars[0], b))
  }

  /** A constant price that is inside its own limits, daily caps of at least a lot, a new day per bar. */
  predicate Steady(cfg: Config, price: real, bars: seq<Bar>, b: Book) {
    && cfg.lot > 0
    && GoLimitPrices(price, cfg.limitRate).1 < price < GoLimitPrices(price, cfg.limitRate).0
    && (b.prevClose == None || b.prevClose == Some(price))
    && (forall i :: 0 <= i < |bars| ==> bars[i].close == price && GoParticipationCap(bars[i].volume, cfg.dMax) >= cfg.lot)
    && (forall i :: 0 <= i < |bars| ==> b.lastDay != Some(DayOf(bars[i].moment)))
    && (forall i, j :: 0 <= i < j < |bars| ==> DayOf(bars[i].moment) != DayOf(bars[j].moment))
  }

  /** How one unblocked day changes the gap `target - held`. */
  predicate Closer(lot: int, before: int, after: int) {
    && (before >= lot ==> 0 <= after <= before - lot)
    && (0 <= before < lot ==> after == before)
    && (before < 0 ==> before < after <= 0 && (after == 0 || after >= before + lot))
  }

  /** The order of an unblocked fresh day with a cap of at least a lot. */
  lemma SteadyOrder(cfg: Config, bar: Bar, delta: int, today: Book)
    requires cfg.lot > 0 && GoParticipationCap(bar.volume, cfg.dMax) >= cfg.lot
    requires today.traded == 0 && today.sellable >= -delta
    requires !AtUpperLimit(cfg, today, bar.close) && !AtLowerLimit(cfg, today, bar.close)
    ensures var w := Wanted(cfg, bar, delta, today);
      && (delta >= cfg.lot ==> cfg.lot <= w <= delta)
      && (0 <= delta < cfg.lot ==> w == 0)
      && (delta < 0 ==> delta <= w < 0 && (w == delta || w <= -cfg.lot))
  {
    var cap := GoParticipationCap(bar.volume, cfg.dMax);
    RoundDownShares(Min(delta, cap), cfg.lot);
    if 0 <= delta < cfg.lot { BelowALot(delta, cfg.lot); }
  }

  lemma BelowALot(shares: int, lot: int)
    requires 0 <= shares < lot
    ensures GoRoundDownToLot(shares as real, lot) == 0
  {
    RoundDownShares(shares, lot);
  }

  lemma DayCloses(cfg: Config, target: nat, price: real, bar: Bar, b: Book)
    requires Steady(cfg, price, [bar], b) && b.held >= 0
    ensures var after := DayOnce(cfg, target, bar, b);
      && Closer(cfg.lot, target - b.held, target - after.held)
      && after.held >= 0
      && after.prevClose == Some(price)
      && after.lastDay == Some(DayOf(bar.moment))
  {
    assert [bar][0] == bar;
    var today := OpenDay(b, DayOf(bar.moment));
    assert today == Book(b.prevClose, Some(DayOf(bar.moment)), b.held, 0, b.held);
    SteadyOrder(cfg, bar, target - b.held, today);
  }

  /** After n days: a lot per day is closed, or the gap is below a lot (buying) or zero (selling); never widened. */
  predicate Reached(lot: int, n: int, gap: int, left: int) {
    && (gap >= 0 ==> 0 <= left <= gap && (left < lot || left <= gap - Lots(n, lot)))
    && (gap < 0 ==> gap <= left <= 0 && (left == 0 || left >= gap + Lots(n, lot)))
  }

  lemma ReachedStep(lot: int, n: nat, gap: int, mid: int, left: int)
    requires lot > 0 && Closer(lot, gap, mid) && Reached(lot, n, mid, left)
    ensures Reached(lot, n + 1, gap, left)
  {
    assert Lots(n + 1, lot) == Lots(n, lot) + lot;
    assert Lots(n, lot) >= 0;
  }

  lemma {:induction false} SteadyRun(cfg: Config, target: nat, price: real, bars: seq<Bar>, b: Book)
    requires Steady(cfg, price, bars, b) && b.held >= 0
    ensures Reached(cfg.lot, |bars|, target - b.held, target - DaysOn(cfg, target, bars, b).held)
    decreases |bars|
  {
    if bars == [] {
      assert Lots(0, cfg.lot) == 0;
    } else {
      DayCloses(cfg, target, price, bars[0], b);
      var mid := DayOnce(cfg, target, bars[0], b);
      assert Steady(cfg, price, bars[1..], mid);
      SteadyRun(cfg, target, price, bars[1..], mid);
      ReachedStep(cfg.lot, |bars| - 1, target - b.held, target - mid.held, target - DaysOn(cfg, target, bars, b).held);
    }
  }

  /** From bar j on the signal of the symbol is the same on every bar, and so is the price. */
  predicate SteadySignal(inp: Input, symbol: string, weight: real, price: real, j: nat)
    requires symbol in inp.bars
  {
    var series := inp.bars[symbol];
    && price != 0.0
    && forall i :: j <= i < |series| ==>
         series[i].close == price && WeightOn(inp.rows, symbol, DayOf(series[i].moment)) == Some(weight)
  }

  /** Over the days to come a symbol's lane is its own remaining bars, one after the other. */
  lemma {:induction false} CalendarIsBars(inp: Input, symbol: string, weight: real, price: real, days: seq<int>, j: nat, b: Book)
    requires Runnable(inp) && symbol in inp.bars && Daily(inp.bars[symbol]) && SteadySignal(inp, symbol, weight, price, j)
    requires Ahead(inp.bars[symbol], j, days)
    ensures DaysLane(GoLane(inp, FULL, symbol), days, Lane(b, false))
         == Lane(DaysOn(inp.cfg, Target(inp.cfg, Share(inp), weight, price), inp.bars[symbol][j..], b), false)
    decreases |days|
  {
    var series := inp.bars[symbol];
    NoBarsLeft(series, j, days);
    if days != [] {
      SeriesTail(series, j, days);
      if OnDay(series, j, days[0]) {
        assert series[j..][0] == series[j] && series[j..][1..] == series[j + 1..];
        BarOnDaily(series, j, days[0]);
        DayOnceIsReplay(inp, symbol, series[j], b);
        var next := DayOnce(inp.cfg, Target(inp.cfg, Share(inp), weight, price), series[j], b);
        CalendarIsBars(inp, symbol, weight, price, days[1..], j + 1, next);
      } else {
        IdleDayAgrees(inp, FULL, symbol, days[0]);
        CalendarIsBars(inp, symbol, weight, price, days[1..], j, b);
      }
    }
  }

  /** Convergence of the day loop, from any state and over any days that visit the bars from j on. */
  lemma SteadyDays(inp: Input, symbol: string, weight: real, price: real, days: seq<int>, j: nat, st: State)
    requires Runnable(inp) && FilledAs(inp.tracker, FULL) && symbol in inp.bars && Daily(inp.bars[symbol])
    requires SteadySignal(inp, symbol, weight, price, j) && Ahead(inp.bars[symbol], j, days)
    requires Steady(inp.cfg, price, inp.bars[symbol][j..], BookOf(st, symbol)) && BookOf(st, symbol).held >= 0
    ensures var target := Target(inp.cfg, Share(inp), weight, price);
      var r := RunDays(inp, SortedSymbols(inp.bars), days, st);
      r.Ok? ==> Reached(inp.cfg.lot, |inp.bars[symbol]| - j,
                        target - BookOf(st, symbol).held, target - BookOf(r.value, symbol).held)
  {
    var symbols, b := SortedSymbols(inp.bars), BookOf(st, symbol);
    AscendingSymbolsDistinct(inp.bars.Keys);
    LoopIsSeen(inp, FULL, symbols, symbol);
    LoopProjects(inp, FULL, symbols, days, st, symbol, GoLane(inp, FULL, symbol), GoOrder(inp, symbol));
    CalendarIsBars(inp, symbol, weight, price, days, j, b);
    RoundDownNonNegative(WeightedShares(weight, Share(inp), price), inp.cfg.lot);
    SteadyRun(inp.cfg, Target(inp.cfg, Share(inp), weight, price), price, inp.bars[symbol][j..], b);
  }

  /** Bar j is the symbol's first bar after day d. */
  predicate FirstAfter(series: seq<Bar>, d: int, j: nat) {
    && j <= |series|
    && (forall i :: 0 <= i < j ==> DayOf(series[i].moment) <= d)
    && (forall i :: j <= i < |series| ==> DayOf(series[i].moment) > d)
  }

  lemma AfterIsAhead(bars: map<string, seq<Bar>>, symbol: string, d: int, j: nat)
    requires symbol in bars && FirstAfter(bars[symbol], d, j)
    ensures Ahead(bars[symbol], j, CalendarAfter(bars, d))
  {
    var later := DaysAfter(CalendarSet(bars), d);
    AscendingIntsIncrease(later);
    forall k | 0 <= k < |AscendingInts(later)| ensures AscendingInts(later)[k] > d {
      assert AscendingInts(later)[k] in AscendingInts(later);
    }
    forall i | j <= i < |bars[symbol]| ensures DayOf(bars[symbol][i].moment) in AscendingInts(later) {
      assert DayOf(bars[symbol][i].moment) in CalendarSet(bars);
    }
  }

  lemma FullIsHonest(t: Tracker)
    requires FilledAs(t, FULL)
    ensures Honest(t)
  {
  }

  /** Through any day the replay holds nothing short. */
  lemma ThroughDayIsLong(inp: Input, d: int)
    requires Runnable(inp) && FilledAs(inp.tracker, FULL)
    ensures ThroughDay(inp, d).Ok? ==> AllLong(ThroughDay(inp, d).value)
  {
    FullIsHonest(inp.tracker);
    RunsStayLong(inp, SortedSymbols(inp.bars), CalendarUpTo(inp.bars, d), State(map[], []));
  }

  /**
   * Convergence of the replay, buying and selling: let the signal and the price of a symbol be steady after
   * some day d, with full fills. Then each later bar brings the holding at least one lot closer to the target,
   * until less than a lot is missing or nothing is left to sell.
   */
  lemma SteadyTargetIsReached(inp: Input, symbol: string, weight: real, price: real, d: int, j: nat)
    requires Runnable(inp) && FilledAs(inp.tracker, FULL) && symbol in inp.bars && Daily(inp.bars[symbol])
    requires FirstAfter(inp.bars[symbol], d, j) && SteadySignal(inp, symbol, weight, price, j)
    requires ThroughDay(inp, d).Ok? && Replay(inp).Ok?
    requires Steady(inp.cfg, price, inp.bars[symbol][j..], BookOf(ThroughDay(inp, d).value, symbol))
    ensures var target, lot, n := Target(inp.cfg, Share(inp), weight, price), inp.cfg.lot, |inp.bars[symbol]| - j;
      var gap := target - BookOf(ThroughDay(inp, d).value, symbol).held;
      var left := target - BookOf(Replay(inp).value, symbol).held;
      && Reached(lot, n, gap, left)
      && (gap >= 0 && Lots(n, lot) >= gap ==> 0 <= left < lot)
      && (gap < 0 && Lots(n, lot) >= -gap ==> left == 0)
  {
    var mid := ThroughDay(inp, d).value;
    ThroughDayIsLong(inp, d);
    assert LongOnly(BookOf(mid, symbol));
    ThroughDayIsFinal(inp, d);
    AfterIsAhead(inp.bars, symbol, d, j);
    SteadyDays(inp, symbol, weight, price, CalendarAfter(inp.bars, d), j, mid);
  }
}
