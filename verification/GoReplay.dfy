/**
 * The Go side of the weight replay: one loop over the union calendar, and on each day one pass
 * over the symbols. The tracker is unseen: `Tracker` is any deterministic kernel that answers an
 * order, given everything that happened before it, with a filled quantity or an error.
 */
module GoReplay {
  import opened Collections
  import opened AshareRules
  import opened Signals
  import opened Market

  datatype Order = Order(symbol: string, day: int, side: Side, qty: int, price: real)

  datatype Event = DayOpened(day: int) | Executed(order: Order, filled: int)

  type Tracker = (seq<Event>, Order) -> Option<int>

  datatype Input = Input(cfg: Config, rows: seq<Row>, bars: map<string, seq<Bar>>, tracker: Tracker)

  ghost predicate Honest(t: Tracker) {
    forall log, o: Order :: o.qty > 0 && t(log, o).Some? ==> 0 <= t(log, o).value <= o.qty
  }

  ghost predicate FullFills(t: Tracker) {
    forall log, o :: t(log, o) == Some(o.qty)
  }

  /** The order that stopped a replay, and everything that happened before it. */
  datatype Refusal = Refusal(order: Order, log: seq<Event>)

  // ---- reference: one record per symbol ----

  /** Day state of one symbol, with the tracker's holding in it. */
  datatype Book = Book(prevClose: Option<real>, lastDay: Option<int>, sellable: int, traded: int, held: int)

  const FRESH := Book(None, None, 0, 0, 0)

  datatype State = State(books: map<string, Book>, log: seq<Event>)

  function BookOf(st: State, symbol: string): Book {
    if symbol in st.books then st.books[symbol] else FRESH
  }

  /** First bar of a new day: yesterday's holding becomes sellable, the day's budget restarts. */
  function OpenDay(b: Book, day: int): Book {
    if b.lastDay == Some(day) then b else Book(b.prevClose, Some(day), Max(0, b.held), 0, b.held)
  }

  function Target(cfg: Config, share: real, weight: real, price: real): int
    requires price != 0.0
  {
    GoRoundDownToLot(WeightedShares(weight, share, price), cfg.lot)
  }

  function AtUpperLimit(cfg: Config, b: Book, price: real): bool {
    b.prevClose.Some? && price >= GoLimitPrices(b.prevClose.value, cfg.limitRate).0
  }

  function AtLowerLimit(cfg: Config, b: Book, price: real): bool {
    b.prevClose.Some? && price <= GoLimitPrices(b.prevClose.value, cfg.limitRate).1
  }

  /** The order quantity wanted for a signed gap to target: positive buys, negative sells. */
  function Wanted(cfg: Config, bar: Bar, delta: int, b: Book): int {
    var budget := GoParticipationCap(bar.volume, cfg.dMax) - b.traded;
    if delta > 0 && !AtUpperLimit(cfg, b, bar.close) then
      GoRoundDownToLot(Min(delta, budget) as real, cfg.lot)
    else if delta < 0 && !AtLowerLimit(cfg, b, bar.close) then
      -Max(0, Min(Min(-delta, b.sellable), budget))
    else 0
  }

  /** The gap to a target. Dividing by a zero close gives an infinite target, or none for a zero weight. */
  datatype Gap = Shares(n: int) | Endless | NotANumber

  function GapTo(cfg: Config, share: real, weight: real, price: real, held: int): Gap {
    if price != 0.0 then Shares(Target(cfg, share, weight, price) - held)
    else if cfg.lot <= 0 || weight * share < 0.0 then Shares(0 - held)
    else if weight * share == 0.0 then NotANumber
    else Endless
  }

  /** The signed order for any gap: an endless one is cut to the budget, and no comparison holds of NaN. */
  function WantedFor(cfg: Config, bar: Bar, gap: Gap, b: Book): int {
    match gap
    case Shares(n) => Wanted(cfg, bar, n, b)
    case Endless =>
      if AtUpperLimit(cfg, b, bar.close) then 0
      else GoRoundDownToLot((GoParticipationCap(bar.volume, cfg.dMax) - b.traded) as real, cfg.lot)
    case NotANumber => 0
  }

  /** A fill spends the day's budget and moves the holding; a sale also uses up sellable shares. */
  function Settle(b: Book, side: Side, filled: int): Book {
    match side
    case Buy => b.(traded := b.traded + filled, held := b.held + filled)
    case Sell => b.(traded := b.traded + filled, held := b.held - filled, sellable := Max(0, b.sellable - filled))
  }

  function WeightOn(rows: seq<Row>, symbol: string, day: int): Option<real> {
    var l := Latest(DatedOnly(rows), symbol, day * DAY);
    if l.Some? then Some(l.value.weight) else None
  }

  function OrderFor(symbol: string, day: int, price: real, signed: int): Order {
    if signed > 0 then Order(symbol, day, Buy, signed, price) else Order(symbol, day, Sell, -signed, price)
  }

  predicate Runnable(inp: Input) { inp.bars != map[] }

  function Share(inp: Input): real
    requires Runnable(inp)
  {
    inp.cfg.capital / |inp.bars| as real
  }

  function BarOn(series: seq<Bar>, day: int): Option<Bar> {
    if series == [] then None
    else if DayOf(series[0].moment) == day then Some(series[0])
    else BarOn(series[1..], day)
  }

  lemma {:induction false} BarOnIn(series: seq<Bar>, day: int)
    ensures BarOn(series, day).Some? ==>
      BarOn(series, day).value in series && DayOf(BarOn(series, day).value.moment) == day
    decreases |series|
  {
    if series != [] { BarOnIn(series[1..], day); }
  }

  /** The signed order one bar leads to: 0 when there is no signal. */
  function SignedOrder(inp: Input, symbol: string, day: int, bar: Bar, b: Book): int
    requires Runnable(inp)
  {
    match WeightOn(inp.rows, symbol, day)
    case None => 0
    case Some(w) => WantedFor(inp.cfg, bar, GapTo(inp.cfg, Share(inp), w, bar.close, b.held), b)
  }

  /** Send a chosen order (0 for none), book its fill and remember the close. */
  function Place(tracker: Tracker, symbol: string, day: int, price: real, b: Book, signed: int, st: State)
    : Result<State, Refusal>
  {
    if signed == 0 then Ok(State(st.books[symbol := b.(prevClose := Some(price))], st.log))
    else
      var o := OrderFor(symbol, day, price, signed);
      match tracker(st.log, o)
      case None => Err(Refusal(o, st.log))
      case Some(filled) =>
        var after := Settle(b, o.side, filled);
        Ok(State(st.books[symbol := after.(prevClose := Some(price))], st.log + [Executed(o, filled)]))
  }

  function TradeBar(inp: Input, symbol: string, day: int, bar: Bar, st: State): Result<State, Refusal>
    requires Runnable(inp)
  {
    var b := OpenDay(BookOf(st, symbol), day);
    Place(inp.tracker, symbol, day, bar.close, b, SignedOrder(inp, symbol, day, bar, b), st)
  }

  function TradeSymbol(inp: Input, symbol: string, day: int, st: State): Result<State, Refusal>
    requires Runnable(inp) && symbol in inp.bars
  {
    match BarOn(inp.bars[symbol], day)
    case None => Ok(st)
    case Some(bar) => TradeBar(inp, symbol, day, bar, st)
  }

  function RunSymbols(inp: Input, symbols: seq<string>, day: int, st: State): Result<State, Refusal>
    requires Runnable(inp) && forall s :: s in symbols ==> s in inp.bars
  {
    if symbols == [] then Ok(st) else
      match TradeSymbol(inp, symbols[0], day, st)
      case Err(r) => Err(r)
      case Ok(next) => RunSymbols(inp, symbols[1..], day, next)
  }

  function OpenLog(st: State, day: int): State { st.(log := st.log + [DayOpened(day)]) }

  function RunDays(inp: Input, symbols: seq<string>, days: seq<int>, st: State): Result<State, Refusal>
    requires Runnable(inp) && forall s :: s in symbols ==> s in inp.bars
  {
    if days == [] then Ok(st) else
      match RunSymbols(inp, symbols, days[0], OpenLog(st, days[0]))
      case Err(r) => Err(r)
      case Ok(next) => RunDays(inp, symbols, days[1..], next)
  }

  /** The union of all bar days. */
  function CalendarSet(bars: map<string, seq<Bar>>): set<int> {
    set s, i | s in bars && 0 <= i < |bars[s]| :: DayOf(bars[s][i].moment)
  }

  function SortedCalendar(bars: map<string, seq<Bar>>): seq<int> {
    AscendingInts(CalendarSet(bars))
  }

  function LastSymbol(symbols: set<string>): (m: string)
    requires symbols != {}
    ensures m in symbols && forall x :: x in symbols ==> StringLe(x, m)
  {
    StringLeIsTotal();
    GreatestExists(symbols, StringLe);
    assert forall x, y :: StringLe(x, y) && StringLe(y, x) ==> x == y;
    var m :| m in symbols && forall x :: x in symbols ==> StringLe(x, m);
    m
  }

  /** The symbols of a set in string order. */
  function AscendingSymbols(symbols: set<string>): (r: seq<string>)
    ensures forall x :: x in r <==> x in symbols
    decreases |symbols|
  {
    if symbols == {} then [] else AscendingSymbols(symbols - {LastSymbol(symbols)}) + [LastSymbol(symbols)]
  }

  function SortedSymbols(bars: map<string, seq<Bar>>): seq<string> {
    AscendingSymbols(bars.Keys)
  }

  function Replay(inp: Input): Result<State, Refusal>
    requires Runnable(inp)
  {
    RunDays(inp, SortedSymbols(inp.bars), SortedCalendar(inp.bars), State(map[], []))
  }

  // ---- the loop itself ----

  datatype Outcome = BadCapital | NoBars | OrderFailed(order: Order) | Done(log: seq<Event>, held: map<string, int>)

  function GetOr0(m: map<string, int>, s: string): int { if s in m then m[s] else 0 }

  function Lookup<V>(m: map<string, V>, s: string): Option<V> { if s in m then Some(m[s]) else None }

  /** The per-symbol maps of the loop, and what it sees of the tracker: holdings and history. */
  class DayState {
    var prevClose: map<string, real>
    var lastDay: map<string, int>
    var sellable: map<string, int>
    var tradedToday: map<string, int>
    var held: map<string, int>
    var log: seq<Event>

    constructor ()
      ensures log == [] && held == map[] && forall s :: BookAt(s) == FRESH
    {
      prevClose, lastDay, sellable, tradedToday, held, log := map[], map[], map[], map[], map[], [];
    }

    ghost function BookAt(s: string): Book
      reads this
    {
      Book(Lookup(prevClose, s), Lookup(lastDay, s), GetOr0(sellable, s), GetOr0(tradedToday, s), GetOr0(held, s))
    }

    ghost predicate Holds(st: State)
      reads this
    {
      st.log == log && forall s :: BookAt(s) == BookOf(st, s)
    }

    method StartOfDay(sym: string, day: int)
      modifies this
      ensures BookAt(sym) == OpenDay(old(BookAt(sym)), day)
      ensures forall s :: s != sym ==> BookAt(s) == old(BookAt(s))
      ensures log == old(log)
    {
      if sym !in lastDay || lastDay[sym] != day {
        lastDay := lastDay[sym := day];
        sellable := sellable[sym := if sym in held && held[sym] > 0 then held[sym] else 0];
        tradedToday := tradedToday[sym := 0];
      }
    }

    /** Send one order to the tracker and book its fill; false when the tracker refuses. */
    method Execute(tracker: Tracker, o: Order) returns (ok: bool)
      modifies this
      ensures ok == tracker(old(log), o).Some?
      ensures !ok ==> log == old(log)
      ensures ok ==>
        var f := tracker(old(log), o).value;
        && log == old(log) + [Executed(o, f)]
        && BookAt(o.symbol) == Settle(old(BookAt(o.symbol)), o.side, f)
        && forall s :: s != o.symbol ==> BookAt(s) == old(BookAt(s))
    {
      var fill := tracker(log, o);
      if fill.None? { return false; }
      ok := true;
      var sym, f := o.symbol, fill.value;
      log := log + [Executed(o, f)];
      tradedToday := tradedToday[sym := GetOr0(tradedToday, sym) + f];
      if o.side == Buy {
        held := held[sym := GetOr0(held, sym) + f];
      } else {
        held := held[sym := GetOr0(held, sym) - f];
        sellable := sellable[sym := Max(0, GetOr0(sellable, sym) - f)];
      }
    }

    /** The order for one gap, or None: limit check, T+1, participation, lots. */
    method Choose(cfg: Config, sym: string, day: int, bar: Bar, gap: Gap) returns (o: Option<Order>)
      ensures var w := WantedFor(cfg, bar, gap, BookAt(sym));
        o == if w == 0 then None else Some(OrderFor(sym, day, bar.close, w))
    {
      var budget := GoParticipationCap(bar.volume, cfg.dMax) - GetOr0(tradedToday, sym);
      if gap.Endless? || (gap.Shares? && gap.n > 0) {
        if sym in prevClose && bar.close >= GoLimitPrices(prevClose[sym], cfg.limitRate).0 { return None; }
        var qty := if gap.Shares? then Min(gap.n, budget) else budget;
        RoundDownNonNegative(qty as real, cfg.lot);
        qty := GoRoundDownToLot(qty as real, cfg.lot);
        if qty > 0 { return Some(Order(sym, day, Buy, qty, bar.close)); }
      } else if gap.Shares? && gap.n < 0 {
        if sym in prevClose && bar.close <= GoLimitPrices(prevClose[sym], cfg.limitRate).1 { return None; }
        var want := Min(-gap.n, GetOr0(sellable, sym));
        var qty := Min(want, budget);
        if qty > 0 { return Some(Order(sym, day, Sell, qty, bar.close)); }
      }
      o := None;
    }

    /** Look up the weight and choose the order for one bar. */
    method Decide(inp: Input, sym: string, day: int, bar: Bar) returns (o: Option<Order>)
      requires Runnable(inp)
      ensures var w := SignedOrder(inp, sym, day, bar, BookAt(sym));
        o == if w == 0 then None else Some(OrderFor(sym, day, bar.close, w))
    {
      var weight, ok := GoTargetWeight(inp.rows, sym, day);
      if !ok { return None; }
      o := Choose(inp.cfg, sym, day, bar, GapTo(inp.cfg, Share(inp), weight, bar.close, GetOr0(held, sym)));
    }

    /** Place an order that was chosen, then remember the close. */
    method Finish(tracker: Tracker, sym: string, day: int, price: real, order: Option<Order>,
                  ghost signed: int, ghost st: State)
      returns (refused: Option<Order>)
      requires order == if signed == 0 then None else Some(OrderFor(sym, day, price, signed))
      requires log == st.log && forall s :: s != sym ==> BookAt(s) == BookOf(st, s)
      modifies this
      ensures match Place(tracker, sym, day, price, old(BookAt(sym)), signed, st)
        case Err(r) => refused == Some(r.order) && log == r.log
        case Ok(next) => refused == None && Holds(next)
    {
      if order.Some? {
        var filled := Execute(tracker, order.value);
        if !filled { return order; }
      }
      label booked:
      prevClose := prevClose[sym := price];
      assert BookAt(sym) == old@booked(BookAt(sym)).(prevClose := Some(price));
      assert forall s :: s != sym ==> BookAt(s) == old@booked(BookAt(s));
      refused := None;
    }

    /** The body of the symbol loop; the result is the order the tracker refused, if any. */
    method Trade(inp: Input, sym: string, day: int, bar: Bar, ghost st: State) returns (refused: Option<Order>)
      requires Runnable(inp) && Holds(st)
      modifies this
      ensures match TradeBar(inp, sym, day, bar, st)
        case Err(r) => refused == Some(r.order) && log == r.log
        case Ok(next) => refused == None && Holds(next)
    {
      StartOfDay(sym, day);
      var order := Decide(inp, sym, day, bar);
      refused := Finish(inp.tracker, sym, day, bar.close, order, SignedOrder(inp, sym, day, bar, BookAt(sym)), st);
    }

    method BeginDay(day: int)
      modifies this`log
      ensures log == old(log) + [DayOpened(day)]
      ensures forall s :: BookAt(s) == old(BookAt(s))
    {
      log := log + [DayOpened(day)];
    }
  }

  /** One day of the outer loop. */
  method RunDay(inp: Input, symbols: seq<string>, day: int, state: DayState, ghost st: State)
    returns (refused: Option<Order>)
    requires Runnable(inp) && (forall s :: s in symbols ==> s in inp.bars) && state.Holds(st)
    modifies state
    ensures match RunSymbols(inp, symbols, day, st)
      case Err(r) => refused == Some(r.order) && state.log == r.log
      case Ok(next) => refused == None && state.Holds(next)
  {
    ghost var cur := st;
    for k := 0 to |symbols|
      invariant state.Holds(cur)
      invariant RunSymbols(inp, symbols[k..], day, cur) == RunSymbols(inp, symbols, day, st)
    {
      assert symbols[k..][0] == symbols[k] && symbols[k..][1..] == symbols[k + 1..];
      var sym := symbols[k];
      var bar := BarOn(inp.bars[sym], day);
      if bar.Some? {
        refused := state.Trade(inp, sym, day, bar.value, cur);
        if refused.Some? { return; }
        cur := TradeBar(inp, sym, day, bar.value, cur).value;
      }
    }
    refused := None;
  }

  /** The outer loop over days. */
  method RunCalendar(inp: Input, symbols: seq<string>, days: seq<int>, state: DayState, ghost st: State)
    returns (refused: Option<Order>)
    requires Runnable(inp) && (forall s :: s in symbols ==> s in inp.bars) && state.Holds(st)
    modifies state
    ensures match RunDays(inp, symbols, days, st)
      case Err(r) => refused == Some(r.order) && state.log == r.log
      case Ok(next) => refused == None && state.Holds(next)
  {
    ghost var cur := st;
    for d := 0 to |days|
      invariant state.Holds(cur)
      invariant RunDays(inp, symbols, days[d..], cur) == RunDays(inp, symbols, days, st)
    {
      assert days[d..][0] == days[d] && days[d..][1..] == days[d + 1..];
      state.BeginDay(days[d]);
      refused := RunDay(inp, symbols, days[d], state, OpenLog(cur, days[d]));
      if refused.Some? { return; }
      cur := RunSymbols(inp, symbols, days[d], OpenLog(cur, days[d])).value;
    }
    refused := None;
  }

  /** `wrReplay`: refuses bad input, else runs the calendar up to the first order the tracker refuses. */
  method WrReplay(inp: Input) returns (r: Outcome)
    ensures inp.cfg.capital <= 0.0 ==> r == BadCapital
    ensures inp.cfg.capital > 0.0 && inp.bars == map[] ==> r == NoBars
    ensures inp.cfg.capital > 0.0 && inp.bars != map[] ==>
      match Replay(inp)
      case Err(stop) => r == OrderFailed(stop.order)
      case Ok(st) => r.Done? && r.log == st.log && forall s :: GetOr0(r.held, s) == BookOf(st, s).held
  {
    if inp.cfg.capital <= 0.0 { return BadCapital; }
    if inp.bars == map[] { return NoBars; }
    var state := new DayState();
    var refused := RunCalendar(inp, SortedSymbols(inp.bars), SortedCalendar(inp.bars), state, State(map[], []));
    if refused.Some? { return OrderFailed(refused.value); }
    assert forall s :: GetOr0(state.held, s) == state.BookAt(s).held;
    r := Done(state.log, state.held);
  }

  // ---- what the decisions mean ----

  /** The target is as many whole lots as the weight's part of the share pays for, and one lot more costs more. */
  lemma TargetMeans(cfg: Config, share: real, weight: real, price: real)
    requires cfg.lot > 0 && price > 0.0
    ensures var t := Target(cfg, share, weight, price);
      && WholeLots(t, cfg.lot)
      && (weight * share >= 0.0 ==> t as real * price <= weight * share < (t + cfg.lot) as real * price)
      && (weight * share < 0.0 ==> t == 0)
  {
    LotsForWeight(weight, share, price, cfg.lot);
  }

  /** At or above the upper limit of the previous close; the first bar has none. */
  predicate LimitUp(cfg: Config, prevClose: Option<real>, price: real) {
    prevClose.Some? && GoLimitPrices(prevClose.value, cfg.limitRate).0 <= price
  }

  predicate LimitDown(cfg: Config, prevClose: Option<real>, price: real) {
    prevClose.Some? && price <= GoLimitPrices(prevClose.value, cfg.limitRate).1
  }

  /**
   * The order for a gap. Upwards: nothing at the upper limit, else the most whole lots that fit both gap and
   * budget. Downwards: nothing at the lower limit, else as much as gap, sellable shares and budget allow.
   */
  lemma WantedMeans(cfg: Config, bar: Bar, delta: int, b: Book)
    requires cfg.lot > 0
    ensures var w := Wanted(cfg, bar, delta, b);
      var budget := GoParticipationCap(bar.volume, cfg.dMax) - b.traded;
      && (delta == 0 ==> w == 0)
      && (delta > 0 && LimitUp(cfg, b.prevClose, bar.close) ==> w == 0)
      && (delta < 0 && LimitDown(cfg, b.prevClose, bar.close) ==> w == 0)
      && (delta > 0 && !LimitUp(cfg, b.prevClose, bar.close) ==>
            && w >= 0 && WholeLots(w, cfg.lot)
            && (w > 0 ==> w <= delta && w <= budget)
            && (delta < w + cfg.lot || budget < w + cfg.lot))
      && (delta < 0 && !LimitDown(cfg, b.prevClose, bar.close) ==>
            && w <= 0
            && (w < 0 ==> -w <= -delta && -w <= b.sellable && -w <= budget)
            && (-w >= -delta || -w >= b.sellable || -w >= budget))
  {
    var budget := GoParticipationCap(bar.volume, cfg.dMax) - b.traded;
    RoundDownShares(Min(delta, budget), cfg.lot);
  }

  /** An endless gap leads to the order of every finite gap that is positive and not below the budget. */
  lemma EndlessIsAnyLargeGap(cfg: Config, bar: Bar, n: int, b: Book)
    requires n > 0 && n >= GoParticipationCap(bar.volume, cfg.dMax) - b.traded
    ensures WantedFor(cfg, bar, Endless, b) == Wanted(cfg, bar, n, b)
  {
  }

  /** A zero close has an endless gap exactly for a positive amount of money, and none for no money. */
  lemma ZeroCloseGap(cfg: Config, share: real, weight: real, held: int)
    requires cfg.lot > 0
    ensures GapTo(cfg, share, weight, 0.0, held) ==
      if weight * share > 0.0 then Endless else if weight * share == 0.0 then NotANumber else Shares(-held)
  {
  }

  /** An executed order is of a bar of the replay: its symbol's bar on its day, at its close, for a positive quantity. */
  predicate OfItsBar(inp: Input, e: Event) {
    e.Executed? ==>
      && e.order.symbol in inp.bars && e.order.qty > 0
      && BarOn(inp.bars[e.order.symbol], e.order.day).Some?
      && e.order.price == BarOn(inp.bars[e.order.symbol], e.order.day).value.close
  }

  predicate AllOfTheirBars(inp: Input, log: seq<Event>) { forall i :: 0 <= i < |log| ==> OfItsBar(inp, log[i]) }

  lemma {:induction false} SymbolsOfTheirBars(inp: Input, symbols: seq<string>, day: int, st: State)
    requires Runnable(inp) && AllOfTheirBars(inp, st.log) && forall s :: s in symbols ==> s in inp.bars
    ensures match RunSymbols(inp, symbols, day, st)
      case Ok(next) => AllOfTheirBars(inp, next.log)
      case Err(r) => AllOfTheirBars(inp, r.log + [Executed(r.order, 0)])
    decreases |symbols|
  {
    if symbols != [] {
      match TradeSymbol(inp, symbols[0], day, st)
      case Ok(next) => SymbolsOfTheirBars(inp, symbols[1..], day, next);
      case Err(_) =>
    }
  }

  lemma {:induction false} DaysOfTheirBars(inp: Input, symbols: seq<string>, days: seq<int>, st: State)
    requires Runnable(inp) && AllOfTheirBars(inp, st.log) && forall s :: s in symbols ==> s in inp.bars
    ensures match RunDays(inp, symbols, days, st)
      case Ok(next) => AllOfTheirBars(inp, next.log)
      case Err(r) => AllOfTheirBars(inp, r.log + [Executed(r.order, 0)])
    decreases |days|
  {
    if days != [] {
      SymbolsOfTheirBars(inp, symbols, days[0], OpenLog(st, days[0]));
      match RunSymbols(inp, symbols, days[0], OpenLog(st, days[0]))
      case Ok(next) => DaysOfTheirBars(inp, symbols, days[1..], next);
      case Err(_) =>
    }
  }

  /** Every order of the replay, the refused one included, is of its symbol's bar on its day. */
  lemma OrdersAreOfTheirBars(inp: Input)
    requires Runnable(inp)
    ensures match Replay(inp)
      case Ok(end) => AllOfTheirBars(inp, end.log)
      case Err(r) => AllOfTheirBars(inp, r.log + [Executed(r.order, 0)])
  {
    DaysOfTheirBars(inp, SortedSymbols(inp.bars), SortedCalendar(inp.bars), State(map[], []));
  }

  lemma RoundDownNonNegative(q: real, lot: int)
    ensures GoRoundDownToLot(q, lot) >= 0
  {
    if lot > 0 { RoundDownIsLargestMultiple(q, lot); }
  }
}
