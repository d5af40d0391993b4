/**
 * The two replays decide alike. The Go loop interleaves all symbols day by day; the sidecar runs one
 * machine per symbol. When both get the same answers to their orders, in full, in part or refused, both
 * send the same orders up to the point where Go stops.
 */
module ReplayAlignment {
  import opened Collections
  import opened AshareRules
  import opened Signals
  import opened Market
  import opened GoReplay
  import Py = SidecarReplay

  // ---- the sidecar with same-bar answers ----

  /** How the venue answers an order on its own bar: a filled quantity, or a refusal. */
  type FillFn = Order -> Option<int>

  datatype Machine = Machine(s: Py.Sidecar, net: int)

  function PyOrder(p: Py.Params, m: Machine, bar: Bar): Option<Order>
    requires Py.Valid(p) && bar.close != 0.0
  {
    var oid := |m.s.decisions|;
    match Py.NowWorking(Py.OnBar(p, m.s, bar, m.net, oid), oid)
    case Idle => None
    case Open(_, side, qty) => Some(Order(p.symbol, DayOf(bar.moment), side, qty, bar.close))
  }

  function PyStep(p: Py.Params, fill: FillFn, m: Machine, bar: Bar): Machine
    requires Py.Valid(p) && bar.close != 0.0
  {
    var oid := |m.s.decisions|;
    var s := Py.OnBar(p, m.s, bar, m.net, oid);
    match PyOrder(p, m, bar)
    case None => Machine(s, m.net)
    case Some(o) => Answered(s, m.net, oid, o.side, fill(o))
  }

  /** A submitted order is filled, its rest being dropped, or it is refused. */
  function Answered(s: Py.Sidecar, net: int, oid: int, side: Side, answer: Option<int>): Machine {
    match answer
    case None => Machine(Py.OnRefused(s, oid), net)
    case Some(q) => Machine(Py.OnFilled(s, oid, q, side == Sell), if side == Buy then net + q else net - q)
  }

  type StepFn = (Machine, Bar) -> Machine

  type SubmitFn = (Machine, Bar) -> Option<Order>

  /** The machine's reaction to a bar, over all bars; a zero close, which raises, is not compared. */
  function PyStepOf(p: Py.Params, fill: FillFn): StepFn
    requires Py.Valid(p)
  {
    (m: Machine, bar: Bar) => if bar.close != 0.0 then PyStep(p, fill, m, bar) else m
  }

  function PyOrderOf(p: Py.Params): SubmitFn
    requires Py.Valid(p)
  {
    (m: Machine, bar: Bar) => if bar.close != 0.0 then PyOrder(p, m, bar) else None
  }

  function RunSeries(step: StepFn, m: Machine, series: seq<Bar>): Machine
    decreases |series|
  {
    if series == [] then m else RunSeries(step, step(m, series[0]), series[1..])
  }

  function Listed(o: Option<Order>): seq<Order> { if o.Some? then [o.value] else [] }

  function SeriesOrders(step: StepFn, submit: SubmitFn, m: Machine, series: seq<Bar>): seq<Order>
    decreases |series|
  {
    if series == [] then []
    else Listed(submit(m, series[0])) + SeriesOrders(step, submit, step(m, series[0]), series[1..])
  }

  /** The sidecar instance `p` over a whole series, from a flat start. */
  function PyRun(p: Py.Params, fill: FillFn, series: seq<Bar>): Machine
    requires Py.Valid(p)
  {
    RunSeries(PyStepOf(p, fill), Machine(Py.FRESH, 0), series)
  }

  function PyOrders(p: Py.Params, fill: FillFn, series: seq<Bar>): seq<Order>
    requires Py.Valid(p)
  {
    SeriesOrders(PyStepOf(p, fill), PyOrderOf(p), Machine(Py.FRESH, 0), series)
  }

  // ---- one symbol of the Go loop ----

  /** The tracker gives the common answer, or refuses and so stops the replay. */
  ghost predicate FilledAs(t: Tracker, fill: FillFn) {
    forall log, o :: t(log, o).Some? ==> t(log, o) == fill(o)
  }

  function OrdersOf(log: seq<Event>, symbol: string): seq<Order> {
    if log == [] then [] else
      var e := log[|log| - 1];
      OrdersOf(log[..|log| - 1], symbol) +
      (if e.Executed? && e.order.symbol == symbol then [e.order] else [])
  }

  /** A symbol's book, and whether an order of it was refused. */
  datatype Lane = Lane(book: Book, halted: bool)

  /** The order an opened day leads to: none once halted. */
  function Asks(today: Lane, symbol: string, day: int, price: real, signed: int): Option<Order> {
    if signed == 0 || today.halted then None else Some(OrderFor(symbol, day, price, signed))
  }

  function Closed(today: Lane, fill: FillFn, symbol: string, day: int, price: real, signed: int): Lane {
    match Asks(today, symbol, day, price, signed)
    case None => today.(book := today.book.(prevClose := Some(price)))
    case Some(o) =>
      match fill(o)
      case None => Lane(today.book.(prevClose := Some(price)), true)
      case Some(q) => Lane(Settle(today.book, o.side, q).(prevClose := Some(price)), false)
  }

  function Opened(l: Lane, day: int): Lane { l.(book := OpenDay(l.book, day)) }

  /** One calendar day of one symbol on its own: its lane afterwards, and its order if any. */
  function DayLane(inp: Input, fill: FillFn, symbol: string, day: int, l: Lane): Lane
    requires Runnable(inp) && symbol in inp.bars
  {
    match BarOn(inp.bars[symbol], day)
    case None => l
    case Some(bar) =>
      Closed(Opened(l, day), fill, symbol, day, bar.close, SignedOrder(inp, symbol, day, bar, Opened(l, day).book))
  }

  function DayOrder(inp: Input, symbol: string, day: int, l: Lane): Option<Order>
    requires Runnable(inp) && symbol in inp.bars
  {
    match BarOn(inp.bars[symbol], day)
    case None => None
    case Some(bar) =>
      Asks(Opened(l, day), symbol, day, bar.close, SignedOrder(inp, symbol, day, bar, Opened(l, day).book))
  }

  function LaneIn(st: State, symbol: string): Lane { Lane(BookOf(st, symbol), false) }

  lemma OrdersOfSnoc(log: seq<Event>, e: Event, symbol: string)
    ensures OrdersOf(log + [e], symbol) ==
      OrdersOf(log, symbol) + (if e.Executed? && e.order.symbol == symbol then [e.order] else [])
  {
    assert (log + [e])[..|log|] == log;
  }

  /** The orders of a symbol that a stopped replay sent, the refused one included. */
  function SentBy(r: Refusal, symbol: string): seq<Order> {
    OrdersOf(r.log, symbol) + (if r.order.symbol == symbol then [r.order] else [])
  }

  /** A step left the symbol at `lane` with the order `asked`, or it stopped the replay before or after that order. */
  predicate StepSeen(result: Result<State, Refusal>, st: State, symbol: string, lane: Lane, asked: Option<Order>) {
    match result
    case Ok(next) =>
      LaneIn(next, symbol) == lane && OrdersOf(next.log, symbol) == OrdersOf(st.log, symbol) + Listed(asked)
    case Err(r) =>
      && (SentBy(r, symbol) == OrdersOf(st.log, symbol) || SentBy(r, symbol) == OrdersOf(st.log, symbol) + Listed(asked))
      && (r.order.symbol == symbol ==> asked == Some(r.order) && SentBy(r, symbol) == OrdersOf(st.log, symbol) + [r.order])
  }

  /** Trading one symbol moves that symbol's lane and orders, and no other symbol's. */
  lemma SymbolStep(inp: Input, fill: FillFn, traded: string, day: int, st: State, symbol: string)
    requires Runnable(inp) && FilledAs(inp.tracker, fill) && traded in inp.bars && symbol in inp.bars
    ensures var l := LaneIn(st, symbol);
      StepSeen(TradeSymbol(inp, traded, day, st), st, symbol,
               if traded == symbol then DayLane(inp, fill, symbol, day, l) else l,
               if traded == symbol then DayOrder(inp, symbol, day, l) else None)
  {
    match BarOn(inp.bars[traded], day)
    case None =>
    case Some(bar) =>
      var b := OpenDay(BookOf(st, traded), day);
      var signed := SignedOrder(inp, traded, day, bar, b);
      PlaceSeen(inp.tracker, fill, traded, day, bar.close, b, signed, st, symbol);
  }

  lemma PlaceSeen(t: Tracker, fill: FillFn, traded: string, day: int, price: real, b: Book, signed: int, st: State, symbol: string)
    requires FilledAs(t, fill)
    ensures StepSeen(Place(t, traded, day, price, b, signed, st), st, symbol,
                     if traded == symbol then Closed(Lane(b, false), fill, symbol, day, price, signed) else LaneIn(st, symbol),
                     if traded == symbol then Asks(Lane(b, false), symbol, day, price, signed) else None)
  {
    var o := OrderFor(traded, day, price, signed);
    var answer := t(st.log, o);
    if signed != 0 && answer.Some? { OrdersOfSnoc(st.log, Executed(o, answer.value), symbol); }
  }

  predicate Distinct(symbols: seq<string>) { forall i, j :: 0 <= i < j < |symbols| ==> symbols[i] != symbols[j] }

  /** A pass over the symbols reaches each of them once. */
  lemma {:induction false} SymbolsStep(inp: Input, fill: FillFn, symbols: seq<string>, day: int, st: State, symbol: string)
    requires Runnable(inp) && FilledAs(inp.tracker, fill) && symbol in inp.bars
    requires Distinct(symbols) && forall s :: s in symbols ==> s in inp.bars
    ensures var l := LaneIn(st, symbol);
      StepSeen(RunSymbols(inp, symbols, day, st), st, symbol,
               if symbol in symbols then DayLane(inp, fill, symbol, day, l) else l,
               if symbol in symbols then DayOrder(inp, symbol, day, l) else None)
    decreases |symbols|
  {
    if symbols != [] {
      SymbolStep(inp, fill, symbols[0], day, st, symbol);
      assert symbol in symbols <==> symbol == symbols[0] || symbol in symbols[1..];
      match TradeSymbol(inp, symbols[0], day, st)
      case Err(_) =>
      case Ok(mid) => SymbolsStep(inp, fill, symbols[1..], day, mid, symbol);
    }
  }

  type LaneFn = (int, Lane) -> Lane

  type OrderFn = (int, Lane) -> Option<Order>

  /** What one calendar day does to a symbol's lane, and the order it sends. */
  function GoLane(inp: Input, fill: FillFn, symbol: string): LaneFn
    requires Runnable(inp) && symbol in inp.bars
  {
    (day: int, l: Lane) => DayLane(inp, fill, symbol, day, l)
  }

  function GoOrder(inp: Input, symbol: string): OrderFn
    requires Runnable(inp) && symbol in inp.bars
  {
    (day: int, l: Lane) => DayOrder(inp, symbol, day, l)
  }

  function DaysLane(lane: LaneFn, days: seq<int>, l: Lane): Lane {
    if days == [] then l else DaysLane(lane, days[1..], lane(days[0], l))
  }

  function DaysOrders(lane: LaneFn, order: OrderFn, days: seq<int>, l: Lane): seq<Order> {
    if days == [] then [] else Listed(order(days[0], l)) + DaysOrders(lane, order, days[1..], lane(days[0], l))
  }

  /** One symbol sees every day as `lane` and `order` of its own lane. */
  ghost predicate SeenAs(inp: Input, symbols: seq<string>, symbol: string, lane: LaneFn, order: OrderFn)
    requires Runnable(inp) && forall s :: s in symbols ==> s in inp.bars
  {
    forall day, st :: StepSeen(RunSymbols(inp, symbols, day, st), st, symbol,
                               lane(day, LaneIn(st, symbol)), order(day, LaneIn(st, symbol)))
  }

  /** A refused order halts the lane, and a halted lane asks for nothing more. */
  ghost predicate HaltsWith(fill: FillFn, lane: LaneFn, order: OrderFn) {
    && (forall day: int, l: Lane :: l.halted ==> order(day, l) == None)
    && (forall day: int, l: Lane :: l.halted ==> lane(day, l).halted)
    && (forall day, l: Lane :: order(day, l).Some? && fill(order(day, l).value) == None ==> lane(day, l).halted)
  }

  lemma LoopIsSeen(inp: Input, fill: FillFn, symbols: seq<string>, symbol: string)
    requires Runnable(inp) && FilledAs(inp.tracker, fill) && symbol in symbols
    requires Distinct(symbols) && forall s :: s in symbols ==> s in inp.bars
    ensures SeenAs(inp, symbols, symbol, GoLane(inp, fill, symbol), GoOrder(inp, symbol))
    ensures HaltsWith(fill, GoLane(inp, fill, symbol), GoOrder(inp, symbol))
  {
    forall day, st
      ensures StepSeen(RunSymbols(inp, symbols, day, st), st, symbol,
                       GoLane(inp, fill, symbol)(day, LaneIn(st, symbol)), GoOrder(inp, symbol)(day, LaneIn(st, symbol)))
    {
      SymbolsStep(inp, fill, symbols, day, st, symbol);
    }
  }

  lemma HaltedDay(fill: FillFn, lane: LaneFn, order: OrderFn, day: int, l: Lane)
    requires HaltsWith(fill, lane, order) && l.halted
    ensures order(day, l) == None && lane(day, l).halted
  {
  }

  lemma {:induction false} HaltedIsQuiet(fill: FillFn, lane: LaneFn, order: OrderFn, days: seq<int>, l: Lane)
    requires HaltsWith(fill, lane, order) && l.halted
    ensures DaysOrders(lane, order, days, l) == []
    decreases |days|
  {
    if days != [] {
      HaltedDay(fill, lane, order, days[0], l);
      HaltedIsQuiet(fill, lane, order, days[1..], lane(days[0], l));
    }
  }

  /**
   * A run left the symbol at `lane` with `orders` sent; or it stopped with a first part of them sent, and
   * with all of them when it was this symbol's order that the venue refused.
   */
  predicate RunSeen(result: Result<State, Refusal>, st: State, symbol: string, fill: FillFn, lane: Lane, orders: seq<Order>) {
    match result
    case Ok(end) => LaneIn(end, symbol) == lane && OrdersOf(end.log, symbol) == OrdersOf(st.log, symbol) + orders
    case Err(r) =>
      && SentBy(r, symbol) <= OrdersOf(st.log, symbol) + orders
      && (r.order.symbol == symbol && fill(r.order) == None ==> SentBy(r, symbol) == OrdersOf(st.log, symbol) + orders)
  }

  /** The interleaved loop, seen from one symbol, is that symbol alone over the calendar. */
  lemma {:induction false} LoopProjects(inp: Input, fill: FillFn, symbols: seq<string>, days: seq<int>, st: State,
                                        symbol: string, lane: LaneFn, order: OrderFn)
    requires Runnable(inp) && (forall s :: s in symbols ==> s in inp.bars)
    requires SeenAs(inp, symbols, symbol, lane, order) && HaltsWith(fill, lane, order)
    ensures var l := LaneIn(st, symbol);
      RunSeen(RunDays(inp, symbols, days, st), st, symbol, fill, DaysLane(lane, days, l), DaysOrders(lane, order, days, l))
    decreases |days|
  {
    if days != [] {
      var morning, l := OpenLog(st, days[0]), LaneIn(st, symbol);
      var asked, next := order(days[0], l), lane(days[0], l);
      var rest := DaysOrders(lane, order, days[1..], next);
      OrdersOfSnoc(st.log, DayOpened(days[0]), symbol);
      assert LaneIn(morning, symbol) == l && OrdersOf(morning.log, symbol) == OrdersOf(st.log, symbol);
      assert StepSeen(RunSymbols(inp, symbols, days[0], morning), morning, symbol, next, asked);
      Regroup(OrdersOf(st.log, symbol), Listed(asked), rest);
      match RunSymbols(inp, symbols, days[0], morning)
      case Err(r) =>
        if r.order.symbol == symbol && fill(r.order) == None { HaltedIsQuiet(fill, lane, order, days[1..], next); }
      case Ok(mid) =>
        LoopProjects(inp, fill, symbols, days[1..], mid, symbol, lane, order);
    }
  }

  // ---- one symbol: Go book against Python machine ----

  /** The parameters the sidecar instance of a symbol gets: its share of the capital, the same rows. */
  function ParamsFor(inp: Input, symbol: string): Py.Params
    requires inp.bars != map[] && NormaliseAll(inp.rows).Some?
  {
    Py.Params(symbol, StableSort(NormaliseAll(inp.rows).value), inp.cfg.(capital := Share(inp)))
  }

  /** Inputs on which the sidecar does not raise, with rows that both lookups read alike. */
  predicate Comparable(inp: Input) {
    && Runnable(inp) && NormaliseAll(inp.rows).Some? && Standing(inp.rows)
    && inp.cfg.lot > 0 && inp.cfg.dMax > 0.0
    && forall s :: s in inp.bars ==> forall i :: 0 <= i < |inp.bars[s]| ==> inp.bars[s][i].close != 0.0
  }

  lemma ParamsAreValid(inp: Input, symbol: string)
    requires Comparable(inp)
    ensures Py.Valid(ParamsFor(inp, symbol))
  {
    StableSortIsStable(NormaliseAll(inp.rows).value);
  }

  /** What a machine and its position have in common with a Go book. */
  function Core(m: Machine): Book {
    Book(m.s.prevClose, m.s.day, m.s.sellable, m.s.tradedToday, m.net)
  }

  predicate Same(l: Lane, m: Machine) { l == Lane(Core(m), m.s.halted) }

  function Signed(plan: Py.Plan): int {
    match plan
    case Skip(_) => 0
    case Trade(Buy, qty) => qty
    case Trade(Sell, qty) => -qty
  }

  /** The two decision rules ask for the same quantity. */
  lemma PlansAgree(p: Py.Params, s: Py.Sidecar, prev: Option<real>, bar: Bar, delta: int, b: Book)
    requires Py.Valid(p)
    requires b.prevClose == prev && b.sellable == s.sellable && b.traded == s.tradedToday
    ensures Signed(Py.PlanGap(p, s, prev, bar, delta)) == Wanted(p.cfg, bar, delta, b)
    ensures Py.PlanGap(p, s, prev, bar, delta).Trade? ==> Py.PlanGap(p, s, prev, bar, delta).qty > 0
  {
    if prev.Some? { LimitPricesAgree(prev.value, p.cfg.limitRate); }
    var budget := GoParticipationCap(bar.volume, p.cfg.dMax) - b.traded;
    RoundDownShares(Min(delta, budget), p.cfg.lot);
    RoundDownShares(Min(delta, Max(0, budget)), p.cfg.lot);
  }

  lemma LookupsMatch(inp: Input, symbol: string, moment: int)
    requires Comparable(inp)
    ensures var l := LastMatch(ParamsFor(inp, symbol).stream, symbol, moment);
      WeightOn(inp.rows, symbol, DayOf(moment)) == if l.Some? then Some(l.value.weight) else None
  {
    WeightsAgree(inp.rows, symbol, moment);
  }

  /** The signed quantity the machine submits on a bar, when not halted. */
  function PySigned(p: Py.Params, m: Machine, bar: Bar): int
    requires Py.Valid(p) && bar.close != 0.0
  {
    match LastMatch(p.stream, p.symbol, bar.moment)
    case None => 0
    case Some(signal) =>
      var rolled := Py.Roll(m.s, DayOf(bar.moment), m.net).(prevClose := Some(bar.close));
      Signed(Py.PlanGap(p, rolled, m.s.prevClose, bar, Py.TargetQty(p, signal.weight, bar.close) - m.net))
  }

  lemma CarryFacts(s: Py.Sidecar, day: int, target: int, net: int, plan: Py.Plan, oid: int)
    requires plan.Skip? ==> plan.reason != Py.Submitted
    ensures var t := Py.Carry(s, day, target, net, plan, oid);
      && t.decisions != []
      && t == s.(decisions := t.decisions, pending := t.pending)
      && Py.NowWorking(t, oid) == if plan.Trade? && !s.halted then Py.Open(oid, plan.side, plan.qty) else Py.Idle
  {
  }

  lemma PlanFacts(p: Py.Params, s: Py.Sidecar, prev: Option<real>, bar: Bar, delta: int)
    requires Py.Valid(p)
    ensures var plan := Py.PlanGap(p, s, prev, bar, delta);
      if plan.Skip? then plan.reason != Py.Submitted else plan.qty > 0
  {
    Py.PlanIsSafe(p, s, prev, bar, delta);
  }

  /** The answer to a plan acts on the core as it acts on a lane. */
  lemma AnswerActs(s: Py.Sidecar, net: int, oid: int, plan: Py.Plan, fill: FillFn, symbol: string, day: int, price: real, b: Book)
    requires plan.Trade? && plan.qty > 0 && !s.halted && b.(prevClose := Some(price)) == Core(Machine(s, net))
    ensures var o := Order(symbol, day, plan.side, plan.qty, price);
      && OrderFor(symbol, day, price, Signed(plan)) == o
      && Same(Closed(Lane(b, false), fill, symbol, day, price, Signed(plan)), Answered(s, net, oid, plan.side, fill(o)))
  {
  }

  /** A bar with its answer acts on the machine as an opened day and its order act on a lane. */
  lemma PyBarActs(p: Py.Params, fill: FillFn, m: Machine, bar: Bar)
    requires Py.Valid(p) && bar.close != 0.0
    ensures var day := DayOf(bar.moment);
      var today := Opened(Lane(Core(m), m.s.halted), day);
      var signed := PySigned(p, m, bar);
      && PyOrder(p, m, bar) == Asks(today, p.symbol, day, bar.close, signed)
      && Same(Closed(today, fill, p.symbol, day, bar.close, signed), PyStep(p, fill, m, bar))
  {
    var day := DayOf(bar.moment);
    var rolled := Py.Roll(m.s, day, m.net).(prevClose := Some(bar.close));
    assert Core(Machine(rolled, m.net)) == OpenDay(Core(m), day).(prevClose := Some(bar.close));
    match LastMatch(p.stream, p.symbol, bar.moment)
    case None =>
    case Some(signal) =>
      var target := Py.TargetQty(p, signal.weight, bar.close);
      var plan := Py.PlanGap(p, rolled, m.s.prevClose, bar, target - m.net);
      PlanFacts(p, rolled, m.s.prevClose, bar, target - m.net);
      CarryFacts(rolled, day, target, m.net, plan, |m.s.decisions|);
      if plan.Trade? && !m.s.halted {
        AnswerActs(Py.Carry(rolled, day, target, m.net, plan, |m.s.decisions|), m.net, |m.s.decisions|, plan,
                   fill, p.symbol, day, bar.close, OpenDay(Core(m), day));
      }
  }

  lemma WantedIgnoresCapital(a: Config, b: Config, bar: Bar, delta: int, book: Book)
    requires b == a.(capital := b.capital)
    ensures Wanted(a, bar, delta, book) == Wanted(b, bar, delta, book)
  {
  }

  lemma TargetsAgree(inp: Input, symbol: string, weight: real, price: real)
    requires Comparable(inp) && price != 0.0
    ensures Py.Valid(ParamsFor(inp, symbol))
    ensures Target(inp.cfg, Share(inp), weight, price) == Py.TargetQty(ParamsFor(inp, symbol), weight, price)
  {
    ParamsAreValid(inp, symbol);
    var p := ParamsFor(inp, symbol);
    assert p.cfg.capital == Share(inp) && p.cfg.lot == inp.cfg.lot;
  }

  /** On related states both sides ask for the same signed quantity. */
  lemma SignedAgree(inp: Input, symbol: string, bar: Bar, m: Machine)
    requires Comparable(inp) && symbol in inp.bars && bar.close != 0.0
    ensures Py.Valid(ParamsFor(inp, symbol))
    ensures SignedOrder(inp, symbol, DayOf(bar.moment), bar, OpenDay(Core(m), DayOf(bar.moment)))
         == PySigned(ParamsFor(inp, symbol), m, bar)
  {
    var p, day := ParamsFor(inp, symbol), DayOf(bar.moment);
    ParamsAreValid(inp, symbol);
    LookupsMatch(inp, symbol, bar.moment);
    match LastMatch(p.stream, symbol, bar.moment)
    case None =>
    case Some(signal) =>
      TargetsAgree(inp, symbol, signal.weight, bar.close);
      var today := OpenDay(Core(m), day);
      var rolled := Py.Roll(m.s, day, m.net).(prevClose := Some(bar.close));
      var delta := Target(inp.cfg, Share(inp), signal.weight, bar.close) - m.net;
      PlansAgree(p, rolled, m.s.prevClose, bar, delta, today);
      WantedIgnoresCapital(inp.cfg, p.cfg, bar, delta, today);
  }

  /** One bar: same order on both sides, and the same state after its answer. */
  lemma BarsAgree(inp: Input, fill: FillFn, symbol: string, bar: Bar, l: Lane, m: Machine)
    requires Comparable(inp) && symbol in inp.bars && bar.close != 0.0 && Same(l, m)
    requires BarOn(inp.bars[symbol], DayOf(bar.moment)) == Some(bar)
    ensures Py.Valid(ParamsFor(inp, symbol))
    ensures GoOrder(inp, symbol)(DayOf(bar.moment), l) == PyOrder(ParamsFor(inp, symbol), m, bar)
    ensures Same(GoLane(inp, fill, symbol)(DayOf(bar.moment), l), PyStep(ParamsFor(inp, symbol), fill, m, bar))
  {
    SignedAgree(inp, symbol, bar, m);
    PyBarActs(ParamsFor(inp, symbol), fill, m, bar);
  }

  // ---- calendar and series ----

  predicate Daily(series: seq<Bar>) {
    forall i, j :: 0 <= i < j < |series| ==> DayOf(series[i].moment) < DayOf(series[j].moment)
  }

  predicate Increasing(days: seq<int>) { forall i, j :: 0 <= i < j < |days| ==> days[i] < days[j] }

  /** In a daily series the bar of a day is the first bar not dated before it, or there is none. */
  lemma {:induction false} BarOnDaily(series: seq<Bar>, j: nat, day: int)
    requires Daily(series) && j <= |series|
    requires forall i :: 0 <= i < j ==> DayOf(series[i].moment) < day
    requires forall i :: j <= i < |series| ==> DayOf(series[i].moment) >= day
    ensures BarOn(series, day) == if j < |series| && DayOf(series[j].moment) == day then Some(series[j]) else None
    decreases |series|
  {
    if series != [] && DayOf(series[0].moment) != day {
      var rest := series[1..];
      if j > 0 {
        forall i | 0 <= i < j - 1 ensures DayOf(rest[i].moment) < day { assert rest[i] == series[i + 1]; }
        forall i | j - 1 <= i < |rest| ensures DayOf(rest[i].moment) >= day { assert rest[i] == series[i + 1]; }
        BarOnDaily(rest, j - 1, day);
      } else {
        forall i | 0 <= i < |rest| ensures DayOf(rest[i].moment) >= day { assert rest[i] == series[i + 1]; }
        BarOnDaily(rest, 0, day);
      }
    }
  }

  lemma {:induction false} AscendingIntsIncrease(days: set<int>)
    ensures Increasing(AscendingInts(days))
    decreases |days|
  {
    if days != {} {
      var m := MaxOf(days);
      AscendingIntsIncrease(days - {m});
      var init := AscendingInts(days - {m});
      forall i | 0 <= i < |init| ensures init[i] < m { assert init[i] in init; }
    }
  }

  lemma {:induction false} AscendingSymbolsDistinct(symbols: set<string>)
    ensures Distinct(AscendingSymbols(symbols))
    decreases |symbols|
  {
    if symbols != {} {
      var m := LastSymbol(symbols);
      AscendingSymbolsDistinct(symbols - {m});
      var init := AscendingSymbols(symbols - {m});
      forall i | 0 <= i < |init| ensures init[i] != m { assert init[i] in init; }
    }
  }

  /** The calendar visits the bars in order: both sides agree on a bar's day, other days change nothing. */
  ghost predicate Lockstep(rest: seq<Bar>, days: seq<int>, lane: LaneFn, order: OrderFn, step: StepFn, submit: SubmitFn)
    decreases |days|
  {
    if days == [] then rest == []
    else if rest != [] && DayOf(rest[0].moment) == days[0] then
      && (forall l, m :: Same(l, m) ==>
            order(days[0], l) == submit(m, rest[0]) && Same(lane(days[0], l), step(m, rest[0])))
      && Lockstep(rest[1..], days[1..], lane, order, step, submit)
    else
      && (forall l :: order(days[0], l) == None && lane(days[0], l) == l)
      && Lockstep(rest, days[1..], lane, order, step, submit)
  }

  /** In lockstep from related states: the same orders, and related states at the end. */
  lemma {:induction false} LockstepAgrees(rest: seq<Bar>, days: seq<int>, lane: LaneFn, order: OrderFn,
                                          step: StepFn, submit: SubmitFn, l: Lane, m: Machine)
    requires Lockstep(rest, days, lane, order, step, submit) && Same(l, m)
    ensures DaysOrders(lane, order, days, l) == SeriesOrders(step, submit, m, rest)
    ensures Same(DaysLane(lane, days, l), RunSeries(step, m, rest))
    decreases |days|
  {
    if days != [] {
      if rest != [] && DayOf(rest[0].moment) == days[0] {
        LockstepAgrees(rest[1..], days[1..], lane, order, step, submit, lane(days[0], l), step(m, rest[0]));
      } else {
        LockstepAgrees(rest, days[1..], lane, order, step, submit, l, m);
      }
    }
  }

  lemma BarDayAgrees(inp: Input, fill: FillFn, symbol: string, j: nat)
    requires Comparable(inp) && symbol in inp.bars && Daily(inp.bars[symbol]) && j < |inp.bars[symbol]|
    ensures Py.Valid(ParamsFor(inp, symbol))
    ensures var bar := inp.bars[symbol][j]; var p := ParamsFor(inp, symbol);
      forall l, m :: Same(l, m) ==>
        && GoOrder(inp, symbol)(DayOf(bar.moment), l) == PyOrderOf(p)(m, bar)
        && Same(GoLane(inp, fill, symbol)(DayOf(bar.moment), l), PyStepOf(p, fill)(m, bar))
  {
    var bar, p := inp.bars[symbol][j], ParamsFor(inp, symbol);
    ParamsAreValid(inp, symbol);
    BarOnDaily(inp.bars[symbol], j, DayOf(bar.moment));
    forall l, m | Same(l, m)
      ensures GoOrder(inp, symbol)(DayOf(bar.moment), l) == PyOrderOf(p)(m, bar)
      ensures Same(GoLane(inp, fill, symbol)(DayOf(bar.moment), l), PyStepOf(p, fill)(m, bar))
    {
      BarsAgree(inp, fill, symbol, bar, l, m);
    }
  }

  lemma IdleDayAgrees(inp: Input, fill: FillFn, symbol: string, day: int)
    requires Runnable(inp) && symbol in inp.bars
    requires forall i :: 0 <= i < |inp.bars[symbol]| ==> DayOf(inp.bars[symbol][i].moment) != day
    ensures forall l :: GoOrder(inp, symbol)(day, l) == None && GoLane(inp, fill, symbol)(day, l) == l
  {
    BarOnIn(inp.bars[symbol], day);
  }

  lemma {:induction false} GoIsInLockstep(inp: Input, fill: FillFn, symbol: string, days: seq<int>, j: nat)
    requires Comparable(inp) && symbol in inp.bars && Daily(inp.bars[symbol]) && j <= |inp.bars[symbol]|
    requires Ahead(inp.bars[symbol], j, days)
    ensures Py.Valid(ParamsFor(inp, symbol))
    ensures Lockstep(inp.bars[symbol][j..], days, GoLane(inp, fill, symbol), GoOrder(inp, symbol),
                     PyStepOf(ParamsFor(inp, symbol), fill), PyOrderOf(ParamsFor(inp, symbol)))
    decreases |days|
  {
    var series := inp.bars[symbol];
    ParamsAreValid(inp, symbol);
    NoBarsLeft(series, j, days);
    if days != [] {
      SeriesTail(series, j, days);
      if OnDay(series, j, days[0]) {
        assert series[j..][0] == series[j] && series[j..][1..] == series[j + 1..];
        BarDayAgrees(inp, fill, symbol, j);
        GoIsInLockstep(inp, fill, symbol, days[1..], j + 1);
      } else {
        IdleDayAgrees(inp, fill, symbol, days[0]);
        GoIsInLockstep(inp, fill, symbol, days[1..], j);
      }
    }
  }

  /** The first j bars are dated before the days to come, and the other bars on them. */
  predicate Ahead(series: seq<Bar>, j: nat, days: seq<int>) {
    && j <= |series| && Increasing(days)
    && (forall i, k :: 0 <= i < j && 0 <= k < |days| ==> DayOf(series[i].moment) < days[k])
    && (forall i :: j <= i < |series| ==> DayOf(series[i].moment) in days)
  }

  lemma NoBarsLeft(series: seq<Bar>, j: nat, days: seq<int>)
    requires Ahead(series, j, days)
    ensures days == [] ==> j == |series|
  {
    if j < |series| { assert DayOf(series[j].moment) in days; }
  }

  predicate OnDay(series: seq<Bar>, j: nat, day: int) { j < |series| && DayOf(series[j].moment) == day }

  lemma InTail(days: seq<int>, x: int)
    requires x in days && days != [] && x != days[0]
    ensures x in days[1..]
  {
    assert days == [days[0]] + days[1..];
  }

  /** No remaining bar but the next can be on the first day to come. */
  lemma OtherBarsLater(series: seq<Bar>, j: nat, days: seq<int>, i: nat)
    requires Daily(series) && days != [] && Ahead(series, j, days) && i < |series|
    requires !OnDay(series, i, days[0]) || i != j
    ensures DayOf(series[i].moment) != days[0]
  {
    if j < i {
      assert DayOf(series[j].moment) < DayOf(series[i].moment);
      var k :| 0 <= k < |days| && days[k] == DayOf(series[j].moment);
    }
  }

  /** Dropping the first calendar day keeps the remaining bars on the remaining days. */
  lemma SeriesTail(series: seq<Bar>, j: nat, days: seq<int>)
    requires Daily(series) && days != [] && Ahead(series, j, days)
    ensures Ahead(series, if OnDay(series, j, days[0]) then j + 1 else j, days[1..])
    ensures !OnDay(series, j, days[0]) ==> forall i :: 0 <= i < |series| ==> DayOf(series[i].moment) != days[0]
  {
    var used := if OnDay(series, j, days[0]) then j + 1 else j;
    forall i | 0 <= i < |series| && (i != j || used == j) ensures DayOf(series[i].moment) != days[0] {
      OtherBarsLater(series, j, days, i);
    }
    forall i | used <= i < |series| ensures DayOf(series[i].moment) in days[1..] {
      InTail(days, DayOf(series[i].moment));
    }
  }

  const START := Lane(GoReplay.FRESH, false)

  /** The Go side of the alignment: for each symbol the replay is its own days in turn, or a first part of them. */
  lemma GoSide(inp: Input, fill: FillFn, symbol: string)
    requires Runnable(inp) && FilledAs(inp.tracker, fill) && symbol in inp.bars
    ensures var days, lane, order := SortedCalendar(inp.bars), GoLane(inp, fill, symbol), GoOrder(inp, symbol);
      RunSeen(Replay(inp), State(map[], []), symbol, fill, DaysLane(lane, days, START), DaysOrders(lane, order, days, START))
  {
    var symbols, days := SortedSymbols(inp.bars), SortedCalendar(inp.bars);
    AscendingSymbolsDistinct(inp.bars.Keys);
    LoopIsSeen(inp, fill, symbols, symbol);
    LoopProjects(inp, fill, symbols, days, State(map[], []), symbol, GoLane(inp, fill, symbol), GoOrder(inp, symbol));
  }

  lemma CalendarCovers(bars: map<string, seq<Bar>>, symbol: string)
    requires symbol in bars
    ensures Ahead(bars[symbol], 0, SortedCalendar(bars))
  {
    AscendingIntsIncrease(CalendarSet(bars));
  }

  /** The sidecar side: those days are the orders and the end state of the instance. */
  lemma SidecarSide(inp: Input, fill: FillFn, symbol: string)
    requires Comparable(inp) && symbol in inp.bars && Daily(inp.bars[symbol])
    ensures Py.Valid(ParamsFor(inp, symbol))
    ensures var days, lane, order := SortedCalendar(inp.bars), GoLane(inp, fill, symbol), GoOrder(inp, symbol);
      && DaysOrders(lane, order, days, START) == PyOrders(ParamsFor(inp, symbol), fill, inp.bars[symbol])
      && Same(DaysLane(lane, days, START), PyRun(ParamsFor(inp, symbol), fill, inp.bars[symbol]))
  {
    var p := ParamsFor(inp, symbol);
    CalendarCovers(inp.bars, symbol);
    GoIsInLockstep(inp, fill, symbol, SortedCalendar(inp.bars), 0);
    assert inp.bars[symbol][0..] == inp.bars[symbol];
    LockstepAgrees(inp.bars[symbol], SortedCalendar(inp.bars), GoLane(inp, fill, symbol), GoOrder(inp, symbol),
                   PyStepOf(p, fill), PyOrderOf(p), START, Machine(Py.FRESH, 0));
  }

  /**
   * Alignment, for every symbol with one bar a day and any common answers to orders, partial fills included.
   * A completed Go replay sent the orders of the sidecar instance with the symbol's share of the capital, and
   * both end in the same state. A stopped one, its refused order included, sent a first part of them, and all
   * of them when the sidecar has that order refused too.
   */
  lemma ReplaysAlign(inp: Input, fill: FillFn, symbol: string)
    requires Comparable(inp) && FilledAs(inp.tracker, fill)
    requires symbol in inp.bars && Daily(inp.bars[symbol])
    ensures Py.Valid(ParamsFor(inp, symbol))
    ensures Replay(inp).Ok? ==>
      && OrdersOf(Replay(inp).value.log, symbol) == PyOrders(ParamsFor(inp, symbol), fill, inp.bars[symbol])
      && Same(LaneIn(Replay(inp).value, symbol), PyRun(ParamsFor(inp, symbol), fill, inp.bars[symbol]))
    ensures Replay(inp).Err? ==>
      && SentBy(Replay(inp).error, symbol) <= PyOrders(ParamsFor(inp, symbol), fill, inp.bars[symbol])
      && (Replay(inp).error.order.symbol == symbol && fill(Replay(inp).error.order) == None ==>
            SentBy(Replay(inp).error, symbol) == PyOrders(ParamsFor(inp, symbol), fill, inp.bars[symbol]))
  {
    GoSide(inp, fill, symbol);
    SidecarSide(inp, fill, symbol);
    var orders := PyOrders(ParamsFor(inp, symbol), fill, inp.bars[symbol]);
    assert OrdersOf([], symbol) + orders == orders;
  }

  lemma {:induction false} SymbolsNeverRefused(inp: Input, symbols: seq<string>, day: int, st: State)
    requires Runnable(inp) && FullFills(inp.tracker) && forall s :: s in symbols ==> s in inp.bars
    ensures RunSymbols(inp, symbols, day, st).Ok?
    decreases |symbols|
  {
    if symbols != [] {
      SymbolsNeverRefused(inp, symbols[1..], day, TradeSymbol(inp, symbols[0], day, st).value);
    }
  }

  lemma {:induction false} DaysNeverRefused(inp: Input, symbols: seq<string>, days: seq<int>, st: State)
    requires Runnable(inp) && FullFills(inp.tracker) && forall s :: s in symbols ==> s in inp.bars
    ensures RunDays(inp, symbols, days, st).Ok?
    decreases |days|
  {
    if days != [] {
      SymbolsNeverRefused(inp, symbols, days[0], OpenLog(st, days[0]));
      DaysNeverRefused(inp, symbols, days[1..], RunSymbols(inp, symbols, days[0], OpenLog(st, days[0])).value);
    }
  }

  /** With full fills the Go replay always completes, so alignment is unconditional. */
  lemma FullFillsComplete(inp: Input)
    requires Runnable(inp) && FullFills(inp.tracker)
    ensures Replay(inp).Ok? && FilledAs(inp.tracker, (o: Order) => Some(o.qty))
  {
    DaysNeverRefused(inp, SortedSymbols(inp.bars), SortedCalendar(inp.bars), State(map[], []));
  }
}
