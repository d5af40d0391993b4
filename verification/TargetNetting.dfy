/**
 * Daily signal processing in the engine: orders are netted against the tracker's real holdings, while
 * `TargetPositions` is a visible account beside them. Tracker, execution service, position sizing and
 * the exec-algo dispatcher are unseen: deterministic oracles over everything that happened before.
 */
module TargetNetting {
  import opened Collections

  datatype Direction = Long | Short | Close | Hold

  datatype OrderType = Market | Limit | Stop | Trailing

  datatype Signal = Signal(symbol: string, direction: Direction, date: int, orderType: OrderType, limitPrice: real)

  datatype Ask =
    | Direct(symbol: string, direction: Direction, orderType: OrderType, limitPrice: real, qty: real, day: int)
    | ViaService(symbol: string, direction: Direction, orderType: OrderType, limitPrice: real, qty: real, day: int)
    | CloseAll(symbol: string, day: int)

  datatype Event =
    | Asked(ask: Ask, filled: Option<real>)
    | Parent(signal: Signal, qty: real, day: int)
    | External(symbol: string, qty: real)

  datatype Attachment = NotAttached | Attached | AttachFailed

  type Positions = map<string, real>

  datatype Env = Env(
    execute: (seq<Event>, Positions, Ask) -> Option<real>,
    sizeAll: (seq<Event>, Positions, seq<Signal>, int) -> Option<map<string, real>>,
    sizeOne: (seq<Event>, Positions, Signal, int) -> Option<real>,
    attach: (seq<Event>, Signal, real, int) -> Attachment,
    hasAlgo: bool,
    hasService: bool,
    price: (string, int) -> real,
    limitUp: (string, int) -> bool,
    limitDown: (string, int) -> bool)

  /** What the tracker knows. It does not include the target positions. */
  datatype World = World(positions: Positions, log: seq<Event>)

  function Pos(w: World, symbol: string): real { if symbol in w.positions then w.positions[symbol] else 0.0 }

  /** `heldQty`: a missing or short position counts as nothing held. */
  function Held(w: World, symbol: string): real { if Pos(w, symbol) < 0.0 then 0.0 else Pos(w, symbol) }

  predicate Opens(d: Direction) { d == Long || d == Short }

  /** `computeEffectiveTarget`: -1 when nothing is to be ordered. */
  function Effective(w: World, symbol: string, target: real, d: Direction): real {
    if !Opens(d) then target
    else if target - Held(w, symbol) <= 0.0 then -1.0
    else target - Held(w, symbol)
  }

  // ---- reference: what happens to the tracker, without any target positions ----

  function Moved(p: real, d: Direction, filled: real): real {
    match d
    case Long => p + filled
    case Short => p - filled
    case Close => if p > 0.0 then p - filled else p + filled
    case Hold => p
  }

  function DirectionOf(a: Ask): Direction { if a.CloseAll? then Close else a.direction }

  function Send(env: Env, w: World, a: Ask): World {
    var filled := env.execute(w.log, w.positions, a);
    var log := w.log + [Asked(a, filled)];
    if filled.None? then World(w.positions, log)
    else World(w.positions[a.symbol := Moved(Pos(w, a.symbol), DirectionOf(a), filled.value)], log)
  }

  /** A Close goes to the service with the sized quantity and its order type, but straight to the tracker as a full close. */
  function AskFor(env: Env, s: Signal, qty: real, day: int): Ask {
    if env.hasService then ViaService(s.symbol, s.direction, s.orderType, s.limitPrice, qty, day)
    else if s.direction == Close then CloseAll(s.symbol, day)
    else Direct(s.symbol, s.direction, s.orderType, s.limitPrice, qty, day)
  }

  function AttachOf(env: Env, w: World, s: Signal, qty: real, day: int): Attachment {
    if env.hasAlgo then env.attach(w.log, s, qty, day) else NotAttached
  }

  function TradeSignal(env: Env, w: World, s: Signal, qty: real, day: int): World {
    if env.price(s.symbol, day) <= 0.0 then w
    else if AttachOf(env, w, s, qty, day) != NotAttached then w.(log := w.log + [Parent(s, qty, day)])
    else if s.direction == Hold then w
    else Send(env, w, AskFor(env, s, qty, day))
  }

  function HandleSignal(env: Env, w: World, s: Signal, size: real, day: int): World {
    if size <= 0.0 || Effective(w, s.symbol, size, s.direction) <= 0.0 then w
    else TradeSignal(env, w, s, Effective(w, s.symbol, size, s.direction), day)
  }

  predicate Blocked(env: Env, s: Signal, day: int) {
    (env.limitUp(s.symbol, day) && Opens(s.direction)) || (env.limitDown(s.symbol, day) && s.direction == Close)
  }

  /** The batch loop: sizes were computed once for the whole day. */
  function RunBatch(env: Env, w: World, signals: seq<Signal>, sizes: map<string, real>, day: int): World
    decreases |signals|
  {
    if signals == [] then w else
      var s := signals[0];
      var next := if Blocked(env, s, day) || s.symbol !in sizes then w
                  else HandleSignal(env, w, s, sizes[s.symbol], day);
      RunBatch(env, next, signals[1..], sizes, day)
  }

  /** The fallback loop: each signal is sized against the portfolio as it is by then. */
  function RunEach(env: Env, w: World, signals: seq<Signal>, day: int): World
    decreases |signals|
  {
    if signals == [] then w else
      var s := signals[0];
      var size := env.sizeOne(w.log, w.positions, s, day);
      var next := if Blocked(env, s, day) || size.None? then w else HandleSignal(env, w, s, size.value, day);
      RunEach(env, next, signals[1..], day)
  }

  function NotBefore(day: int): Signal -> bool { (s: Signal) => !(s.date < day) }

  function RunDay(env: Env, w: World, signals: seq<Signal>, day: int): World {
    var valid := Filter(NotBefore(day), signals);
    if valid == [] then w else
      match env.sizeAll(w.log, w.positions, valid, day)
      case None => RunEach(env, w, valid, day)
      case Some(sizes) => RunBatch(env, w, valid, sizes, day)
  }

  /** A day of signals, or a change of holdings outside the engine (stop loss, split, delisting). */
  datatype Op = Day(signals: seq<Signal>, day: int) | Outside(symbol: string, qty: real, day: int)

  function RunOp(env: Env, w: World, op: Op): World {
    match op
    case Day(signals, day) => RunDay(env, w, signals, day)
    case Outside(symbol, qty, _) => World(w.positions[symbol := qty], w.log + [External(symbol, qty)])
  }

  function RunOps(env: Env, w: World, ops: seq<Op>): World
    decreases |ops|
  {
    if ops == [] then w else RunOps(env, RunOp(env, w, ops[0]), ops[1..])
  }

  // ---- the engine with its target positions ----

  datatype TargetPosition = TargetPosition(symbol: string, target: real, actual: real, pending: real, updated: int)

  type Targets = map<string, TargetPosition>

  /** Every entry carries its own key: its symbol is the one thing order sizes read from it. */
  predicate WellKeyed(t: Targets) { forall s :: s in t ==> t[s].symbol == s }

  function Settled(tp: TargetPosition, filled: real, day: int): TargetPosition {
    tp.(actual := tp.actual + filled, pending := tp.target - (tp.actual + filled), updated := day)
  }

  function Opened(t: Targets, symbol: string, size: real, day: int): TargetPosition {
    (if symbol in t then t[symbol] else TargetPosition(symbol, 0.0, 0.0, 0.0, day)).(target := size, updated := day)
  }

  /** The account of target positions after a signal was traded. */
  function TargetsAfter(env: Env, w: World, t: Targets, tp: TargetPosition, s: Signal, qty: real, day: int): Targets {
    var unfilled := t[s.symbol := tp.(pending := tp.target - tp.actual, updated := day)];
    var filled := env.execute(w.log, w.positions, AskFor(env, s, qty, day));
    if env.price(s.symbol, day) <= 0.0 then t
    else match AttachOf(env, w, s, qty, day)
      case AttachFailed => unfilled
      case Attached => t
      case NotAttached =>
        if s.direction == Hold then t
        else if s.direction == Close then (if filled.None? then t else t - {s.symbol})
        else if filled.None? then unfilled
        else
          var done := Settled(tp, filled.value, day);
          if done.pending <= 0.0 && done.target <= 0.0 then t - {s.symbol} else t[s.symbol := done]
  }

  /** `reconcileTargetPosition` on the account. */
  function Reconciled(w: World, t: Targets, symbol: string, day: int): Targets {
    if symbol !in t || Held(w, symbol) == t[symbol].actual then t
    else t[symbol := t[symbol].(actual := Held(w, symbol), pending := t[symbol].target - Held(w, symbol), updated := day)]
  }

  /** Tracker side and target positions together, as the engine updates them. */
  datatype State = State(w: World, t: Targets)

  function HandleState(env: Env, st: State, s: Signal, size: real, day: int): State {
    if size <= 0.0 then st else
      var tp := Opened(st.t, s.symbol, size, day);
      var t := st.t[s.symbol := tp];
      var e := Effective(st.w, tp.symbol, size, s.direction);
      if e <= 0.0 then State(st.w, t)
      else State(TradeSignal(env, st.w, s, e, day), TargetsAfter(env, st.w, t, tp, s, e, day))
  }

  function BatchState(env: Env, st: State, signals: seq<Signal>, sizes: map<string, real>, day: int): State
    decreases |signals|
  {
    if signals == [] then st else
      var s := signals[0];
      var next := if Blocked(env, s, day) || s.symbol !in sizes then st
                  else HandleState(env, st, s, sizes[s.symbol], day);
      BatchState(env, next, signals[1..], sizes, day)
  }

  function EachState(env: Env, st: State, signals: seq<Signal>, day: int): State
    decreases |signals|
  {
    if signals == [] then st else
      var s := signals[0];
      var size := env.sizeOne(st.w.log, st.w.positions, s, day);
      var next := if Blocked(env, s, day) || size.None? then st else HandleState(env, st, s, size.value, day);
      EachState(env, next, signals[1..], day)
  }

  function DayState(env: Env, st: State, signals: seq<Signal>, day: int): State {
    var valid := Filter(NotBefore(day), signals);
    if valid == [] then st else
      match env.sizeAll(st.w.log, st.w.positions, valid, day)
      case None => EachState(env, st, valid, day)
      case Some(sizes) => BatchState(env, st, valid, sizes, day)
  }

  function OpState(env: Env, st: State, op: Op): State {
    match op
    case Day(signals, day) => DayState(env, st, signals, day)
    case Outside(symbol, qty, day) =>
      var w := RunOp(env, st.w, op);
      State(w, Reconciled(w, st.t, symbol, day))
  }

  function OpsState(env: Env, st: State, ops: seq<Op>): State
    decreases |ops|
  {
    if ops == [] then st else OpsState(env, OpState(env, st, ops[0]), ops[1..])
  }

  class Engine {
    const env: Env
    var positions: Positions
    var log: seq<Event>
    var targets: Targets

    constructor (env: Env, positions: Positions)
      ensures this.env == env && View() == World(positions, []) && targets == map[]
    {
      this.env := env;
      this.positions, log, targets := positions, [], map[];
    }

    ghost function View(): World
      reads this
    {
      World(positions, log)
    }

    ghost function Full(): State
      reads this
    {
      State(View(), targets)
    }

    method HeldQty(symbol: string) returns (q: real)
      ensures q == Held(View(), symbol)
    {
      if symbol !in positions || positions[symbol] < 0.0 { return 0.0; }
      q := positions[symbol];
    }

    method ComputeEffectiveTarget(tp: TargetPosition, target: real, d: Direction) returns (e: real)
      ensures e == Effective(View(), tp.symbol, target, d)
    {
      if d != Long && d != Short { return target; }
      var held := HeldQty(tp.symbol);
      e := target - held;
      if e <= 0.0 { e := -1.0; }
    }

    method Execute(a: Ask) returns (filled: Option<real>)
      modifies this`positions, this`log
      ensures filled == env.execute(old(log), old(positions), a)
      ensures View() == Send(env, old(View()), a)
    {
      filled := env.execute(log, positions, a);
      log := log + [Asked(a, filled)];
      if filled.Some? {
        var p := if a.symbol in positions then positions[a.symbol] else 0.0;
        positions := positions[a.symbol := Moved(p, DirectionOf(a), filled.value)];
      }
    }

    /** `executeSignalTrade` together with `updateTargetPositionAfterTrade`. */
    method ExecuteSignalTrade(s: Signal, qty: real, day: int, tp: TargetPosition)
      modifies this
      ensures View() == TradeSignal(env, old(View()), s, qty, day)
      ensures targets == TargetsAfter(env, old(View()), old(targets), tp, s, qty, day)
    {
      if env.price(s.symbol, day) <= 0.0 { return; }
      if env.hasAlgo {
        var attached := env.attach(log, s, qty, day);
        if attached != NotAttached {
          log := log + [Parent(s, qty, day)];
          if attached == AttachFailed {
            targets := targets[s.symbol := tp.(pending := tp.target - tp.actual, updated := day)];
          }
          return;
        }
      }
      if s.direction == Hold { return; }
      var filled := Execute(AskFor(env, s, qty, day));
      if s.direction == Close {
        if filled.Some? { targets := targets - {s.symbol}; }
        return;
      }
      if filled.None? {
        targets := targets[s.symbol := tp.(pending := tp.target - tp.actual, updated := day)];
        return;
      }
      var done := Settled(tp, filled.value, day);
      if done.pending <= 0.0 && done.target <= 0.0 {
        targets := targets - {s.symbol};
      } else {
        targets := targets[s.symbol := done];
      }
    }

    /** The body shared by the two loops, once a signal has a size. */
    method HandleSized(s: Signal, size: real, day: int)
      modifies this
      ensures Full() == HandleState(env, old(Full()), s, size, day)
    {
      if size <= 0.0 { return; }
      var tp := Opened(targets, s.symbol, size, day);
      targets := targets[s.symbol := tp];
      var effective := ComputeEffectiveTarget(tp, size, s.direction);
      if effective > 0.0 {
        ExecuteSignalTrade(s, effective, day, tp);
      }
    }

    method ProcessBatch(signals: seq<Signal>, sizes: map<string, real>, day: int)
      modifies this
      ensures Full() == BatchState(env, old(Full()), signals, sizes, day)
    {
      for i := 0 to |signals|
        invariant BatchState(env, Full(), signals[i..], sizes, day) == BatchState(env, old(Full()), signals, sizes, day)
      {
        var s := signals[i];
        assert signals[i..][0] == s && signals[i..][1..] == signals[i + 1..];
        if Blocked(env, s, day) || s.symbol !in sizes { continue; }
        HandleSized(s, sizes[s.symbol], day);
      }
    }

    method ProcessFallback(signals: seq<Signal>, day: int)
      modifies this
      ensures Full() == EachState(env, old(Full()), signals, day)
    {
      for i := 0 to |signals|
        invariant EachState(env, Full(), signals[i..], day) == EachState(env, old(Full()), signals, day)
      {
        var s := signals[i];
        assert signals[i..][0] == s && signals[i..][1..] == signals[i + 1..];
        var size := env.sizeOne(log, positions, s, day);
        if Blocked(env, s, day) || size.None? { continue; }
        HandleSized(s, size.value, day);
      }
    }

    /** `processSignalsAndExecuteTrades`. */
    method ProcessSignals(signals: seq<Signal>, day: int)
      modifies this
      ensures Full() == DayState(env, old(Full()), signals, day)
    {
      var valid: seq<Signal> := [];
      for i := 0 to |signals|
        invariant valid == Filter(NotBefore(day), signals[..i]) && Full() == old(Full())
      {
        assert signals[..i + 1][..i] == signals[..i];
        if !(signals[i].date < day) { valid := valid + [signals[i]]; }
      }
      assert signals[..|signals|] == signals;
      if valid == [] { return; }
      var sizes := env.sizeAll(log, positions, valid, day);
      if sizes.None? {
        ProcessFallback(valid, day);
      } else {
        ProcessBatch(valid, sizes.value, day);
      }
    }

    /** `reconcileTargetPosition`: align an entry, if there is one, with the real holding. */
    method ReconcileTargetPosition(symbol: string, day: int)
      modifies this`targets
      ensures targets == Reconciled(View(), old(targets), symbol, day)
    {
      if symbol !in targets { return; }
      var held := HeldQty(symbol);
      var tp := targets[symbol];
      if held == tp.actual { return; }
      targets := targets[symbol := tp.(actual := held, pending := tp.target - held, updated := day)];
    }

    /** Holdings changed outside the engine, then reconciled. */
    method ApplyOutside(symbol: string, qty: real, day: int)
      modifies this
      ensures Full() == OpState(env, old(Full()), Outside(symbol, qty, day))
    {
      positions := positions[symbol := qty];
      log := log + [External(symbol, qty)];
      ReconcileTargetPosition(symbol, day);
    }

    method RunAll(ops: seq<Op>)
      modifies this
      ensures Full() == OpsState(env, old(Full()), ops)
    {
      for i := 0 to |ops|
        invariant OpsState(env, Full(), ops[i..]) == OpsState(env, old(Full()), ops)
      {
        assert ops[i..][0] == ops[i] && ops[i..][1..] == ops[i + 1..];
        match ops[i]
        case Day(signals, day) => ProcessSignals(signals, day);
        case Outside(symbol, qty, day) => ApplyOutside(symbol, qty, day);
      }
    }
  }

  // ---- orders do not depend on the target positions ----

  lemma HandleIgnoresTargets(env: Env, st: State, s: Signal, size: real, day: int)
    requires WellKeyed(st.t)
    ensures HandleState(env, st, s, size, day).w == HandleSignal(env, st.w, s, size, day)
    ensures WellKeyed(HandleState(env, st, s, size, day).t)
  {
  }

  lemma {:induction false} BatchIgnoresTargets(env: Env, st: State, signals: seq<Signal>, sizes: map<string, real>, day: int)
    requires WellKeyed(st.t)
    ensures BatchState(env, st, signals, sizes, day).w == RunBatch(env, st.w, signals, sizes, day)
    ensures WellKeyed(BatchState(env, st, signals, sizes, day).t)
    decreases |signals|
  {
    if signals != [] {
      var s := signals[0];
      if Blocked(env, s, day) || s.symbol !in sizes {
        BatchIgnoresTargets(env, st, signals[1..], sizes, day);
      } else {
        HandleIgnoresTargets(env, st, s, sizes[s.symbol], day);
        BatchIgnoresTargets(env, HandleState(env, st, s, sizes[s.symbol], day), signals[1..], sizes, day);
      }
    }
  }

  lemma {:induction false} EachIgnoresTargets(env: Env, st: State, signals: seq<Signal>, day: int)
    requires WellKeyed(st.t)
    ensures EachState(env, st, signals, day).w == RunEach(env, st.w, signals, day)
    ensures WellKeyed(EachState(env, st, signals, day).t)
    decreases |signals|
  {
    if signals != [] {
      var s := signals[0];
      var size := env.sizeOne(st.w.log, st.w.positions, s, day);
      if Blocked(env, s, day) || size.None? {
        EachIgnoresTargets(env, st, signals[1..], day);
      } else {
        HandleIgnoresTargets(env, st, s, size.value, day);
        EachIgnoresTargets(env, HandleState(env, st, s, size.value, day), signals[1..], day);
      }
    }
  }

  lemma OpIgnoresTargets(env: Env, st: State, op: Op)
    requires WellKeyed(st.t)
    ensures OpState(env, st, op).w == RunOp(env, st.w, op) && WellKeyed(OpState(env, st, op).t)
  {
    match op
    case Day(signals, day) =>
      var valid := Filter(NotBefore(day), signals);
      if valid != [] {
        match env.sizeAll(st.w.log, st.w.positions, valid, day)
        case None => EachIgnoresTargets(env, st, valid, day);
        case Some(sizes) => BatchIgnoresTargets(env, st, valid, sizes, day);
      }
    case Outside(_, _, _) =>
  }

  /** Over any run, every order, fill and holding is what the tracker side alone determines. */
  lemma {:induction false} RunIgnoresTargets(env: Env, st: State, ops: seq<Op>)
    requires WellKeyed(st.t)
    ensures OpsState(env, st, ops).w == RunOps(env, st.w, ops) && WellKeyed(OpsState(env, st, ops).t)
    decreases |ops|
  {
    if ops != [] {
      OpIgnoresTargets(env, st, ops[0]);
      RunIgnoresTargets(env, OpState(env, st, ops[0]), ops[1..]);
    }
  }

  /** Two engines that differ only in their target positions trade alike for ever. */
  lemma OrdersIndependentOfTargets(env: Env, w: World, t1: Targets, t2: Targets, ops: seq<Op>)
    requires WellKeyed(t1) && WellKeyed(t2)
    ensures OpsState(env, State(w, t1), ops).w == OpsState(env, State(w, t2), ops).w
  {
    RunIgnoresTargets(env, State(w, t1), ops);
    RunIgnoresTargets(env, State(w, t2), ops);
  }

  /** The keying is needed: an entry filed under a wrong symbol nets against the wrong holding. */
  lemma EntrySymbolDecides(entry: string, symbol: string)
    ensures (forall w, target, d :: Effective(w, entry, target, d) == Effective(w, symbol, target, d)) <==> entry == symbol
  {
    if entry != symbol {
      var w := World(map[entry := 5.0], []);
      assert Effective(w, entry, 5.0, Long) == -1.0;
      assert Effective(w, symbol, 5.0, Long) == 5.0;
    }
  }

  // ---- no overshoot ----

  /** The tracker and the service never fill more than was asked, and never a negative quantity. */
  ghost predicate Honest(env: Env) {
    forall log, p, a :: env.execute(log, p, a).Some? && !a.CloseAll? ==> 0.0 <= env.execute(log, p, a).value <= a.qty
  }

  /** A Long signal never lifts the holding above that day's target, nor lowers it. */
  lemma LongNeverOvershoots(env: Env, w: World, s: Signal, size: real, day: int)
    requires Honest(env) && s.direction == Long
    ensures var after := Pos(HandleSignal(env, w, s, size, day), s.symbol);
      && Pos(w, s.symbol) <= after
      && (after <= size || after == Pos(w, s.symbol))
  {
  }

  /** Shares bought of a symbol, over a log. */
  function Bought(log: seq<Event>, symbol: string): real {
    if log == [] then 0.0 else
      var e := log[|log| - 1];
      Bought(log[..|log| - 1], symbol) +
      if e.Asked? && e.ask.symbol == symbol && DirectionOf(e.ask) == Long && e.filled.Some? then e.filled.value else 0.0
  }

  lemma BoughtSnoc(log: seq<Event>, e: Event, symbol: string)
    ensures Bought(log + [e], symbol) == Bought(log, symbol)
              + if e.Asked? && e.ask.symbol == symbol && DirectionOf(e.ask) == Long && e.filled.Some? then e.filled.value else 0.0
  {
    assert (log + [e])[..|log|] == log;
  }

  /** Relative to a start: bought is exactly how far the holding rose, and nothing is bought above the target. */
  ghost predicate OnTheWay(start: World, w: World, symbol: string, target: real) {
    && Pos(start, symbol) <= Pos(w, symbol)
    && (Pos(w, symbol) <= target || Pos(w, symbol) == Pos(start, symbol))
    && Bought(w.log, symbol) - Bought(start.log, symbol) == Pos(w, symbol) - Pos(start, symbol)
  }

  /** An order of another symbol, or a buy within what is missing, keeps the symbol on its way. */
  lemma SendStaysOnTheWay(env: Env, start: World, w: World, a: Ask, symbol: string, target: real)
    requires Honest(env) && OnTheWay(start, w, symbol, target)
    requires a.symbol == symbol ==> !a.CloseAll? && a.direction == Long && 0.0 < a.qty <= target - Pos(w, symbol)
    ensures OnTheWay(start, Send(env, w, a), symbol, target)
  {
    var filled := env.execute(w.log, w.positions, a);
    BoughtSnoc(w.log, Asked(a, filled), symbol);
    if filled.Some? && a.symbol == symbol {
      assert 0.0 <= filled.value <= a.qty;
      assert Pos(Send(env, w, a), symbol) == Pos(w, symbol) + filled.value;
    }
  }

  lemma SignalStaysOnTheWay(env: Env, start: World, w: World, s: Signal, size: real, day: int, symbol: string, target: real)
    requires Honest(env) && OnTheWay(start, w, symbol, target)
    requires s.symbol == symbol ==> s.direction == Long && size <= target
    ensures OnTheWay(start, HandleSignal(env, w, s, size, day), symbol, target)
  {
    var e := Effective(w, s.symbol, size, s.direction);
    var after := HandleSignal(env, w, s, size, day);
    if after != w {
      if AttachOf(env, w, s, e, day) != NotAttached {
        BoughtSnoc(w.log, Parent(s, e, day), symbol);
      } else {
        SendStaysOnTheWay(env, start, w, AskFor(env, s, e, day), symbol, target);
      }
    }
  }

  /** On every sizing of `symbol` the target is at most `target`. */
  ghost predicate SizedAtMost(env: Env, symbol: string, target: real) {
    && (forall log, p, signals, day :: env.sizeAll(log, p, signals, day).Some? && symbol in env.sizeAll(log, p, signals, day).value ==>
          env.sizeAll(log, p, signals, day).value[symbol] <= target)
    && (forall log, p, s: Signal, day :: s.symbol == symbol && env.sizeOne(log, p, s, day).Some? ==>
          env.sizeOne(log, p, s, day).value <= target)
  }

  predicate LongOnly(signals: seq<Signal>, symbol: string) {
    forall i :: 0 <= i < |signals| && signals[i].symbol == symbol ==> signals[i].direction == Long
  }

  lemma {:induction false} BatchStaysOnTheWay(env: Env, start: World, w: World, signals: seq<Signal>, sizes: map<string, real>,
                                              day: int, symbol: string, target: real)
    requires Honest(env) && OnTheWay(start, w, symbol, target) && LongOnly(signals, symbol)
    requires symbol in sizes ==> sizes[symbol] <= target
    ensures OnTheWay(start, RunBatch(env, w, signals, sizes, day), symbol, target)
    decreases |signals|
  {
    if signals != [] {
      var s := signals[0];
      if Blocked(env, s, day) || s.symbol !in sizes {
        BatchStaysOnTheWay(env, start, w, signals[1..], sizes, day, symbol, target);
      } else {
        SignalStaysOnTheWay(env, start, w, s, sizes[s.symbol], day, symbol, target);
        BatchStaysOnTheWay(env, start, HandleSignal(env, w, s, sizes[s.symbol], day), signals[1..], sizes, day, symbol, target);
      }
    }
  }

  lemma {:induction false} EachStaysOnTheWay(env: Env, start: World, w: World, signals: seq<Signal>, day: int,
                                             symbol: string, target: real)
    requires Honest(env) && OnTheWay(start, w, symbol, target) && LongOnly(signals, symbol) && SizedAtMost(env, symbol, target)
    ensures OnTheWay(start, RunEach(env, w, signals, day), symbol, target)
    decreases |signals|
  {
    if signals != [] {
      var s := signals[0];
      var size := env.sizeOne(w.log, w.positions, s, day);
      if Blocked(env, s, day) || size.None? {
        EachStaysOnTheWay(env, start, w, signals[1..], day, symbol, target);
      } else {
        SignalStaysOnTheWay(env, start, w, s, size.value, day, symbol, target);
        EachStaysOnTheWay(env, start, HandleSignal(env, w, s, size.value, day), signals[1..], day, symbol, target);
      }
    }
  }

  lemma {:induction false} LongOnlyFiltered(signals: seq<Signal>, symbol: string, day: int)
    requires LongOnly(signals, symbol)
    ensures LongOnly(Filter(NotBefore(day), signals), symbol)
    decreases |signals|
  {
    if signals != [] { LongOnlyFiltered(signals[..|signals| - 1], symbol, day); }
  }

  /** Every signal for the symbol is Long, and nothing outside the engine touches it. */
  predicate OnlyLong(ops: seq<Op>, symbol: string) {
    forall i :: 0 <= i < |ops| ==>
      match ops[i] case Day(signals, _) => LongOnly(signals, symbol) case Outside(s, _, _) => s != symbol
  }

  lemma OpStaysOnTheWay(env: Env, start: World, w: World, op: Op, symbol: string, target: real)
    requires Honest(env) && SizedAtMost(env, symbol, target) && OnlyLong([op], symbol)
    requires OnTheWay(start, w, symbol, target)
    ensures OnTheWay(start, RunOp(env, w, op), symbol, target)
  {
    assert [op][0] == op;
    match op
    case Day(signals, day) =>
      LongOnlyFiltered(signals, symbol, day);
      var valid := Filter(NotBefore(day), signals);
      if valid != [] {
        match env.sizeAll(w.log, w.positions, valid, day)
        case None => EachStaysOnTheWay(env, start, w, valid, day, symbol, target);
        case Some(sizes) => BatchStaysOnTheWay(env, start, w, valid, sizes, day, symbol, target);
      }
    case Outside(s, qty, _) => BoughtSnoc(w.log, External(s, qty), symbol);
  }

  lemma OnlyLongParts(ops: seq<Op>, symbol: string)
    requires OnlyLong(ops, symbol) && ops != []
    ensures OnlyLong([ops[0]], symbol) && OnlyLong(ops[1..], symbol)
  {
  }

  lemma {:induction false} RunStaysOnTheWay(env: Env, start: World, w: World, ops: seq<Op>, symbol: string, target: real)
    requires Honest(env) && SizedAtMost(env, symbol, target) && OnlyLong(ops, symbol)
    requires OnTheWay(start, w, symbol, target)
    ensures OnTheWay(start, RunOps(env, w, ops), symbol, target)
    decreases |ops|
  {
    if ops != [] {
      OnlyLongParts(ops, symbol);
      OpStaysOnTheWay(env, start, w, ops[0], symbol, target);
      RunStaysOnTheWay(env, start, RunOp(env, w, ops[0]), ops[1..], symbol, target);
    }
  }

  /**
   * Repeating a target through any partial fills, refusals and other symbols' trades: in total at most
   * target minus initial holding is bought, nothing at all from a start above the target, and every
   * bought share is held at the end.
   */
  lemma RepeatedTargetBuysAtMostTheGap(env: Env, start: World, ops: seq<Op>, symbol: string, target: real)
    requires Honest(env) && SizedAtMost(env, symbol, target) && OnlyLong(ops, symbol)
    ensures var end := RunOps(env, start, ops);
      var gap := target - Pos(start, symbol);
      && 0.0 <= Bought(end.log, symbol) - Bought(start.log, symbol) == Pos(end, symbol) - Pos(start, symbol)
      && Pos(end, symbol) - Pos(start, symbol) <= if gap < 0.0 then 0.0 else gap
  {
    RunStaysOnTheWay(env, start, start, ops, symbol, target);
  }

  // ---- the target is reached ----

  /** The order for `qty` reaches tracker or service and is filled in full. */
  ghost predicate FilledInFull(env: Env, w: World, s: Signal, qty: real, day: int) {
    && env.price(s.symbol, day) > 0.0
    && AttachOf(env, w, s, qty, day) == NotAttached
    && env.execute(w.log, w.positions, AskFor(env, s, qty, day)) == Some(qty)
  }

  /**
   * A filled opening signal orders exactly what the size exceeds the holding by, a short position counting as
   * none: a Long then holds its size, a Short has sold that much. Nothing is ordered at or above the size.
   */
  lemma OpeningOrdersTheGap(env: Env, w: World, s: Signal, size: real, day: int)
    requires Opens(s.direction) && size > 0.0
    ensures var p := Pos(w, s.symbol);
      var gap := size - (if p > 0.0 then p else 0.0);
      var after := Pos(HandleSignal(env, w, s, size, day), s.symbol);
      && (gap <= 0.0 ==> HandleSignal(env, w, s, size, day) == w)
      && (gap > 0.0 && FilledInFull(env, w, s, gap, day) ==> after == if s.direction == Long then p + gap else p - gap)
      && (gap > 0.0 && FilledInFull(env, w, s, gap, day) && s.direction == Long && p >= 0.0 ==> after == size)
  {
    var p := Pos(w, s.symbol);
    var gap := size - (if p > 0.0 then p else 0.0);
    if gap > 0.0 && FilledInFull(env, w, s, gap, day) {
      assert Effective(w, s.symbol, size, s.direction) == gap;
      assert HandleSignal(env, w, s, size, day) == Send(env, w, AskFor(env, s, gap, day));
    }
  }

  /** The environment sizes the symbol at `target`, lets it trade and fills its buys in full. */
  ghost predicate Obliging(env: Env, symbol: string, target: real) {
    && !env.hasAlgo
    && (forall day :: env.price(symbol, day) > 0.0 && !env.limitUp(symbol, day))
    && (forall log, p, a: Ask :: a.symbol == symbol && !a.CloseAll? && a.direction == Long ==> env.execute(log, p, a) == Some(a.qty))
    && (forall log, p, signals, day ::
          env.sizeAll(log, p, signals, day).Some? ==>
            symbol in env.sizeAll(log, p, signals, day).value && env.sizeAll(log, p, signals, day).value[symbol] == target)
    && (forall log, p, s: Signal, day :: s.symbol == symbol ==> env.sizeOne(log, p, s, day) == Some(target))
  }

  lemma LongReaches(env: Env, w: World, s: Signal, day: int, target: real)
    requires Obliging(env, s.symbol, target) && s.direction == Long && target > 0.0 && Pos(w, s.symbol) >= 0.0
    ensures Pos(HandleSignal(env, w, s, target, day), s.symbol) >= target
  {
    var gap := target - Pos(w, s.symbol);
    if gap > 0.0 {
      assert AskFor(env, s, gap, day).symbol == s.symbol && AskFor(env, s, gap, day).qty == gap;
      assert FilledInFull(env, w, s, gap, day);
    }
    OpeningOrdersTheGap(env, w, s, target, day);
  }

  predicate Mentions(signals: seq<Signal>, symbol: string) { exists i :: 0 <= i < |signals| && signals[i].symbol == symbol }

  lemma {:induction false} BatchReaches(env: Env, w: World, signals: seq<Signal>, sizes: map<string, real>, day: int,
                                        symbol: string, target: real)
    requires Honest(env) && Obliging(env, symbol, target) && LongOnly(signals, symbol) && target > 0.0 && Pos(w, symbol) >= 0.0
    requires symbol in sizes && sizes[symbol] == target && (Mentions(signals, symbol) || Pos(w, symbol) >= target)
    ensures Pos(RunBatch(env, w, signals, sizes, day), symbol) >= target
    decreases |signals|
  {
    if signals != [] {
      var s := signals[0];
      assert Mentions(signals, symbol) ==> s.symbol == symbol || Mentions(signals[1..], symbol) by { MentionsTail(signals, symbol); }
      if Blocked(env, s, day) || s.symbol !in sizes {
        BatchReaches(env, w, signals[1..], sizes, day, symbol, target);
      } else {
        if s.symbol == symbol { LongReaches(env, w, s, day, target); }
        SignalStaysOnTheWay(env, w, w, s, sizes[s.symbol], day, symbol, target);
        BatchReaches(env, HandleSignal(env, w, s, sizes[s.symbol], day), signals[1..], sizes, day, symbol, target);
      }
    }
  }

  lemma MentionsTail(signals: seq<Signal>, symbol: string)
    requires signals != []
    ensures Mentions(signals, symbol) <==> signals[0].symbol == symbol || Mentions(signals[1..], symbol)
  {
    if Mentions(signals[1..], symbol) {
      var i :| 0 <= i < |signals[1..]| && signals[1..][i].symbol == symbol;
      assert signals[i + 1].symbol == symbol;
    }
    if Mentions(signals, symbol) && signals[0].symbol != symbol {
      var i :| 0 <= i < |signals| && signals[i].symbol == symbol;
      assert signals[1..][i - 1].symbol == symbol;
    }
  }

  lemma {:induction false} EachReaches(env: Env, w: World, signals: seq<Signal>, day: int, symbol: string, target: real)
    requires Honest(env) && Obliging(env, symbol, target) && LongOnly(signals, symbol) && target > 0.0 && Pos(w, symbol) >= 0.0
    requires Mentions(signals, symbol) || Pos(w, symbol) >= target
    ensures Pos(RunEach(env, w, signals, day), symbol) >= target
    decreases |signals|
  {
    if signals != [] {
      var s := signals[0];
      MentionsTail(signals, symbol);
      var size := env.sizeOne(w.log, w.positions, s, day);
      if Blocked(env, s, day) || size.None? {
        EachReaches(env, w, signals[1..], day, symbol, target);
      } else {
        if s.symbol == symbol { LongReaches(env, w, s, day, target); }
        SignalStaysOnTheWay(env, w, w, s, size.value, day, symbol, target);
        EachReaches(env, HandleSignal(env, w, s, size.value, day), signals[1..], day, symbol, target);
      }
    }
  }

  /** The operation is a day with a signal for the symbol that is not stale. */
  predicate SignalledOn(op: Op, symbol: string) {
    op.Day? && Mentions(Filter(NotBefore(op.day), op.signals), symbol)
  }

  predicate Signalled(ops: seq<Op>, symbol: string) { exists i :: 0 <= i < |ops| && SignalledOn(ops[i], symbol) }

  lemma SignalledTail(ops: seq<Op>, symbol: string)
    requires ops != [] && Signalled(ops, symbol) && !SignalledOn(ops[0], symbol)
    ensures Signalled(ops[1..], symbol)
  {
    var i :| 0 <= i < |ops| && SignalledOn(ops[i], symbol);
    assert ops[1..][i - 1] == ops[i];
  }

  lemma OpReaches(env: Env, w: World, op: Op, symbol: string, target: real)
    requires Honest(env) && Obliging(env, symbol, target) && OnlyLong([op], symbol) && target > 0.0 && Pos(w, symbol) >= 0.0
    requires SignalledOn(op, symbol)
    ensures Pos(RunOp(env, w, op), symbol) >= target
  {
    assert [op][0] == op;
    var valid := Filter(NotBefore(op.day), op.signals);
    LongOnlyFiltered(op.signals, symbol, op.day);
    match env.sizeAll(w.log, w.positions, valid, op.day)
    case None => EachReaches(env, w, valid, op.day, symbol, target);
    case Some(sizes) => BatchReaches(env, w, valid, sizes, op.day, symbol, target);
  }

  lemma {:induction false} RunReaches(env: Env, w: World, ops: seq<Op>, symbol: string, target: real)
    requires Honest(env) && Obliging(env, symbol, target) && OnlyLong(ops, symbol) && target > 0.0 && Pos(w, symbol) >= 0.0
    requires SizedAtMost(env, symbol, target) && (Signalled(ops, symbol) || Pos(w, symbol) >= target)
    ensures Pos(RunOps(env, w, ops), symbol) >= target
    decreases |ops|
  {
    if ops != [] {
      OnlyLongParts(ops, symbol);
      OpStaysOnTheWay(env, w, w, ops[0], symbol, target);
      if SignalledOn(ops[0], symbol) {
        OpReaches(env, w, ops[0], symbol, target);
      } else if Signalled(ops, symbol) {
        SignalledTail(ops, symbol);
      }
      RunReaches(env, RunOp(env, w, ops[0]), ops[1..], symbol, target);
    }
  }

  /**
   * The other half of netting: repeating a target in an obliging environment, through any other symbols' trades,
   * buys exactly what is missing and ends on the target, or leaves a larger holding alone.
   */
  lemma RepeatedTargetIsReached(env: Env, start: World, ops: seq<Op>, symbol: string, target: real)
    requires Honest(env) && Obliging(env, symbol, target) && OnlyLong(ops, symbol) && Signalled(ops, symbol)
    requires target > 0.0 && Pos(start, symbol) >= 0.0
    ensures var end := RunOps(env, start, ops); var held := Pos(start, symbol);
      && Pos(end, symbol) == (if held < target then target else held)
      && Bought(end.log, symbol) - Bought(start.log, symbol) == (if held < target then target - held else 0.0)
  {
    assert SizedAtMost(env, symbol, target);
    RunReaches(env, start, ops, symbol, target);
    RepeatedTargetBuysAtMostTheGap(env, start, ops, symbol, target);
  }

  // ---- what is not traded ----

  /** A limit-up stops what opens a position, a limit-down stops a Close; neither stops the other. */
  function Tradable(env: Env, day: int): Signal -> bool {
    (s: Signal) =>
      match s.direction
      case Long => !env.limitUp(s.symbol, day)
      case Short => !env.limitUp(s.symbol, day)
      case Close => !env.limitDown(s.symbol, day)
      case Hold => true
  }

  /** A batch trades exactly as if the blocked signals were not in it. */
  lemma {:induction false} BlockedAsIfAbsent(env: Env, w: World, signals: seq<Signal>, sizes: map<string, real>, day: int)
    ensures RunBatch(env, w, signals, sizes, day) == RunBatch(env, w, Filter(Tradable(env, day), signals), sizes, day)
    decreases |signals|
  {
    if signals != [] {
      var s, rest := signals[0], signals[1..];
      assert signals == [s] + rest;
      FilterConcat(Tradable(env, day), [s], rest);
      FilterOne(Tradable(env, day), s);
      var kept := Filter(Tradable(env, day), rest);
      if Tradable(env, day)(s) {
        var next := if s.symbol !in sizes then w else HandleSignal(env, w, s, sizes[s.symbol], day);
        BlockedAsIfAbsent(env, next, rest, sizes, day);
        assert ([s] + kept)[1..] == kept;
      } else {
        BlockedAsIfAbsent(env, w, rest, sizes, day);
        assert [] + kept == kept;
      }
    }
  }

  /** Signals dated before the day do nothing at all. */
  lemma StaleSignalsDoNothing(env: Env, w: World, signals: seq<Signal>, day: int)
    requires forall i :: 0 <= i < |signals| ==> signals[i].date < day
    ensures RunDay(env, w, signals, day) == w
  {
    FilterNone(NotBefore(day), signals);
  }

  /** The signals of a day are those dated on it or later. */
  lemma ValidSignals(signals: seq<Signal>, day: int, s: Signal)
    ensures s in Filter(NotBefore(day), signals) <==> s in signals && day <= s.date
  {
    FilterMembers(NotBefore(day), signals);
  }

  /** A signal taken by the exec-algo dispatcher, or refused by it, moves no holding; its parent order is on record. */
  lemma AttachedSignalsWait(env: Env, w: World, s: Signal, size: real, day: int)
    requires size > 0.0 && env.price(s.symbol, day) > 0.0 && env.hasAlgo
    requires Opens(s.direction) && Pos(w, s.symbol) >= 0.0 && size > Pos(w, s.symbol)
    requires env.attach(w.log, s, size - Pos(w, s.symbol), day) != NotAttached
    ensures HandleSignal(env, w, s, size, day) == World(w.positions, w.log + [Parent(s, size - Pos(w, s.symbol), day)])
  {
  }

  // ---- the account of target positions ----

  /** After an opening signal the entry has the day's size as target; what it holds and misses moves by the fill. */
  lemma EntryFollowsFill(env: Env, st: State, s: Signal, size: real, day: int)
    requires WellKeyed(st.t) && Opens(s.direction) && size > 0.0 && env.price(s.symbol, day) > 0.0 && !env.hasAlgo
    ensures var after := HandleState(env, st, s, size, day);
      var had := if s.symbol in st.t then st.t[s.symbol].actual else 0.0;
      var owed := if s.symbol in st.t then st.t[s.symbol].pending else 0.0;
      var gap := size - Held(st.w, s.symbol);
      var filled := env.execute(st.w.log, st.w.positions, AskFor(env, s, gap, day));
      && s.symbol in after.t && after.t[s.symbol].target == size && after.t[s.symbol].updated == day
      && (gap <= 0.0 ==> after.t[s.symbol].actual == had && after.t[s.symbol].pending == owed)
      && (gap > 0.0 ==>
            && after.t[s.symbol].actual == had + (if filled.Some? then filled.value else 0.0)
            && after.t[s.symbol].pending == size - after.t[s.symbol].actual)
      && (forall other :: other != s.symbol ==> (other in after.t <==> other in st.t) && (other in st.t ==> after.t[other] == st.t[other]))
  {
  }

  /** With the dispatcher: an attached signal only sets the target, a failed attachment also says what is missing. */
  lemma EntryOfAttached(env: Env, st: State, s: Signal, size: real, day: int)
    requires WellKeyed(st.t) && Opens(s.direction) && size > 0.0 && env.price(s.symbol, day) > 0.0 && env.hasAlgo
    requires size > Held(st.w, s.symbol)
    ensures var after := HandleState(env, st, s, size, day);
      var had := if s.symbol in st.t then st.t[s.symbol].actual else 0.0;
      var owed := if s.symbol in st.t then st.t[s.symbol].pending else 0.0;
      var attached := env.attach(st.w.log, s, size - Held(st.w, s.symbol), day);
      attached != NotAttached ==>
        && s.symbol in after.t && after.t[s.symbol].target == size && after.t[s.symbol].actual == had
        && after.t[s.symbol].pending == (if attached == AttachFailed then size - had else owed)
  {
  }

  /** Reconciling gives an existing entry the real holding; what it misses follows unless nothing had changed. */
  lemma ReconcileAligns(w: World, t: Targets, symbol: string, day: int)
    ensures var after := Reconciled(w, t, symbol, day);
      && after.Keys == t.Keys
      && (symbol in t ==>
            && after[symbol].actual == (if Pos(w, symbol) > 0.0 then Pos(w, symbol) else 0.0)
            && after[symbol].target == t[symbol].target
            && (after[symbol].pending == after[symbol].target - after[symbol].actual
                || (t[symbol].actual == after[symbol].actual && after[symbol] == t[symbol])))
      && (forall other :: other in t && other != symbol ==> after[other] == t[other])
  {
  }

  // ---- closing ----

  function Abs(x: real): real { if x < 0.0 then -x else x }

  /**
   * What the tracker books for a Close of `qty` shares: at most the holding and, on the long side, at
   * most the shares bought before today. It refuses when that leaves nothing.
   */
  function BookedClose(p: real, sellable: real, qty: real): Option<real> {
    var most := if qty <= Abs(p) then qty else Abs(p);
    var booked := if p > 0.0 && sellable < most then sellable else most;
    if booked <= 0.0 then None else Some(booked)
  }

  /** The shares a Close asks for: the sized quantity through the service, the holding otherwise. */
  function CloseQty(env: Env, w: World, symbol: string, size: real): real {
    if env.hasService then size else Abs(Pos(w, symbol))
  }

  /**
   * The service executes a Close at market only, at a positive price after slippage; its limit branch
   * knows Long and Short, so a limit Close is refused at every price, and other types are unsupported.
   */
  predicate Serves(orderType: OrderType, fillPrice: real) { orderType == Market && fillPrice > 0.0 }

  /**
   * How this Close is answered: by the service if there is one, `fillPrice` being its price after slippage,
   * and then by the tracker, with `sellable` shares bought before today.
   */
  ghost predicate Answers(env: Env, w: World, s: Signal, size: real, day: int, fillPrice: real, sellable: real) {
    env.execute(w.log, w.positions, AskFor(env, s, size, day))
      == if env.hasService && !Serves(s.orderType, fillPrice) then None
         else BookedClose(Pos(w, s.symbol), sellable, CloseQty(env, w, s.symbol, size))
  }

  /** The signal reaches the tracker: no bad price, no algo in between, no refusing service. */
  predicate Reaches(env: Env, w: World, s: Signal, size: real, day: int, fillPrice: real) {
    && size > 0.0 && env.price(s.symbol, day) > 0.0 && AttachOf(env, w, s, size, day) == NotAttached
    && (env.hasService ==> Serves(s.orderType, fillPrice))
  }

  lemma CloseIsSent(env: Env, w: World, s: Signal, size: real, day: int)
    requires s.direction == Close
    ensures HandleSignal(env, w, s, size, day) ==
      if size <= 0.0 || env.price(s.symbol, day) <= 0.0 then w
      else if AttachOf(env, w, s, size, day) != NotAttached then w.(log := w.log + [Parent(s, size, day)])
      else Send(env, w, AskFor(env, s, size, day))
  {
  }

  /** A Close leaves nothing held exactly when it reaches the tracker, asks for the whole holding and all of it may be sold. */
  lemma CloseFlattensIff(env: Env, w: World, s: Signal, size: real, day: int, fillPrice: real, sellable: real)
    requires s.direction == Close && Answers(env, w, s, size, day, fillPrice, sellable)
    ensures var p := Pos(w, s.symbol);
      Pos(HandleSignal(env, w, s, size, day), s.symbol) == 0.0
      <==> p == 0.0
           || (&& Reaches(env, w, s, size, day, fillPrice)
               && (env.hasService ==> size >= Abs(p))
               && (p > 0.0 ==> sellable >= p))
  {
    var p := Pos(w, s.symbol);
    CloseIsSent(env, w, s, size, day);
    if Reaches(env, w, s, size, day, fillPrice) {
      var a := AskFor(env, s, size, day);
      match BookedClose(p, sellable, CloseQty(env, w, s.symbol, size))
      case None =>
      case Some(filled) =>
        assert Pos(Send(env, w, a), s.symbol) == Moved(p, Close, filled);
    }
  }

  /**
   * The account forgets a symbol at any booked Close. So shares are held without an entry exactly when
   * the Close was booked for less than the holding.
   */
  lemma CloseForgetsTheRestIff(env: Env, st: State, s: Signal, size: real, day: int, fillPrice: real, sellable: real)
    requires WellKeyed(st.t) && s.direction == Close && Answers(env, st.w, s, size, day, fillPrice, sellable)
    requires size > 0.0 || s.symbol in st.t
    ensures var after := HandleState(env, st, s, size, day);
      var p := Pos(st.w, s.symbol);
      s.symbol !in after.t && Pos(after.w, s.symbol) != 0.0
      <==> && Reaches(env, st.w, s, size, day, fillPrice)
           && p != 0.0 && (p > 0.0 ==> sellable > 0.0)
           && ((env.hasService && size < Abs(p)) || (p > 0.0 && sellable < p))
  {
    CloseFlattensIff(env, st.w, s, size, day, fillPrice, sellable);
    HandleIgnoresTargets(env, st, s, size, day);
  }

  /** A Close that the service refuses changes no holding, and its entry goes on with the sized quantity as target. */
  lemma RefusedCloseKeepsHolding(env: Env, st: State, s: Signal, size: real, day: int, fillPrice: real, sellable: real)
    requires WellKeyed(st.t) && s.direction == Close && Answers(env, st.w, s, size, day, fillPrice, sellable)
    requires env.hasService && !Serves(s.orderType, fillPrice)
    ensures var after := HandleState(env, st, s, size, day);
      && after.w.positions == st.w.positions
      && (size > 0.0 ==> s.symbol in after.t && after.t[s.symbol].target == size)
  {
    HandleIgnoresTargets(env, st, s, size, day);
    CloseIsSent(env, st.w, s, size, day);
  }

  /** 100 shares bought before today, at price 10, with a service and no algo. */
  lemma HundredHeld(orderType: OrderType, size: real) returns (env: Env, st: State, s: Signal)
    ensures s.direction == Close && s.orderType == orderType && env.hasService && WellKeyed(st.t) && s.symbol in st.t
    ensures Pos(st.w, s.symbol) == 100.0 && Answers(env, st.w, s, size, 0, 10.0, 100.0)
    ensures size > 0.0 && orderType == Market ==> Reaches(env, st.w, s, size, 0, 10.0)
  {
    env := Env(
      (_, p: Positions, a: Ask) =>
        if a.ViaService? && !Serves(a.orderType, 10.0) then None
        else BookedClose(if a.symbol in p then p[a.symbol] else 0.0, 100.0, if a.CloseAll? then 100.0 else a.qty),
      (_, _, _, _) => None, (_, _, _, _) => None, (_, _, _, _) => NotAttached, false, true,
      (_, _) => 10.0, (_, _) => false, (_, _) => false);
    s := Signal("600000.SH", Close, 0, orderType, 11.0);
    st := State(World(map[s.symbol := 100.0], []), map[s.symbol := TargetPosition(s.symbol, 100.0, 100.0, 0.0, 0)]);
  }

  /** Closing 60 of 100 held shares at market through the service: 40 stay held and no entry says so. */
  lemma PartialCloseIsForgotten() returns (env: Env, st: State, s: Signal)
    ensures s.direction == Close && s.orderType == Market && env.hasService && WellKeyed(st.t) && s.symbol in st.t
    ensures Pos(st.w, s.symbol) == 100.0 && Answers(env, st.w, s, 60.0, 0, 10.0, 100.0)
    ensures Pos(HandleState(env, st, s, 60.0, 0).w, s.symbol) == 40.0
    ensures s.symbol !in HandleState(env, st, s, 60.0, 0).t
  {
    env, st, s := HundredHeld(Market, 60.0);
    CloseForgetsTheRestIff(env, st, s, 60.0, 0, 10.0, 100.0);
    HandleIgnoresTargets(env, st, s, 60.0, 0);
    CloseIsSent(env, st.w, s, 60.0, 0);
  }

  /** A limit Close of all 100 held shares, every one sellable: all 100 stay held. */
  lemma LimitCloseIsRefused() returns (env: Env, st: State, s: Signal)
    ensures s.direction == Close && s.orderType == Limit && env.hasService && WellKeyed(st.t) && s.symbol in st.t
    ensures Pos(st.w, s.symbol) == 100.0 && Answers(env, st.w, s, 100.0, 0, 10.0, 100.0)
    ensures Pos(HandleState(env, st, s, 100.0, 0).w, s.symbol) == 100.0
  {
    env, st, s := HundredHeld(Limit, 100.0);
    RefusedCloseKeepsHolding(env, st, s, 100.0, 0, 10.0, 100.0);
  }
}
