/**
 * The Python side of the weight replay: one event-driven machine per symbol. NautilusTrader is
 * unseen: the net position and the order id of each bar, and every fill or refusal, come from outside.
 */
module SidecarReplay {
  import opened Collections
  import opened AshareRules
  import opened Signals
  import opened Market

  datatype Reason = NoSignal | AtTarget | LimitUp | LimitDown | NothingSellable | CapReached | Halted | Submitted

  datatype Decision = Decision(
    day: int, targetQty: int, currentQty: int, delta: int, submitted: int, side: Option<Side>, reason: Reason)

  /** Fixed parameters of one instance; `cfg.capital` is this instance's share of the capital. */
  datatype Params = Params(symbol: string, stream: seq<Signal>, cfg: Config)

  /** The rule functions raise on a non-positive lot or cap rate, and the stream sorts itself. */
  predicate Valid(p: Params) { p.cfg.lot > 0 && p.cfg.dMax > 0.0 && Sorted(p.stream) }

  // ---- reference transitions ----

  datatype Sidecar = Sidecar(day: Option<int>, prevClose: Option<real>, sellable: int, tradedToday: int,
                             pending: map<int, int>, rejections: int, halted: bool, decisions: seq<Decision>)

  const FRESH := Sidecar(None, None, 0, 0, map[], 0, false, [])

  function Roll(s: Sidecar, day: int, net: int): Sidecar {
    if s.day == Some(day) then s else s.(day := Some(day), sellable := Max(0, net), tradedToday := 0)
  }

  function Cap(p: Params, bar: Bar): int
    requires Valid(p)
  {
    PyParticipationCap(bar.volume, p.cfg.dMax).value
  }

  function TargetQty(p: Params, weight: real, price: real): int
    requires Valid(p) && price != 0.0
  {
    PyRoundDownToLot(WeightedShares(weight, p.cfg.capital, price), p.cfg.lot).value
  }

  /** What a bar asks for before the halt is considered: a side with a quantity, or a reason not to trade. */
  datatype Plan = Trade(side: Side, qty: int) | Skip(reason: Reason)

  function PlanGap(p: Params, s: Sidecar, prevClose: Option<real>, bar: Bar, delta: int): Plan
    requires Valid(p)
  {
    var room := Max(0, Cap(p, bar) - s.tradedToday);
    if delta > 0 then
      if prevClose.Some? && bar.close >= PyLimitPrices(prevClose.value, p.cfg.limitRate).0 then Skip(LimitUp) else
        var qty := PyRoundDownToLot(Min(delta, room) as real, p.cfg.lot).value;
        if qty <= 0 then Skip(CapReached) else Trade(Buy, qty)
    else if delta < 0 then
      if prevClose.Some? && bar.close <= PyLimitPrices(prevClose.value, p.cfg.limitRate).1 then Skip(LimitDown) else
        var want := Min(-delta, s.sellable);
        var qty := Min(want, room);
        if qty <= 0 then Skip(if want <= 0 then NothingSellable else CapReached) else Trade(Sell, qty)
    else Skip(AtTarget)
  }

  function Record(s: Sidecar, day: int, target: int, net: int, submitted: int, side: Option<Side>, reason: Reason): Sidecar {
    s.(decisions := s.decisions + [Decision(day, target, net, target - net, submitted, side, reason)])
  }

  function Carry(s: Sidecar, day: int, target: int, net: int, plan: Plan, oid: int): Sidecar {
    match plan
    case Skip(reason) => Record(s, day, target, net, 0, None, reason)
    case Trade(side, qty) =>
      if s.halted then Record(s, day, target, net, 0, None, Halted)
      else Record(s.(pending := s.pending[oid := qty]), day, target, net, qty, Some(side), Submitted)
  }

  /** The division by a zero close raises, once a signal is visible. */
  predicate Raises(p: Params, bar: Bar) {
    bar.close == 0.0 && LastMatch(p.stream, p.symbol, bar.moment).Some?
  }

  /** The machine after a bar. A bar that raises has opened its day and left its close, and decides nothing. */
  function OnBar(p: Params, s: Sidecar, bar: Bar, net: int, oid: int): Sidecar
    requires Valid(p)
  {
    var day := DayOf(bar.moment);
    var rolled := Roll(s, day, net).(prevClose := Some(bar.close));
    match LastMatch(p.stream, p.symbol, bar.moment)
    case None => Record(rolled, day, 0, net, 0, None, NoSignal)
    case Some(signal) =>
      if bar.close == 0.0 then rolled else
      var target := TargetQty(p, signal.weight, bar.close);
      Carry(rolled, day, target, net, PlanGap(p, rolled, s.prevClose, bar, target - net), oid)
  }

  function OnFilled(s: Sidecar, oid: int, qty: int, isSell: bool): Sidecar {
    s.(pending := s.pending - {oid}, tradedToday := s.tradedToday + qty,
       sellable := if isSell then Max(0, s.sellable - qty) else s.sellable)
  }

  function OnRefused(s: Sidecar, oid: int): Sidecar {
    s.(pending := s.pending - {oid}, rejections := s.rejections + 1, halted := true)
  }

  // ---- the strategy object ----

  class WeightReplay {
    const params: Params
    var day: Option<int>
    var prevClose: Option<real>
    var sellable: int
    var tradedToday: int
    var pending: map<int, int>
    var rejections: int
    var halted: bool
    var decisions: seq<Decision>

    constructor (params: Params)
      ensures this.params == params && View() == FRESH
    {
      this.params := params;
      day, prevClose, sellable, tradedToday := None, None, 0, 0;
      pending, rejections, halted, decisions := map[], 0, false, [];
    }

    ghost function View(): Sidecar
      reads this
    {
      Sidecar(day, prevClose, sellable, tradedToday, pending, rejections, halted, decisions)
    }

    /** `on_order_filled`: budget and sellable shares move on the fill, not on the submission. */
    method OnOrderFilled(oid: int, lastQty: int, isSell: bool)
      modifies this
      ensures View() == OnFilled(old(View()), oid, lastQty, isSell)
    {
      pending := pending - {oid};
      tradedToday := tradedToday + lastQty;
      if isSell {
        sellable := Max(0, sellable - lastQty);
      }
    }

    /** `on_order_denied` and `on_order_rejected`. */
    method ResolveUnfilled(oid: int)
      modifies this
      ensures View() == OnRefused(old(View()), oid)
    {
      pending := pending - {oid};
      rejections := rejections + 1;
      halted := true;
    }

    /** A new day: the position becomes sellable and the budget restarts. */
    method RollDay(today: int, net: int)
      modifies this
      ensures View() == Roll(old(View()), today, net)
    {
      if day != Some(today) {
        day, sellable, tradedToday := Some(today), Max(0, net), 0;
      }
    }

    /** `on_bar`. */
    method OnBarEvent(bar: Bar, net: int, oid: int) returns (raised: bool)
      requires Valid(params)
      modifies this
      ensures raised == Raises(params, bar)
      ensures View() == OnBar(params, old(View()), bar, net, oid)
    {
      var today := DayOf(bar.moment);
      RollDay(today, net);
      raised := false;
      var weight := StreamTargetWeight(params.stream, params.symbol, bar.moment);
      var before := prevClose;
      prevClose := Some(bar.close);
      if weight.None? {
        Append(today, 0, net, 0, None, NoSignal);
        return;
      }
      if bar.close == 0.0 { return true; }
      var target := TargetQty(params, weight.value, bar.close);
      var delta := target - net;
      if delta > 0 {
        TryBuy(today, target, net, before, bar, oid);
      } else if delta < 0 {
        TrySell(today, target, net, before, bar, oid);
      } else {
        Append(today, target, net, 0, None, AtTarget);
      }
    }

    method TryBuy(today: int, target: int, net: int, before: Option<real>, bar: Bar, oid: int)
      requires Valid(params) && target - net > 0
      modifies this
      ensures View() ==
        Carry(old(View()), today, target, net, PlanGap(params, old(View()), before, bar, target - net), oid)
    {
      if before.Some? && bar.close >= PyLimitPrices(before.value, params.cfg.limitRate).0 {
        Append(today, target, net, 0, None, LimitUp);
        return;
      }
      var qty := Min(target - net, Max(0, Cap(params, bar) - tradedToday));
      qty := PyRoundDownToLot(qty as real, params.cfg.lot).value;
      if qty <= 0 {
        Append(today, target, net, 0, None, CapReached);
        return;
      }
      Submit(today, target, net, Buy, qty, oid);
    }

    method TrySell(today: int, target: int, net: int, before: Option<real>, bar: Bar, oid: int)
      requires Valid(params) && target - net < 0
      modifies this
      ensures View() ==
        Carry(old(View()), today, target, net, PlanGap(params, old(View()), before, bar, target - net), oid)
    {
      if before.Some? && bar.close <= PyLimitPrices(before.value, params.cfg.limitRate).1 {
        Append(today, target, net, 0, None, LimitDown);
        return;
      }
      var want := Min(net - target, sellable);
      var qty := Min(want, Max(0, Cap(params, bar) - tradedToday));
      if qty <= 0 {
        Append(today, target, net, 0, None, if want <= 0 then NothingSellable else CapReached);
        return;
      }
      Submit(today, target, net, Sell, qty, oid);
    }

    method Submit(today: int, target: int, net: int, side: Side, qty: int, oid: int)
      modifies this
      ensures View() == Carry(old(View()), today, target, net, Trade(side, qty), oid)
    {
      if halted {
        Append(today, target, net, 0, None, Halted);
        return;
      }
      pending := pending[oid := qty];
      Append(today, target, net, qty, Some(side), Submitted);
    }

    method Append(today: int, target: int, net: int, submitted: int, side: Option<Side>, reason: Reason)
      modifies this`decisions
      ensures View() == Record(old(View()), today, target, net, submitted, side, reason)
    {
      decisions := decisions + [Decision(today, target, net, target - net, submitted, side, reason)];
    }
  }

  // ---- any sequence of callbacks: refusals ----

  datatype Call =
    | BarCall(bar: Bar, net: int, oid: int)
    | FilledCall(oid: int, qty: int, isSell: bool)
    | DeniedCall(oid: int)
    | RejectedCall(oid: int)

  predicate Refusal(c: Call) { c.DeniedCall? || c.RejectedCall? }

  function Handle(p: Params, s: Sidecar, c: Call): Sidecar
    requires Valid(p)
  {
    match c
    case BarCall(bar, net, oid) => OnBar(p, s, bar, net, oid)
    case FilledCall(oid, qty, isSell) => OnFilled(s, oid, qty, isSell)
    case DeniedCall(oid) => OnRefused(s, oid)
    case RejectedCall(oid) => OnRefused(s, oid)
  }

  function HandleAll(p: Params, s: Sidecar, calls: seq<Call>): Sidecar
    requires Valid(p)
  {
    if calls == [] then s else
      var n := |calls| - 1;
      Handle(p, HandleAll(p, s, calls[..n]), calls[n])
  }

  function Refusals(calls: seq<Call>): nat {
    if calls == [] then 0 else Refusals(calls[..|calls| - 1]) + if Refusal(calls[|calls| - 1]) then 1 else 0
  }

  predicate IsSubmission(d: Decision) { d.reason == Submitted }

  /** A refused order costs neither budget nor sellable shares, and is counted once. */
  lemma RefusalKeepsBudget(p: Params, s: Sidecar, c: Call)
    requires Valid(p) && Refusal(c)
    ensures var t := Handle(p, s, c);
      && t == s.(pending := t.pending, rejections := s.rejections + 1, halted := true)
      && t.pending.Keys == s.pending.Keys - {c.oid}
  {
  }

  /** Over any callbacks the counter is the number of refusals, and the halt is exactly "one happened". */
  lemma {:induction false} RefusalsAreCounted(p: Params, s: Sidecar, calls: seq<Call>)
    requires Valid(p)
    ensures HandleAll(p, s, calls).rejections == s.rejections + Refusals(calls)
    ensures HandleAll(p, s, calls).halted <==> s.halted || Refusals(calls) > 0
    decreases |calls|
  {
    if calls != [] { RefusalsAreCounted(p, s, calls[..|calls| - 1]); }
  }

  /** A bar that does not raise adds one decision, and none that submits once halted. */
  lemma BarAddsDecision(p: Params, s: Sidecar, bar: Bar, net: int, oid: int) returns (d: Decision)
    requires Valid(p) && !Raises(p, bar)
    ensures OnBar(p, s, bar, net, oid).decisions == s.decisions + [d]
    ensures s.halted ==> !IsSubmission(d)
  {
    var day := DayOf(bar.moment);
    match LastMatch(p.stream, p.symbol, bar.moment)
    case None => d := Decision(day, 0, net, 0 - net, 0, None, NoSignal);
    case Some(signal) =>
      var target := TargetQty(p, signal.weight, bar.close);
      var rolled := Roll(s, day, net).(prevClose := Some(bar.close));
      var plan := PlanGap(p, rolled, s.prevClose, bar, target - net);
      d := CarryAddsDecision(rolled, day, target, net, plan, oid);
  }

  lemma CarryAddsDecision(s: Sidecar, day: int, target: int, net: int, plan: Plan, oid: int) returns (d: Decision)
    ensures Carry(s, day, target, net, plan, oid).decisions == s.decisions + [d]
    ensures s.halted && (plan.Skip? ==> plan.reason != Submitted) ==> !IsSubmission(d)
  {
    var after := Carry(s, day, target, net, plan, oid).decisions;
    d := after[|s.decisions|];
  }

  lemma {:induction false} HaltedNeverSubmits(p: Params, s: Sidecar, calls: seq<Call>)
    requires Valid(p) && s.halted
    ensures Filter(IsSubmission, HandleAll(p, s, calls).decisions) == Filter(IsSubmission, s.decisions)
    decreases |calls|
  {
    if calls != [] {
      var n := |calls| - 1;
      HaltedNeverSubmits(p, s, calls[..n]);
      RefusalsAreCounted(p, s, calls[..n]);
      var mid := HandleAll(p, s, calls[..n]);
      match calls[n]
      case BarCall(bar, net, oid) =>
        if !Raises(p, bar) {
          var d := BarAddsDecision(p, mid, bar, net, oid);
          FilterConcat(IsSubmission, mid.decisions, [d]);
          FilterOne(IsSubmission, d);
        }
      case _ =>
    }
  }

  lemma {:induction false} HandleAllConcat(p: Params, s: Sidecar, a: seq<Call>, b: seq<Call>)
    requires Valid(p)
    ensures HandleAll(p, s, a + b) == HandleAll(p, HandleAll(p, s, a), b)
    decreases |b|
  {
    if b == [] {
      assert a + b == a;
    } else {
      assert (a + b)[..|a + b| - 1] == a + b[..|b| - 1];
      HandleAllConcat(p, s, a, b[..|b| - 1]);
    }
  }

  /** No order is ever submitted after a refusal, whatever callbacks follow. */
  lemma NoOrderAfterRefusal(p: Params, s: Sidecar, before: seq<Call>, refusal: Call, after: seq<Call>)
    requires Valid(p) && Refusal(refusal)
    ensures Filter(IsSubmission, HandleAll(p, s, before + [refusal] + after).decisions)
         == Filter(IsSubmission, HandleAll(p, s, before).decisions)
  {
    HandleAllConcat(p, s, before, [refusal]);
    HandleAllConcat(p, s, before + [refusal], after);
    assert [refusal][..0] == [];
    var halted := HandleAll(p, s, before + [refusal]);
    assert halted == Handle(p, HandleAll(p, s, before), refusal);
    HaltedNeverSubmits(p, halted, after);
  }

  // ---- what a bar decides ----

  /** The target is as many whole lots as the weight's part of the capital pays for, and one lot more costs more. */
  lemma TargetQtyMeans(p: Params, weight: real, price: real)
    requires Valid(p) && price > 0.0
    ensures var t := TargetQty(p, weight, price);
      && WholeLots(t, p.cfg.lot)
      && (weight * p.cfg.capital >= 0.0 ==>
            t as real * price <= weight * p.cfg.capital < (t + p.cfg.lot) as real * price)
      && (weight * p.cfg.capital < 0.0 ==> t == 0)
  {
    LotsForWeight(weight, p.cfg.capital, price, p.cfg.lot);
    RulesAgreeUnlessRaised(WeightedShares(weight, p.cfg.capital, price), p.cfg.lot, 0.0, p.cfg.dMax);
  }

  /** The largest order the day's cap still allows. */
  function Room(p: Params, s: Sidecar, bar: Bar): int
    requires Valid(p)
  {
    Max(0, Cap(p, bar) - s.tradedToday)
  }

  predicate AtUpper(p: Params, prevClose: Option<real>, bar: Bar) {
    prevClose.Some? && PyLimitPrices(prevClose.value, p.cfg.limitRate).0 <= bar.close
  }

  predicate AtLower(p: Params, prevClose: Option<real>, bar: Bar) {
    prevClose.Some? && bar.close <= PyLimitPrices(prevClose.value, p.cfg.limitRate).1
  }

  /** Each outcome of an upward gap has exactly one cause. */
  lemma BuyPlanMeans(p: Params, s: Sidecar, prevClose: Option<real>, bar: Bar, delta: int)
    requires Valid(p) && delta > 0
    ensures var plan := PlanGap(p, s, prevClose, bar, delta);
      && (plan == Skip(LimitUp) <==> AtUpper(p, prevClose, bar))
      && (plan.Trade? <==> delta >= p.cfg.lot && Room(p, s, bar) >= p.cfg.lot && !AtUpper(p, prevClose, bar))
      && (plan.Trade? ==> plan.side == Buy)
      && (plan.Skip? ==> plan.reason == LimitUp || plan.reason == CapReached)
  {
    RoundDownShares(Min(delta, Room(p, s, bar)), p.cfg.lot);
  }

  /** Each outcome of a downward gap has exactly one cause. */
  lemma SellPlanMeans(p: Params, s: Sidecar, prevClose: Option<real>, bar: Bar, delta: int)
    requires Valid(p) && delta < 0
    ensures var plan := PlanGap(p, s, prevClose, bar, delta);
      && (plan == Skip(LimitDown) <==> AtLower(p, prevClose, bar))
      && (plan.Trade? <==> s.sellable > 0 && Room(p, s, bar) > 0 && !AtLower(p, prevClose, bar))
      && (plan == Skip(NothingSellable) <==> s.sellable <= 0 && !AtLower(p, prevClose, bar))
      && (plan.Trade? ==> plan.side == Sell)
      && (plan.Skip? ==> plan.reason == LimitDown || plan.reason == NothingSellable || plan.reason == CapReached)
  {
  }

  /** Each outcome of a plan has exactly one cause. */
  lemma PlanMeans(p: Params, s: Sidecar, prevClose: Option<real>, bar: Bar, delta: int, plan: Plan)
    requires Valid(p) && plan == PlanGap(p, s, prevClose, bar, delta)
    ensures plan == Skip(AtTarget) <==> delta == 0
    ensures plan == Skip(LimitUp) <==> delta > 0 && AtUpper(p, prevClose, bar)
    ensures plan == Skip(LimitDown) <==> delta < 0 && AtLower(p, prevClose, bar)
    ensures plan.Trade? && plan.side == Buy <==>
      delta >= p.cfg.lot && Room(p, s, bar) >= p.cfg.lot && !AtUpper(p, prevClose, bar)
    ensures plan.Trade? && plan.side == Sell <==>
      delta < 0 && s.sellable > 0 && Room(p, s, bar) > 0 && !AtLower(p, prevClose, bar)
    ensures plan == Skip(NothingSellable) <==> delta < 0 && s.sellable <= 0 && !AtLower(p, prevClose, bar)
  {
    if delta > 0 {
      BuyPlanMeans(p, s, prevClose, bar, delta);
    } else if delta < 0 {
      SellPlanMeans(p, s, prevClose, bar, delta);
    }
  }

  /** A planned quantity is the most that fits: whole lots of gap and room, or gap, sellable shares and room. */
  lemma PlanQtyMeans(p: Params, s: Sidecar, prevClose: Option<real>, bar: Bar, delta: int)
    requires Valid(p) && PlanGap(p, s, prevClose, bar, delta).Trade?
    ensures var plan := PlanGap(p, s, prevClose, bar, delta); var room := Room(p, s, bar);
      && plan.qty > 0 && plan.qty <= room
      && (plan.side == Buy ==>
            WholeLots(plan.qty, p.cfg.lot) && plan.qty <= delta
            && (delta < plan.qty + p.cfg.lot || room < plan.qty + p.cfg.lot))
      && (plan.side == Sell ==>
            plan.qty <= -delta && plan.qty <= s.sellable
            && (plan.qty == -delta || plan.qty == s.sellable || plan.qty == room))
  {
    RoundDownShares(Min(delta, Room(p, s, bar)), p.cfg.lot);
  }

  /** What a bar leaves in the record: its day, target and gap, and exactly what was submitted. */
  lemma DecisionMeans(p: Params, s: Sidecar, bar: Bar, net: int, oid: int)
    requires Valid(p) && !Raises(p, bar)
    ensures var t := OnBar(p, s, bar, net, oid);
      && |t.decisions| == |s.decisions| + 1
      && var d := t.decisions[|s.decisions|]; var l := LastMatch(p.stream, p.symbol, bar.moment);
      && d.day == DayOf(bar.moment) && d.currentQty == net && d.delta == d.targetQty - net
      && d.targetQty == (if l.None? then 0 else TargetQty(p, l.value.weight, bar.close))
      && (d.reason == NoSignal <==> l.None?)
      && (d.submitted > 0 <==> d.reason == Submitted)
      && (d.side.Some? <==> d.reason == Submitted)
      && (d.reason == Submitted ==> !s.halted && oid in t.pending && t.pending[oid] == d.submitted)
      && (d.reason != Submitted ==> d.submitted == 0 && t.pending == s.pending)
  {
    match LastMatch(p.stream, p.symbol, bar.moment)
    case None =>
    case Some(signal) =>
      var rolled := Roll(s, DayOf(bar.moment), net).(prevClose := Some(bar.close));
      PlanIsSafe(p, rolled, s.prevClose, bar, TargetQty(p, signal.weight, bar.close) - net);
  }

  // ---- no look-ahead ----

  /** Every bar of the callbacks is at or before `m`. */
  predicate BarsBy(calls: seq<Call>, m: int) {
    forall i :: 0 <= i < |calls| && calls[i].BarCall? ==> calls[i].bar.moment <= m
  }

  lemma {:induction false} HandledAlike(p: Params, other: seq<Signal>, s: Sidecar, calls: seq<Call>, m: int)
    requires Valid(p) && Sorted(other) && SameUpTo(p.stream, other, m) && BarsBy(calls, m)
    ensures HandleAll(p, s, calls) == HandleAll(p.(stream := other), s, calls)
    decreases |calls|
  {
    if calls != [] {
      var n := |calls| - 1;
      HandledAlike(p, other, s, calls[..n], m);
      if calls[n].BarCall? {
        var bar := calls[n].bar;
        assert LastMatch(p.stream, p.symbol, bar.moment) == LastMatch(other, p.symbol, bar.moment);
        BarHandledAlike(p, other, HandleAll(p, s, calls[..n]), bar, calls[n].net, calls[n].oid);
      }
    }
  }

  lemma BarHandledAlike(p: Params, other: seq<Signal>, s: Sidecar, bar: Bar, net: int, oid: int)
    requires Valid(p) && Sorted(other) && LastMatch(p.stream, p.symbol, bar.moment) == LastMatch(other, p.symbol, bar.moment)
    ensures OnBar(p, s, bar, net, oid) == OnBar(p.(stream := other), s, bar, net, oid)
  {
  }

  lemma {:induction false} DecisionsOnlyGrow(p: Params, s: Sidecar, calls: seq<Call>)
    requires Valid(p)
    ensures s.decisions <= HandleAll(p, s, calls).decisions
    decreases |calls|
  {
    if calls != [] {
      var n := |calls| - 1;
      DecisionsOnlyGrow(p, s, calls[..n]);
      var mid := HandleAll(p, s, calls[..n]);
      match calls[n]
      case BarCall(bar, net, oid) =>
        if !Raises(p, bar) { var d := BarAddsDecision(p, mid, bar, net, oid); }
      case _ =>
    }
  }

  lemma DecidedStays(p: Params, s: Sidecar, calls: seq<Call>, later: seq<Call>)
    requires Valid(p)
    ensures HandleAll(p, s, calls).decisions <= HandleAll(p, s, calls + later).decisions
  {
    HandleAllConcat(p, s, calls, later);
    DecisionsOnlyGrow(p, HandleAll(p, s, calls), later);
  }

  /**
   * Two instances whose rows agree on the signals in effect by `m` and that got the same callbacks, with no
   * bar after `m`, are in the same state. What they decided by then stays, whatever follows on either side.
   */
  lemma SidecarIsCausal(symbol: string, cfg: Config, rowsA: seq<Row>, rowsB: seq<Row>, m: int, s: Sidecar,
                        calls: seq<Call>, laterA: seq<Call>, laterB: seq<Call>)
    requires cfg.lot > 0 && cfg.dMax > 0.0 && NormaliseAll(rowsA).Some? && NormaliseAll(rowsB).Some?
    requires Filter(SeenBy(m), NormaliseAll(rowsA).value) == Filter(SeenBy(m), NormaliseAll(rowsB).value)
    requires BarsBy(calls, m)
    ensures var a := Params(symbol, StableSort(NormaliseAll(rowsA).value), cfg);
      var b := Params(symbol, StableSort(NormaliseAll(rowsB).value), cfg);
      && Valid(a) && Valid(b)
      && HandleAll(a, s, calls) == HandleAll(b, s, calls)
      && HandleAll(a, s, calls).decisions <= HandleAll(a, s, calls + laterA).decisions
      && HandleAll(b, s, calls).decisions <= HandleAll(b, s, calls + laterB).decisions
  {
    var a := Params(symbol, StableSort(NormaliseAll(rowsA).value), cfg);
    var b := Params(symbol, StableSort(NormaliseAll(rowsB).value), cfg);
    StableSortIsStable(NormaliseAll(rowsA).value);
    StableSortIsStable(NormaliseAll(rowsB).value);
    StreamsAgreeUpTo(NormaliseAll(rowsA).value, NormaliseAll(rowsB).value, m);
    HandledAlike(a, b.stream, s, calls, m);
    DecidedStays(a, s, calls, laterA);
    DecidedStays(b, s, calls, laterB);
  }

  // ---- runs whose orders resolve before the next bar ----

  datatype Working = Idle | Open(oid: int, side: Side, left: int)

  /**
   * The machine with its venue. `opening`, `bought`, `sold` and `dayCap` are an outside ledger of the
   * current day: position at its first bar, shares bought and sold since, largest cap of its bars.
   */
  datatype World = World(s: Sidecar, net: int, working: Working, opening: int, bought: int, sold: int, dayCap: int)

  datatype Step = Tick(bar: Bar, oid: int) | Fill(qty: int) | Expire | Refuse

  /** A bar only arrives when no order is open; an order may fill in parts, expire or be refused. */
  predicate Allowed(p: Params, w: World, e: Step) {
    match e
    case Tick(bar, _) => w.working.Idle? && !Raises(p, bar)
    case Fill(qty) => w.working.Open? && 0 < qty <= w.working.left
    case _ => w.working.Open?
  }

  function NowWorking(s: Sidecar, oid: int): Working
    requires s.decisions != []
  {
    var d := s.decisions[|s.decisions| - 1];
    if d.reason == Submitted && d.side.Some? then Open(oid, d.side.value, d.submitted) else Idle
  }

  function Next(p: Params, w: World, e: Step): World
    requires Valid(p) && Allowed(p, w, e)
  {
    match e
    case Tick(bar, oid) =>
      var s := OnBar(p, w.s, bar, w.net, oid);
      if w.s.day == Some(DayOf(bar.moment))
      then w.(s := s, working := NowWorking(s, oid), dayCap := Max(w.dayCap, Cap(p, bar)))
      else World(s, w.net, NowWorking(s, oid), w.net, 0, 0, Cap(p, bar))
    case Fill(qty) =>
      var sell := w.working.side == Sell;
      var s := OnFilled(w.s, w.working.oid, qty, sell);
      var open := if qty == w.working.left then Idle else w.working.(left := w.working.left - qty);
      if sell then w.(s := s, working := open, net := w.net - qty, sold := w.sold + qty)
      else w.(s := s, working := open, net := w.net + qty, bought := w.bought + qty)
    case Expire => w.(working := Idle)
    case Refuse => w.(s := OnRefused(w.s, w.working.oid), working := Idle)
  }

  predicate AllowedRun(p: Params, w: World, steps: seq<Step>)
    requires Valid(p)
    decreases |steps|
  {
    steps == [] || (Allowed(p, w, steps[0]) && AllowedRun(p, Next(p, w, steps[0]), steps[1..]))
  }

  function Run(p: Params, w: World, steps: seq<Step>): World
    requires Valid(p) && AllowedRun(p, w, steps)
    decreases |steps|
  {
    if steps == [] then w else Run(p, Next(p, w, steps[0]), steps[1..])
  }

  function Left(w: World): int { if w.working.Open? then w.working.left else 0 }

  /** Every submitted buy is a positive whole number of lots, every submitted sell is positive. */
  ghost predicate LotsOnly(p: Params, decisions: seq<Decision>) {
    forall i :: 0 <= i < |decisions| && IsSubmission(decisions[i]) ==>
      && decisions[i].submitted > 0
      && (decisions[i].side == Some(Buy) ==> WholeLots(decisions[i].submitted, p.cfg.lot))
  }

  /** What every step keeps: T+1, the participation cap, board lots, no short position. */
  ghost predicate Safe(p: Params, w: World) {
    && w.net >= 0
    && w.s.sellable >= 0
    && LotsOnly(p, w.s.decisions)
    && (w.s.day.None? ==> w.working.Idle?)
    && (w.s.day.Some? ==>
          && w.sold + w.s.sellable == w.opening
          && w.net == w.opening + w.bought - w.sold
          && w.bought >= 0 && w.sold >= 0
          && w.s.tradedToday == w.bought + w.sold
          && w.s.tradedToday + Left(w) <= w.dayCap)
    && (w.working.Open? ==> w.working.left > 0 && (w.working.side == Sell ==> w.working.left <= w.s.sellable))
  }

  lemma PlanIsSafe(p: Params, s: Sidecar, prevClose: Option<real>, bar: Bar, delta: int)
    requires Valid(p)
    ensures match PlanGap(p, s, prevClose, bar, delta)
      case Skip(reason) => reason != Submitted
      case Trade(side, qty) =>
        && qty > 0
        && s.tradedToday + qty <= Cap(p, bar)
        && (side == Buy ==> qty <= delta && WholeLots(qty, p.cfg.lot))
        && (side == Sell ==> qty <= -delta && qty <= s.sellable)
  {
    var room := Max(0, Cap(p, bar) - s.tradedToday);
    RoundDownShares(Min(delta, room), p.cfg.lot);
  }

  lemma CarryIsSafe(p: Params, s: Sidecar, day: int, target: int, net: int, plan: Plan, oid: int)
    requires LotsOnly(p, s.decisions)
    requires plan.Skip? ==> plan.reason != Submitted
    requires plan.Trade? ==> plan.qty > 0 && (plan.side == Buy ==> WholeLots(plan.qty, p.cfg.lot))
    ensures var t := Carry(s, day, target, net, plan, oid);
      && LotsOnly(p, t.decisions)
      && t.decisions != []
      && t == s.(decisions := t.decisions, pending := t.pending)
      && NowWorking(t, oid) == if plan.Trade? && !s.halted then Open(oid, plan.side, plan.qty) else Idle
  {
  }

  /** The machine and its day ledger at a bar, before the bar leads to anything. */
  function AtBar(p: Params, w: World, bar: Bar): World
    requires Valid(p)
  {
    var s := Roll(w.s, DayOf(bar.moment), w.net).(prevClose := Some(bar.close));
    if w.s.day == Some(DayOf(bar.moment)) then w.(s := s, dayCap := Max(w.dayCap, Cap(p, bar)))
    else World(s, w.net, w.working, w.net, 0, 0, Cap(p, bar))
  }

  lemma AtBarIsSafe(p: Params, w: World, bar: Bar)
    requires Valid(p) && Safe(p, w) && w.working.Idle?
    ensures Safe(p, AtBar(p, w, bar)) && Cap(p, bar) <= AtBar(p, w, bar).dayCap
    ensures AtBar(p, w, bar).s.day == Some(DayOf(bar.moment)) && AtBar(p, w, bar).s.decisions == w.s.decisions
  {
    CapNonNegative(bar.volume, p.cfg.dMax);
  }

  /** An order within cap and sellable shares, or none, keeps the bar safe. */
  lemma OrderIsSafe(p: Params, w: World, target: int, plan: Plan, oid: int, cap: int)
    requires Safe(p, w) && w.working.Idle? && w.s.day.Some? && cap <= w.dayCap
    requires match plan
      case Skip(reason) => reason != Submitted
      case Trade(side, qty) =>
        && qty > 0 && w.s.tradedToday + qty <= cap
        && (side == Buy ==> WholeLots(qty, p.cfg.lot))
        && (side == Sell ==> qty <= w.s.sellable)
    ensures var t := Carry(w.s, w.s.day.value, target, w.net, plan, oid);
      t.decisions != [] && Safe(p, w.(s := t, working := NowWorking(t, oid)))
  {
    CarryIsSafe(p, w.s, w.s.day.value, target, w.net, plan, oid);
  }

  /** A bar carries out a plan that is within its cap and the sellable shares. */
  lemma TickCarries(p: Params, w: World, bar: Bar, oid: int) returns (target: int, plan: Plan)
    requires Valid(p) && Allowed(p, w, Tick(bar, oid))
    ensures var at := AtBar(p, w, bar);
      var t := Carry(at.s, DayOf(bar.moment), target, w.net, plan, oid);
      t.decisions != [] && Next(p, w, Tick(bar, oid)) == at.(s := t, working := NowWorking(t, oid))
    ensures match plan
      case Skip(reason) => reason != Submitted
      case Trade(side, qty) =>
        && qty > 0 && AtBar(p, w, bar).s.tradedToday + qty <= Cap(p, bar)
        && (side == Buy ==> WholeLots(qty, p.cfg.lot))
        && (side == Sell ==> qty <= AtBar(p, w, bar).s.sellable)
  {
    var at := AtBar(p, w, bar);
    match LastMatch(p.stream, p.symbol, bar.moment)
    case None => target, plan := 0, Skip(NoSignal);
    case Some(signal) =>
      target := TargetQty(p, signal.weight, bar.close);
      plan := PlanGap(p, at.s, w.s.prevClose, bar, target - w.net);
      PlanIsSafe(p, at.s, w.s.prevClose, bar, target - w.net);
  }

  lemma TickIsSafe(p: Params, w: World, bar: Bar, oid: int)
    requires Valid(p) && Safe(p, w) && Allowed(p, w, Tick(bar, oid))
    ensures Safe(p, Next(p, w, Tick(bar, oid)))
  {
    AtBarIsSafe(p, w, bar);
    var target, plan := TickCarries(p, w, bar, oid);
    OrderIsSafe(p, AtBar(p, w, bar), target, plan, oid, Cap(p, bar));
  }

  lemma CapNonNegative(volume: real, dMax: real)
    requires dMax > 0.0
    ensures PyParticipationCap(volume, dMax).value >= 0
  {
    if volume > 0.0 { assert dMax * volume > 0.0; }
  }

  lemma StepIsSafe(p: Params, w: World, e: Step)
    requires Valid(p) && Safe(p, w) && Allowed(p, w, e)
    ensures Safe(p, Next(p, w, e))
  {
    if e.Tick? { TickIsSafe(p, w, e.bar, e.oid); }
  }

  /** Safety over whole runs, with any partial fills, expiries and refusals. */
  lemma {:induction false} RunIsSafe(p: Params, w: World, steps: seq<Step>)
    requires Valid(p) && Safe(p, w) && AllowedRun(p, w, steps)
    ensures Safe(p, Run(p, w, steps))
    decreases |steps|
  {
    if steps != [] {
      StepIsSafe(p, w, steps[0]);
      RunIsSafe(p, Next(p, w, steps[0]), steps[1..]);
    }
  }

  /** A fresh machine over any long-only position is safe to start from. */
  lemma FreshIsSafe(p: Params, net: nat)
    ensures Safe(p, World(FRESH, net, Idle, 0, 0, 0, 0))
  {
  }

  lemma {:induction false} NoTickKeepsCap(p: Params, w: World, steps: seq<Step>)
    requires Valid(p) && AllowedRun(p, w, steps) && forall i :: 0 <= i < |steps| ==> !steps[i].Tick?
    ensures Run(p, w, steps).dayCap == w.dayCap && Run(p, w, steps).s.day == w.s.day
    decreases |steps|
  {
    if steps != [] { NoTickKeepsCap(p, Next(p, w, steps[0]), steps[1..]); }
  }

  lemma FirstTick(p: Params, w: World, bar: Bar, oid: int)
    requires Valid(p) && Allowed(p, w, Tick(bar, oid)) && w.s.day != Some(DayOf(bar.moment))
    ensures var next := Next(p, w, Tick(bar, oid)); next.s.day == Some(DayOf(bar.moment)) && next.dayCap == Cap(p, bar)
  {
    BarSubmits(p, w.s, bar, w.net, oid);
  }

  lemma TradedWithinCap(p: Params, w: World)
    requires Safe(p, w) && w.s.day.Some?
    ensures w.s.tradedToday <= w.dayCap
  {
    assert Left(w) >= 0;
  }

  /** With one bar a day, what is traded that day stays within that bar's participation cap. */
  lemma DailyBarStaysWithinCap(p: Params, w: World, bar: Bar, oid: int, rest: seq<Step>)
    requires Valid(p) && Safe(p, w) && w.s.day != Some(DayOf(bar.moment))
    requires AllowedRun(p, w, [Tick(bar, oid)] + rest) && forall i :: 0 <= i < |rest| ==> !rest[i].Tick?
    ensures Run(p, w, [Tick(bar, oid)] + rest).s.tradedToday <= Cap(p, bar)
  {
    var steps := [Tick(bar, oid)] + rest;
    assert steps[1..] == rest;
    var next := Next(p, w, steps[0]);
    FirstTick(p, w, bar, oid);
    NoTickKeepsCap(p, next, rest);
    RunIsSafe(p, w, steps);
    TradedWithinCap(p, Run(p, w, steps));
  }

  // ---- bars that arrive with orders open ----

  /**
   * The machine with any number of open orders, `left` shares of them in all. `dayCap` is the largest cap
   * of the day's bars; `extra` is what was open at its first bar, plus the caps of the bars that arrived
   * with an order open.
   */
  datatype Busy = Busy(s: Sidecar, left: int, dayCap: int, extra: int)

  datatype BusyStep =
    | BusyTick(bar: Bar, net: int, oid: int)
    | BusyFill(oid: int, qty: int, isSell: bool)
    | BusyExpire(qty: int)
    | BusyRefuse(oid: int, qty: int)

  predicate BusyAllowed(p: Params, w: Busy, e: BusyStep) {
    match e
    case BusyTick(bar, _, _) => !Raises(p, bar)
    case BusyFill(_, qty, _) => 0 < qty <= w.left
    case BusyExpire(qty) => 0 < qty <= w.left
    case BusyRefuse(_, qty) => 0 < qty <= w.left
  }

  function SubmittedQty(s: Sidecar): int {
    if s.decisions == [] then 0 else s.decisions[|s.decisions| - 1].submitted
  }

  function BusyNext(p: Params, w: Busy, e: BusyStep): Busy
    requires Valid(p)
  {
    match e
    case BusyTick(bar, net, oid) =>
      var s := OnBar(p, w.s, bar, net, oid);
      var left := w.left + SubmittedQty(s);
      if w.s.day == Some(DayOf(bar.moment))
      then Busy(s, left, Max(w.dayCap, Cap(p, bar)), w.extra + if w.left > 0 then Cap(p, bar) else 0)
      else Busy(s, left, Cap(p, bar), w.left)
    case BusyFill(oid, qty, isSell) => w.(s := OnFilled(w.s, oid, qty, isSell), left := w.left - qty)
    case BusyExpire(qty) => w.(left := w.left - qty)
    case BusyRefuse(oid, qty) => w.(s := OnRefused(w.s, oid), left := w.left - qty)
  }

  predicate BusyRunAllowed(p: Params, w: Busy, steps: seq<BusyStep>)
    requires Valid(p)
    decreases |steps|
  {
    steps == [] || (BusyAllowed(p, w, steps[0]) && BusyRunAllowed(p, BusyNext(p, w, steps[0]), steps[1..]))
  }

  function BusyRun(p: Params, w: Busy, steps: seq<BusyStep>): Busy
    requires Valid(p)
    decreases |steps|
  {
    if steps == [] then w else BusyRun(p, BusyNext(p, w, steps[0]), steps[1..])
  }

  /** What is traded today and what is still open, against the caps. */
  predicate Bounded(w: Busy) {
    && w.left >= 0 && w.extra >= 0 && w.s.tradedToday >= 0
    && (w.s.day.None? ==> w.left == 0)
    && (w.s.day.Some? ==> w.s.tradedToday + w.left <= w.dayCap + w.extra)
  }

  /** A bar submits nothing, or what the cap of that bar leaves. */
  lemma BarSubmits(p: Params, s: Sidecar, bar: Bar, net: int, oid: int)
    requires Valid(p) && !Raises(p, bar)
    ensures var t := OnBar(p, s, bar, net, oid); var rolled := Roll(s, DayOf(bar.moment), net);
      && t.day == Some(DayOf(bar.moment)) && t.tradedToday == rolled.tradedToday
      && (SubmittedQty(t) == 0 || 0 < SubmittedQty(t) <= Cap(p, bar) - t.tradedToday)
  {
    match LastMatch(p.stream, p.symbol, bar.moment)
    case None =>
    case Some(signal) =>
      var rolled := Roll(s, DayOf(bar.moment), net).(prevClose := Some(bar.close));
      PlanIsSafe(p, rolled, s.prevClose, bar, TargetQty(p, signal.weight, bar.close) - net);
  }

  lemma BusyStepIsBounded(p: Params, w: Busy, e: BusyStep)
    requires Valid(p) && Bounded(w) && BusyAllowed(p, w, e)
    ensures Bounded(BusyNext(p, w, e))
  {
    if e.BusyTick? {
      BarSubmits(p, w.s, e.bar, e.net, e.oid);
      CapNonNegative(e.bar.volume, p.cfg.dMax);
    }
  }

  /**
   * In every run, with bars arriving while orders are open: traded plus open stays within the day's cap
   * plus what was open at its first bar plus the caps of the bars that arrived with an order open.
   */
  lemma {:induction false} OverlapIsBounded(p: Params, w: Busy, steps: seq<BusyStep>)
    requires Valid(p) && Bounded(w) && BusyRunAllowed(p, w, steps)
    ensures Bounded(BusyRun(p, w, steps))
    decreases |steps|
  {
    if steps != [] {
      BusyStepIsBounded(p, w, steps[0]);
      OverlapIsBounded(p, BusyNext(p, w, steps[0]), steps[1..]);
    }
  }

  // ---- why orders must resolve before the next bar ----

  /** Lots and caps of one share, a target of ten, limits far away. */
  predicate OneShareAtATime(p: Params, bar: Bar) {
    && p.cfg == Config(10.0, 0.5, 1, 1.0)
    && p.stream == [Signal(p.symbol, 1.0, 0)]
    && bar == Bar(0, 1.0, 1.0)
  }

  /** A buy of one share is planned at price 1 with a cap of one share, whatever is still open. */
  lemma OneShareIsPlanned(p: Params, s: Sidecar, prev: Option<real>, bar: Bar)
    requires OneShareAtATime(p, bar) && s.tradedToday == 0 && (prev == None || prev == Some(1.0))
    ensures Valid(p) && Cap(p, bar) == 1 && PlanGap(p, s, prev, bar, 10) == Trade(Buy, 1)
  {
    assert PyLimitPrices(1.0, 0.5).0 == 1.5 by { assert PyRound(150.0) == 150; }
    assert (1.0 / 1.0).Floor == 1;
  }

  lemma OneShareIsSubmitted(p: Params, s: Sidecar, bar: Bar, oid: int)
    requires OneShareAtATime(p, bar) && !s.halted
    requires s == FRESH || (s.day == Some(0) && s.tradedToday == 0 && s.prevClose == Some(1.0))
    ensures Valid(p)
    ensures var t := OnBar(p, s, bar, 0, oid);
      && t.decisions != [] && NowWorking(t, oid) == Open(oid, Buy, 1)
      && t.day == Some(0) && t.tradedToday == 0 && t.prevClose == Some(1.0) && !t.halted
  {
    assert p.stream[0] == Signal(p.symbol, 1.0, 0) && LastMatch(p.stream, p.symbol, 0) == Some(p.stream[0]);
    assert DayOf(0) == 0;
    assert WeightedShares(1.0, 10.0, 1.0) == 10.0;
    assert (10.0 / 1.0).Floor == 10;
    var rolled := Roll(s, 0, 0).(prevClose := Some(1.0));
    OneShareIsPlanned(p, rolled, s.prevClose, bar);
    assert TargetQty(p, 1.0, 1.0) == 10;
  }

  /** The bound is reached: an order left open over a bar is not reserved, and two bars fill twice the cap. */
  lemma OpenOrdersBreakTheCap(p: Params, bar: Bar) returns (steps: seq<BusyStep>)
    requires OneShareAtATime(p, bar)
    ensures Valid(p) && Cap(p, bar) == 1
    ensures BusyRunAllowed(p, Busy(FRESH, 0, 0, 0), steps)
    ensures var end := BusyRun(p, Busy(FRESH, 0, 0, 0), steps);
      end.dayCap == 1 && end.extra == 1 && end.s.tradedToday == 2
  {
    steps := [BusyTick(bar, 0, 1), BusyTick(bar, 0, 2), BusyFill(1, 1, false), BusyFill(2, 1, false)];
    OneShareIsPlanned(p, FRESH, None, bar);
    OneShareIsSubmitted(p, FRESH, bar, 1);
    var w1 := BusyNext(p, Busy(FRESH, 0, 0, 0), steps[0]);
    assert w1 == Busy(w1.s, 1, 1, 0);
    OneShareIsSubmitted(p, w1.s, bar, 2);
    var w2 := BusyNext(p, w1, steps[1]);
    assert w2 == Busy(w2.s, 2, 1, 1);
    var w3 := BusyNext(p, w2, steps[2]);
    var w4 := BusyNext(p, w3, steps[3]);
    assert w4.s.tradedToday == 2;
    assert steps[1..][0] == steps[1] && steps[1..][1..] == steps[2..];
    assert steps[2..][0] == steps[2] && steps[2..][1..] == [steps[3]] && [steps[3]][1..] == [];
    assert BusyRun(p, w3, [steps[3]]) == w4 && BusyRunAllowed(p, w3, [steps[3]]);
    assert BusyRun(p, w2, steps[2..]) == w4 && BusyRunAllowed(p, w2, steps[2..]);
    assert BusyRun(p, w1, steps[1..]) == w4 && BusyRunAllowed(p, w1, steps[1..]);
  }
}
