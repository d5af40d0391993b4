/** The sidecar's synthetic equity curve: cash from account events plus positions marked at carried closes. */
module Equity {
  import opened Collections

  datatype AccountEvent = AccountEvent(day: int, total: real)

  /** `signed` is positive for a buy; price and fee are what the trade cost, the curve itself reads neither. */
  datatype Fill = Fill(day: int, symbol: string, signed: real, price: real, fee: real)

  datatype Point = Point(day: int, close: real)

  datatype Series = Series(symbol: string, points: seq<Point>)

  datatype Mark = Mark(day: int, equity: real, cash: real, positions: real)

  // ---- cash ----

  function EventDays(events: seq<AccountEvent>): set<int> { set i | 0 <= i < |events| :: events[i].day }

  /** The last event of a day, in report order. */
  function LastTotal(events: seq<AccountEvent>, day: int): Option<real> {
    if events == [] then None
    else if events[|events| - 1].day == day then Some(events[|events| - 1].total)
    else LastTotal(events[..|events| - 1], day)
  }

  /** The latest event day not after `day`. */
  function KeyFor(days: set<int>, day: int): Option<int> {
    var upTo := set d | d in days && d <= day;
    if upTo == {} then None else Some(MaxOf(upTo))
  }

  /** The cash of a day: its last event, else the last event of the latest earlier day, else the capital. */
  function CashOn(capital: real, events: seq<AccountEvent>, day: int): real {
    match KeyFor(EventDays(events), day)
    case None => capital
    case Some(k) => LastTotal(events, k).GetOr(capital)
  }

  lemma {:induction false} LastTotalExists(events: seq<AccountEvent>, day: int)
    ensures LastTotal(events, day).Some? <==> day in EventDays(events)
    decreases |events|
  {
    if events != [] {
      var n := |events| - 1;
      LastTotalExists(events[..n], day);
      if events[n].day != day && day in EventDays(events) {
        var i :| 0 <= i < |events| && events[i].day == day;
        assert events[..n][i].day == day;
      }
      if day in EventDays(events[..n]) {
        var i :| 0 <= i < n && events[..n][i].day == day;
        assert events[i].day == day;
      }
    }
  }

  // ---- positions ----

  function PosQty(fills: seq<Fill>, symbol: string, day: int): real {
    if fills == [] then 0.0 else
      var f := fills[|fills| - 1];
      PosQty(fills[..|fills| - 1], symbol, day) + if f.symbol == symbol && f.day <= day then f.signed else 0.0
  }

  /** The last point not after `day`: a close carries forward over days without a bar. */
  function CloseOn(points: seq<Point>, day: int): Option<real> {
    if points == [] then None
    else if points[|points| - 1].day <= day then Some(points[|points| - 1].close)
    else CloseOn(points[..|points| - 1], day)
  }

  function Px(s: Series, day: int): real { CloseOn(s.points, day).GetOr(0.0) }

  function SumOver(closes: seq<Series>, f: Series -> real): real {
    if closes == [] then 0.0 else SumOver(closes[..|closes| - 1], f) + f(closes[|closes| - 1])
  }

  function ValueAt(fills: seq<Fill>, day: int): Series -> real {
    (s: Series) => PosQty(fills, s.symbol, day) * Px(s, day)
  }

  function Positions(closes: seq<Series>, fills: seq<Fill>, day: int): real {
    SumOver(closes, ValueAt(fills, day))
  }

  function EquityOn(capital: real, events: seq<AccountEvent>, closes: seq<Series>, fills: seq<Fill>, day: int): real {
    CashOn(capital, events, day) + Positions(closes, fills, day)
  }

  // ---- what cash, closes and quantities are ----

  /** Event i is the latest known on `day`: of the latest event day so far, and the last one of it. */
  ghost predicate LatestEvent(events: seq<AccountEvent>, day: int, i: nat) {
    && i < |events| && events[i].day <= day
    && forall k :: 0 <= k < |events| && events[k].day <= day ==>
         events[k].day < events[i].day || (events[k].day == events[i].day && k <= i)
  }

  lemma {:induction false} LastTotalIs(events: seq<AccountEvent>, i: nat)
    requires i < |events| && forall k :: i < k < |events| ==> events[k].day != events[i].day
    ensures LastTotal(events, events[i].day) == Some(events[i].total)
    decreases |events|
  {
    if i < |events| - 1 { LastTotalIs(events[..|events| - 1], i); }
  }

  /** Cash is the total of the latest event known, and the capital before the first. */
  lemma CashMeans(capital: real, events: seq<AccountEvent>, day: int, i: nat)
    ensures LatestEvent(events, day, i) ==> CashOn(capital, events, day) == events[i].total
    ensures (forall k :: 0 <= k < |events| ==> events[k].day > day) ==> CashOn(capital, events, day) == capital
  {
    var upTo := set d | d in EventDays(events) && d <= day;
    if LatestEvent(events, day, i) {
      assert events[i].day in upTo;
      assert MaxOf(upTo) == events[i].day;
      LastTotalIs(events, i);
    }
  }

  /** The close is that of the last point not after the day. */
  lemma {:induction false} CloseMeans(points: seq<Point>, day: int, i: nat)
    requires i < |points| && points[i].day <= day && forall k :: i < k < |points| ==> points[k].day > day
    ensures CloseOn(points, day) == Some(points[i].close)
    decreases |points|
  {
    if i < |points| - 1 { CloseMeans(points[..|points| - 1], day, i); }
  }

  /** There is none exactly when every point is after the day. */
  lemma {:induction false} NoCloseIff(points: seq<Point>, day: int)
    ensures CloseOn(points, day) == None <==> forall k :: 0 <= k < |points| ==> points[k].day > day
    decreases |points|
  {
    if points != [] { NoCloseIff(points[..|points| - 1], day); }
  }

  /** A series without a close yet is worth nothing, whatever is held. */
  lemma UnpricedIsWorthless(s: Series, fills: seq<Fill>, day: int)
    requires forall k :: 0 <= k < |s.points| ==> s.points[k].day > day
    ensures ValueAt(fills, day)(s) == 0.0
  {
    NoCloseIff(s.points, day);
  }

  /** Quantities add up over fills. */
  lemma {:induction false} QtyAdds(a: seq<Fill>, b: seq<Fill>, symbol: string, day: int)
    ensures PosQty(a + b, symbol, day) == PosQty(a, symbol, day) + PosQty(b, symbol, day)
    decreases |b|
  {
    if b == [] {
      assert a + b == a;
    } else {
      assert (a + b)[..|a + b| - 1] == a + b[..|b| - 1];
      QtyAdds(a, b[..|b| - 1], symbol, day);
    }
  }

  /** One fill is its signed quantity, from its own day on and for its own symbol; no fill is nothing. */
  lemma QtyOfOne(f: Fill, symbol: string, day: int)
    ensures PosQty([f], symbol, day) == if f.symbol == symbol && f.day <= day then f.signed else 0.0
    ensures PosQty([], symbol, day) == 0.0
  {
    assert [f][..0] == [];
  }

  lemma {:induction false} NothingHeld(closes: seq<Series>, fills: seq<Fill>, day: int)
    requires forall k :: 0 <= k < |fills| ==> fills[k].day > day
    ensures forall symbol :: PosQty(fills, symbol, day) == 0.0
    ensures Positions(closes, fills, day) == 0.0
    decreases |fills| + |closes|
  {
    if fills != [] { NothingHeld([], fills[..|fills| - 1], day); }
    if closes != [] { NothingHeld(closes[..|closes| - 1], fills, day); }
  }

  /** Before the first event and the first fill equity is the capital. */
  lemma EquityStartsAtCapital(capital: real, events: seq<AccountEvent>, closes: seq<Series>, fills: seq<Fill>, day: int)
    requires forall k :: 0 <= k < |events| ==> events[k].day > day
    requires forall k :: 0 <= k < |fills| ==> fills[k].day > day
    ensures EquityOn(capital, events, closes, fills, day) == capital
  {
    CashMeans(capital, events, day, 0);
    NothingHeld(closes, fills, day);
  }

  // ---- the curve ----

  function CalendarSet(closes: seq<Series>, start: Option<int>, end: Option<int>): set<int> {
    set i, j | 0 <= i < |closes| && 0 <= j < |closes[i].points|
               && (start.Some? ==> closes[i].points[j].day >= start.value)
               && (end.Some? ==> closes[i].points[j].day <= end.value) :: closes[i].points[j].day
  }

  /** The days of the curve are the days of the points within the window, both ends included. */
  lemma CalendarMeans(closes: seq<Series>, start: Option<int>, end: Option<int>, day: int)
    ensures day in AscendingInts(CalendarSet(closes, start, end)) <==>
      && (start.Some? ==> start.value <= day)
      && (end.Some? ==> day <= end.value)
      && exists i, j :: 0 <= i < |closes| && 0 <= j < |closes[i].points| && closes[i].points[j].day == day
  {
  }

  /** The dictionary of daily cash: later events of a day overwrite earlier ones. */
  method CashByDay(events: seq<AccountEvent>) returns (cash: map<int, real>)
    ensures cash.Keys == EventDays(events) && forall d :: d in cash ==> LastTotal(events, d) == Some(cash[d])
  {
    cash := map[];
    for i := 0 to |events|
      invariant cash.Keys == EventDays(events[..i]) && forall d :: d in cash ==> LastTotal(events[..i], d) == Some(cash[d])
    {
      var upTo := events[..i + 1];
      assert upTo[..i] == events[..i];
      forall d | d in EventDays(events[..i]) ensures d in EventDays(upTo) {
        var k :| 0 <= k < i && events[..i][k].day == d;
        assert upTo[k].day == d;
      }
      assert upTo[i].day == events[i].day;
      assert EventDays(upTo) == EventDays(events[..i]) + {events[i].day};
      cash := cash[events[i].day := events[i].total];
    }
    assert events[..|events|] == events;
  }

  /** The sum over the closes of one day. */
  method MarkPositions(closes: seq<Series>, fills: seq<Fill>, day: int) returns (positions: real)
    ensures positions == Positions(closes, fills, day)
  {
    positions := 0.0;
    for i := 0 to |closes|
      invariant positions == Positions(closes[..i], fills, day)
    {
      assert closes[..i + 1][..i] == closes[..i];
      var qty := PosQty(fills, closes[i].symbol, day);
      assert ValueAt(fills, day)(closes[i]) == qty * Px(closes[i], day);
      if qty == 0.0 { continue; }
      positions := positions + qty * Px(closes[i], day);
    }
    assert closes[..|closes|] == closes;
  }

  /** Python's `round` to an integer: the nearest one, the even one on a tie. */
  function RoundHalfEven(x: real): int {
    var low := x.Floor;
    var cut := x - low as real;
    if cut < 0.5 || (cut == 0.5 && low % 2 == 0) then low else low + 1
  }

  /** `round(x, 2)`. */
  function Cents(x: real): real { RoundHalfEven(x * 100.0) as real / 100.0 }

  /** The rounding is the only whole number within a half, and the even one of two. */
  lemma RoundHalfEvenIsNearest(x: real, n: int)
    ensures n == RoundHalfEven(x) <==>
      -0.5 <= x - n as real <= 0.5 && ((x - n as real == 0.5 || x - n as real == -0.5) ==> n % 2 == 0)
  {
    var low := x.Floor;
    assert low as real <= x < low as real + 1.0;
    if -0.5 <= x - n as real <= 0.5 { assert n == low || n == low + 1; }
  }

  lemma CentsAreNear(x: real)
    ensures -0.005 <= Cents(x) - x <= 0.005
  {
    RoundHalfEvenIsNearest(x * 100.0, RoundHalfEven(x * 100.0));
  }

  /** One day of the curve. */
  predicate IsMark(m: Mark, capital: real, events: seq<AccountEvent>, closes: seq<Series>, fills: seq<Fill>, day: int) {
    && m.day == day
    && m.cash == Cents(CashOn(capital, events, day))
    && m.positions == Cents(Positions(closes, fills, day))
    && m.equity == Cents(EquityOn(capital, events, closes, fills, day))
  }

  /** `synth_equity_curve`. */
  method SynthEquityCurve(capital: real, events: seq<AccountEvent>, fills: seq<Fill>, closes: seq<Series>,
                          start: Option<int>, end: Option<int>)
    returns (out: seq<Mark>)
    ensures events == [] || closes == [] ==> out == []
    ensures events != [] && closes != [] ==>
      var calendar := AscendingInts(CalendarSet(closes, start, end));
      |out| == |calendar| && forall i :: 0 <= i < |out| ==> IsMark(out[i], capital, events, closes, fills, calendar[i])
  {
    if events == [] || closes == [] { return []; }
    var calendar := AscendingInts(CalendarSet(closes, start, end));
    var cashByDay := CashByDay(events);
    out := [];
    for i := 0 to |calendar|
      invariant |out| == i
      invariant forall j :: 0 <= j < i ==> IsMark(out[j], capital, events, closes, fills, calendar[j])
    {
      var day := calendar[i];
      var cash := capital;
      KeyOnTheDay(cashByDay.Keys, day);
      if day in cashByDay {
        cash := cashByDay[day];
      } else {
        var prior := set d | d in cashByDay && d < day;
        assert prior == set d | d in cashByDay && d <= day;
        if prior != {} { cash := cashByDay[MaxOf(prior)]; }
      }
      assert cash == CashOn(capital, events, day);
      var positions := MarkPositions(closes, fills, day);
      out := out + [Mark(day, Cents(cash + positions), Cents(cash), Cents(positions))];
    }
  }

  lemma KeyOnTheDay(days: set<int>, day: int)
    ensures day in days ==> KeyFor(days, day) == Some(day)
  {
    if day in days {
      var upTo := set d | d in days && d <= day;
      assert day in upTo;
    }
  }

  // ---- self-financing ----

  /** What all fills up to a day cost: signed notional plus fees. */
  function Spent(fills: seq<Fill>, day: int): real {
    if fills == [] then 0.0 else
      var f := fills[|fills| - 1];
      Spent(fills[..|fills| - 1], day) + if f.day <= day then f.signed * f.price + f.fee else 0.0
  }

  /** Every fill's day has an account event, and a day's last event is capital minus all spending so far. */
  ghost predicate Funded(capital: real, events: seq<AccountEvent>, fills: seq<Fill>) {
    && (forall i :: 0 <= i < |fills| ==> fills[i].day in EventDays(events))
    && (forall d :: d in EventDays(events) ==> LastTotal(events, d) == Some(capital - Spent(fills, d)))
  }

  lemma {:induction false} SpentIsSteady(fills: seq<Fill>, from: int, to: int)
    requires from <= to && forall i :: 0 <= i < |fills| ==> !(from < fills[i].day <= to)
    ensures Spent(fills, from) == Spent(fills, to)
    decreases |fills|
  {
    if fills != [] { SpentIsSteady(fills[..|fills| - 1], from, to); }
  }

  lemma {:induction false} NothingSpentBefore(fills: seq<Fill>, day: int)
    requires forall i :: 0 <= i < |fills| ==> fills[i].day > day
    ensures Spent(fills, day) == 0.0
    decreases |fills|
  {
    if fills != [] { NothingSpentBefore(fills[..|fills| - 1], day); }
  }

  /** On every day, with or without events, the cash is capital minus what has been spent. */
  lemma CashIsFunded(capital: real, events: seq<AccountEvent>, fills: seq<Fill>, day: int)
    requires Funded(capital, events, fills)
    ensures CashOn(capital, events, day) == capital - Spent(fills, day)
  {
    var days := EventDays(events);
    var upTo := set d | d in days && d <= day;
    assert forall i :: 0 <= i < |fills| ==> (fills[i].day <= day <==> fills[i].day in upTo);
    if upTo == {} {
      NothingSpentBefore(fills, day);
    } else {
      SpentIsSteady(fills, MaxOf(upTo), day);
    }
  }

  // ---- marking identity ----

  predicate DistinctSymbols(closes: seq<Series>) {
    forall i, j :: 0 <= i < j < |closes| ==> closes[i].symbol != closes[j].symbol
  }

  /** The price a symbol is marked at; a symbol without a series is marked at nothing. */
  function PxOf(closes: seq<Series>, symbol: string, day: int): real {
    if closes == [] then 0.0
    else if closes[|closes| - 1].symbol == symbol then Px(closes[|closes| - 1], day)
    else PxOf(closes[..|closes| - 1], symbol, day)
  }

  predicate Between(f: Fill, from: int, to: int) { from < f.day <= to }

  function Bought(fills: seq<Fill>, symbol: string, from: int, to: int): real {
    if fills == [] then 0.0 else
      var f := fills[|fills| - 1];
      Bought(fills[..|fills| - 1], symbol, from, to) + if f.symbol == symbol && Between(f, from, to) then f.signed else 0.0
  }

  /** The old quantity of a series times the change of its close. */
  function DriftOf(fills: seq<Fill>, from: int, to: int): Series -> real {
    (s: Series) => PosQty(fills, s.symbol, from) * (Px(s, to) - Px(s, from))
  }

  /** The quantity of a series acquired since `from`, at its close of `to`. */
  function AcquiredOf(fills: seq<Fill>, from: int, to: int): Series -> real {
    (s: Series) => Bought(fills, s.symbol, from, to) * Px(s, to)
  }

  function Drift(closes: seq<Series>, fills: seq<Fill>, from: int, to: int): real {
    SumOver(closes, DriftOf(fills, from, to))
  }

  /** Per fill since `from`: quantity times close minus fill price, less the fee. */
  function TradingGain(closes: seq<Series>, fills: seq<Fill>, from: int, to: int): real {
    TradedValue(closes, fills, from, to) - TradedCost(fills, from, to)
  }

  function TradedValue(closes: seq<Series>, fills: seq<Fill>, from: int, to: int): real {
    if fills == [] then 0.0 else
      var f := fills[|fills| - 1];
      TradedValue(closes, fills[..|fills| - 1], from, to) +
      if Between(f, from, to) then f.signed * PxOf(closes, f.symbol, to) else 0.0
  }

  function TradedCost(fills: seq<Fill>, from: int, to: int): real {
    if fills == [] then 0.0 else
      var f := fills[|fills| - 1];
      TradedCost(fills[..|fills| - 1], from, to) + if Between(f, from, to) then f.signed * f.price + f.fee else 0.0
  }

  lemma {:induction false} QtyMoves(fills: seq<Fill>, symbol: string, from: int, to: int)
    requires from <= to
    ensures PosQty(fills, symbol, to) == PosQty(fills, symbol, from) + Bought(fills, symbol, from, to)
    decreases |fills|
  {
    if fills != [] { QtyMoves(fills[..|fills| - 1], symbol, from, to); }
  }

  lemma {:induction false} SpentMoves(fills: seq<Fill>, from: int, to: int)
    requires from <= to
    ensures Spent(fills, to) == Spent(fills, from) + TradedCost(fills, from, to)
    decreases |fills|
  {
    if fills != [] { SpentMoves(fills[..|fills| - 1], from, to); }
  }

  lemma {:induction false} SumSplits(closes: seq<Series>, f: Series -> real, g: Series -> real, h: Series -> real, k: Series -> real)
    requires forall s :: f(s) == g(s) + h(s) + k(s)
    ensures SumOver(closes, f) == SumOver(closes, g) + SumOver(closes, h) + SumOver(closes, k)
    decreases |closes|
  {
    if closes != [] { SumSplits(closes[..|closes| - 1], f, g, h, k); }
  }

  lemma Revalued(q0: real, q1: real, b: real, p0: real, p1: real)
    requires q1 == q0 + b
    ensures q1 * p1 == q0 * p0 + q0 * (p1 - p0) + b * p1
  {
  }

  lemma PositionsMove(closes: seq<Series>, fills: seq<Fill>, from: int, to: int)
    requires from <= to
    ensures Positions(closes, fills, to)
         == Positions(closes, fills, from) + Drift(closes, fills, from, to) + SumOver(closes, AcquiredOf(fills, from, to))
  {
    forall s: Series
      ensures ValueAt(fills, to)(s) == ValueAt(fills, from)(s) + DriftOf(fills, from, to)(s) + AcquiredOf(fills, from, to)(s)
    {
      QtyMoves(fills, s.symbol, from, to);
      Revalued(PosQty(fills, s.symbol, from), PosQty(fills, s.symbol, to), Bought(fills, s.symbol, from, to), Px(s, from), Px(s, to));
    }
    SumSplits(closes, ValueAt(fills, to), ValueAt(fills, from), DriftOf(fills, from, to), AcquiredOf(fills, from, to));
  }

  /** The value of one fill, charged to the series of its symbol. */
  function FillOn(f: Fill, from: int, to: int): Series -> real {
    (s: Series) => if s.symbol == f.symbol && Between(f, from, to) then f.signed * Px(s, to) else 0.0
  }

  /** Distinct series: a fill is charged once, at its own symbol's close. */
  lemma {:induction false} ChargedOnce(closes: seq<Series>, f: Fill, from: int, to: int)
    requires DistinctSymbols(closes)
    ensures SumOver(closes, FillOn(f, from, to)) == if Between(f, from, to) then f.signed * PxOf(closes, f.symbol, to) else 0.0
    ensures (forall i :: 0 <= i < |closes| ==> closes[i].symbol != f.symbol) ==> PxOf(closes, f.symbol, to) == 0.0
    decreases |closes|
  {
    if closes != [] { ChargedOnce(closes[..|closes| - 1], f, from, to); }
  }

  function Nothing(): Series -> real { (s: Series) => 0.0 }

  lemma {:induction false} SumOfNothing(closes: seq<Series>)
    ensures SumOver(closes, Nothing()) == 0.0
    decreases |closes|
  {
    if closes != [] { SumOfNothing(closes[..|closes| - 1]); }
  }

  lemma AcquiredStep(closes: seq<Series>, fills: seq<Fill>, f: Fill, from: int, to: int)
    ensures SumOver(closes, AcquiredOf(fills + [f], from, to))
         == SumOver(closes, AcquiredOf(fills, from, to)) + SumOver(closes, FillOn(f, from, to))
  {
    assert (fills + [f])[..|fills|] == fills;
    forall s: Series
      ensures AcquiredOf(fills + [f], from, to)(s) == AcquiredOf(fills, from, to)(s) + FillOn(f, from, to)(s) + Nothing()(s)
    {
      if s.symbol == f.symbol && Between(f, from, to) {
        Distribute(Bought(fills, s.symbol, from, to), f.signed, Px(s, to));
      }
    }
    SumSplits(closes, AcquiredOf(fills + [f], from, to), AcquiredOf(fills, from, to), FillOn(f, from, to), Nothing());
    SumOfNothing(closes);
  }

  lemma Distribute(b: real, x: real, p: real)
    ensures (b + x) * p == b * p + x * p
  {
  }

  lemma {:induction false} NothingAcquired(closes: seq<Series>, from: int, to: int)
    ensures SumOver(closes, AcquiredOf([], from, to)) == 0.0
    decreases |closes|
  {
    if closes != [] { NothingAcquired(closes[..|closes| - 1], from, to); }
  }

  lemma TradedStep(closes: seq<Series>, fills: seq<Fill>, f: Fill, from: int, to: int)
    ensures TradedValue(closes, fills + [f], from, to) == TradedValue(closes, fills, from, to)
              + if Between(f, from, to) then f.signed * PxOf(closes, f.symbol, to) else 0.0
  {
    assert (fills + [f])[..|fills|] == fills;
  }

  /** Summing over symbols or over fills gives the same value. */
  lemma {:induction false} AcquiredIsTraded(closes: seq<Series>, fills: seq<Fill>, from: int, to: int)
    requires DistinctSymbols(closes)
    ensures SumOver(closes, AcquiredOf(fills, from, to)) == TradedValue(closes, fills, from, to)
    decreases |fills|
  {
    if fills == [] {
      NothingAcquired(closes, from, to);
    } else {
      var init, f := fills[..|fills| - 1], fills[|fills| - 1];
      assert fills == init + [f];
      calc {
        SumOver(closes, AcquiredOf(fills, from, to));
      ==  { AcquiredStep(closes, init, f, from, to); }
        SumOver(closes, AcquiredOf(init, from, to)) + SumOver(closes, FillOn(f, from, to));
      ==  { AcquiredIsTraded(closes, init, from, to); ChargedOnce(closes, f, from, to); TradedStep(closes, init, f, from, to); }
        TradedValue(closes, fills, from, to);
      }
    }
  }

  /**
   * Self-financing: between any two days equity changes by the old quantities' price moves plus, for
   * each fill since, quantity times (close - fill price), minus fees. Nothing else moves it.
   */
  lemma EquityIsSelfFinancing(capital: real, events: seq<AccountEvent>, closes: seq<Series>, fills: seq<Fill>, from: int, to: int)
    requires from <= to && DistinctSymbols(closes) && Funded(capital, events, fills)
    ensures EquityOn(capital, events, closes, fills, to) - EquityOn(capital, events, closes, fills, from)
         == Drift(closes, fills, from, to) + TradingGain(closes, fills, from, to)
  {
    CashIsFunded(capital, events, fills, from);
    CashIsFunded(capital, events, fills, to);
    SpentMoves(fills, from, to);
    PositionsMove(closes, fills, from, to);
    AcquiredIsTraded(closes, fills, from, to);
  }

  /** The rounded curve obeys the same identity up to a cent, and its columns add up to within 1.5 cents. */
  lemma CurveIsSelfFinancing(capital: real, events: seq<AccountEvent>, closes: seq<Series>, fills: seq<Fill>, a: Mark, b: Mark)
    requires a.day <= b.day && DistinctSymbols(closes) && Funded(capital, events, fills)
    requires IsMark(a, capital, events, closes, fills, a.day) && IsMark(b, capital, events, closes, fills, b.day)
    ensures var gain := Drift(closes, fills, a.day, b.day) + TradingGain(closes, fills, a.day, b.day);
      -0.01 <= (b.equity - a.equity) - gain <= 0.01
    ensures -0.015 <= b.equity - (b.cash + b.positions) <= 0.015
  {
    EquityIsSelfFinancing(capital, events, closes, fills, a.day, b.day);
    CentsAreNear(EquityOn(capital, events, closes, fills, a.day));
    CentsAreNear(EquityOn(capital, events, closes, fills, b.day));
    CentsAreNear(CashOn(capital, events, b.day));
    CentsAreNear(Positions(closes, fills, b.day));
  }

  lemma {:induction false} NoFillsNoGain(closes: seq<Series>, fills: seq<Fill>, from: int, to: int)
    requires forall i :: 0 <= i < |fills| ==> !Between(fills[i], from, to)
    ensures TradingGain(closes, fills, from, to) == 0.0
    decreases |fills|
  {
    if fills != [] { NoFillsNoGain(closes, fills[..|fills| - 1], from, to); }
  }

  lemma {:induction false} FrozenClosesNoDrift(closes: seq<Series>, fills: seq<Fill>, from: int, to: int)
    requires forall i :: 0 <= i < |closes| ==> Px(closes[i], from) == Px(closes[i], to)
    ensures Drift(closes, fills, from, to) == 0.0
    decreases |closes|
  {
    if closes != [] { FrozenClosesNoDrift(closes[..|closes| - 1], fills, from, to); }
  }

  predicate NoPoint(points: seq<Point>, from: int, to: int) {
    forall i :: 0 <= i < |points| ==> !(from < points[i].day <= to)
  }

  /** A close carries forward over days without a new one. */
  lemma {:induction false} CloseCarriesForward(points: seq<Point>, from: int, to: int)
    requires from <= to && NoPoint(points, from, to)
    ensures CloseOn(points, to) == CloseOn(points, from)
    decreases |points|
  {
    if points != [] { CloseCarriesForward(points[..|points| - 1], from, to); }
  }

  /** Carry-forward: without fills and without a new close the equity does not move. */
  lemma QuietDaysCarryForward(capital: real, events: seq<AccountEvent>, closes: seq<Series>, fills: seq<Fill>, from: int, to: int)
    requires from <= to && DistinctSymbols(closes) && Funded(capital, events, fills)
    requires forall i :: 0 <= i < |fills| ==> !Between(fills[i], from, to)
    requires forall i :: 0 <= i < |closes| ==> NoPoint(closes[i].points, from, to)
    ensures EquityOn(capital, events, closes, fills, to) == EquityOn(capital, events, closes, fills, from)
  {
    EquityIsSelfFinancing(capital, events, closes, fills, from, to);
    NoFillsNoGain(closes, fills, from, to);
    forall i | 0 <= i < |closes| ensures Px(closes[i], from) == Px(closes[i], to) {
      CloseCarriesForward(closes[i].points, from, to);
    }
    FrozenClosesNoDrift(closes, fills, from, to);
  }
}
