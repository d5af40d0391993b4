/**
 * The A-share rule set, written once in the Go kernel and once in the Python sidecar:
 * rounding to the cent, daily price limits, board lots and the participation cap.
 */
module AshareRules {
  import opened Collections

  // ---- rounding to the cent ----

  /** Go's math.Trunc. */
  function Trunc(x: real): int {
    if x >= 0.0 then x.Floor else -((-x).Floor)
  }

  /** Go's math.Round: truncate, then step away from zero when half or more was cut off. */
  function GoRound(x: real): int {
    var cut := x - Trunc(x) as real;
    if cut >= 0.5 then Trunc(x) + 1
    else if cut <= -0.5 then Trunc(x) - 1
    else Trunc(x)
  }

  function GoRoundToCent(price: real): real {
    GoRound(price * 100.0) as real / 100.0
  }

  /** math.floor of scaled + 0.5 above zero, math.ceil of scaled - 0.5 below. */
  function PyRound(scaled: real): int {
    if scaled >= 0.0 then (scaled + 0.5).Floor else -((-(scaled - 0.5)).Floor)
  }

  function PyRoundToCent(price: real): real {
    PyRound(price * 100.0) as real / 100.0
  }

  /** `n` is a nearest integer to `x`, and the one farther from zero on a tie. */
  predicate HalfAwayFromZero(x: real, n: int) {
    && -0.5 <= x - n as real <= 0.5
    && (x - n as real == 0.5 ==> x < 0.0)
    && (x - n as real == -0.5 ==> x > 0.0)
  }

  lemma HalfAwayFromZeroIsUnique(x: real, m: int, n: int)
    requires HalfAwayFromZero(x, m) && HalfAwayFromZero(x, n)
    ensures m == n
  {
    assert -1.0 <= (m - n) as real <= 1.0;
  }

  /** The two cent-rounding rules are the same function, and it is half-away-from-zero. */
  lemma CentRoundingAgrees(price: real)
    ensures GoRoundToCent(price) == PyRoundToCent(price)
    ensures HalfAwayFromZero(price * 100.0, GoRound(price * 100.0))
  {
    var x := price * 100.0;
    assert HalfAwayFromZero(x, GoRound(x));
    assert HalfAwayFromZero(x, PyRound(x));
    HalfAwayFromZeroIsUnique(x, GoRound(x), PyRound(x));
  }

  /** (upper, lower) in the Go kernel. */
  function GoLimitPrices(prevClose: real, rate: real): (real, real) {
    (GoRoundToCent(prevClose * (1.0 + rate)), GoRoundToCent(prevClose * (1.0 - rate)))
  }

  /** (upper, lower) in the sidecar. */
  function PyLimitPrices(prevClose: real, rate: real): (real, real) {
    (PyRoundToCent(prevClose * (1.0 + rate)), PyRoundToCent(prevClose * (1.0 - rate)))
  }

  lemma LimitPricesAgree(prevClose: real, rate: real)
    ensures GoLimitPrices(prevClose, rate) == PyLimitPrices(prevClose, rate)
  {
    CentRoundingAgrees(prevClose * (1.0 + rate));
    CentRoundingAgrees(prevClose * (1.0 - rate));
  }

  /** A larger price never rounds to a smaller cent. */
  lemma RoundingIsMonotone(x: real, y: real)
    requires x <= y
    ensures GoRound(x) <= GoRound(y)
  {
    var m, n := GoRound(x), GoRound(y);
    assert HalfAwayFromZero(x, m) && HalfAwayFromZero(y, n);
  }

  /** Within half a cent of the price itself, and a whole number of cents. */
  lemma CentIsNear(price: real)
    ensures -0.005 <= GoRoundToCent(price) - price <= 0.005
    ensures GoRoundToCent(price) * 100.0 == GoRound(price * 100.0) as real
  {
    assert HalfAwayFromZero(price * 100.0, GoRound(price * 100.0));
  }

  /** The limits lie half a cent at most from the previous close raised and lowered by the rate. */
  lemma LimitPricesMean(prevClose: real, rate: real)
    ensures -0.005 <= GoLimitPrices(prevClose, rate).0 - prevClose * (1.0 + rate) <= 0.005
    ensures -0.005 <= GoLimitPrices(prevClose, rate).1 - prevClose * (1.0 - rate) <= 0.005
  {
    CentIsNear(prevClose * (1.0 + rate));
    CentIsNear(prevClose * (1.0 - rate));
  }

  /** The lower limit is never above the upper one. */
  lemma LimitsAreOrdered(prevClose: real, rate: real)
    requires prevClose >= 0.0 && rate >= 0.0
    ensures GoLimitPrices(prevClose, rate).1 <= GoLimitPrices(prevClose, rate).0
  {
    var down, up := prevClose * (1.0 - rate), prevClose * (1.0 + rate);
    assert down <= up by { MulLe(1.0 - rate, 1.0 + rate, prevClose); }
    RoundingIsMonotone(down * 100.0, up * 100.0);
  }

  // ---- board lots and participation ----

  /** The shares a target weight of the capital buys at a price, before rounding. */
  function WeightedShares(weight: real, capital: real, price: real): real
    requires price != 0.0
  {
    weight * capital / price
  }

  /** Go: a non-positive lot silently yields 0. */
  function GoRoundDownToLot(quantity: real, lot: int): int {
    if lot <= 0 || quantity <= 0.0 then 0 else (quantity / lot as real).Floor * lot
  }

  /** Python: a non-positive lot raises (None). */
  function PyRoundDownToLot(quantity: real, lot: int): Option<int> {
    if lot <= 0 then None
    else if quantity <= 0.0 then Some(0)
    else Some((quantity / lot as real).Floor * lot)
  }

  /** Go: a non-positive cap rate silently forbids trading. */
  function GoParticipationCap(volume: real, dMax: real): int {
    if dMax <= 0.0 || volume <= 0.0 then 0 else (dMax * volume).Floor
  }

  /** Python: a non-positive cap rate raises (None). */
  function PyParticipationCap(volume: real, dMax: real): Option<int> {
    if dMax <= 0.0 then None
    else if volume <= 0.0 then Some(0)
    else Some((dMax * volume).Floor)
  }

  function Lots(n: int, lot: int): int { n * lot }

  /** `shares` is a whole number of lots. */
  ghost predicate WholeLots(shares: int, lot: int) {
    exists n :: Lots(n, lot) == shares
  }

  lemma MulLe(a: real, b: real, c: real)
    requires a <= b && c >= 0.0
    ensures a * c <= b * c
  {
    assert (b - a) * c >= 0.0;
  }

  lemma MulLt(a: real, b: real, c: real)
    requires a < b && c > 0.0
    ensures a * c < b * c
  {
    assert (b - a) * c > 0.0;
  }

  lemma FloorTimes(q: real, l: real, n: int)
    requires l > 0.0 && n == (q / l).Floor
    ensures n as real * l <= q < (n + 1) as real * l
  {
    var x := q / l;
    assert x * l == q;
    MulLe(n as real, x, l);
    MulLt(x, (n + 1) as real, l);
  }

  /** Rounding down gives the largest whole number of lots that is not above the quantity. */
  lemma RoundDownIsLargestMultiple(quantity: real, lot: int)
    requires lot > 0
    ensures var r := GoRoundDownToLot(quantity, lot);
      && WholeLots(r, lot)
      && 0 <= r
      && (quantity >= 0.0 ==> r as real <= quantity)
      && quantity < (r + lot) as real
  {
    if quantity > 0.0 {
      var l := lot as real;
      var n := (quantity / l).Floor;
      FloorTimes(quantity, l, n);
      assert n as real * l == (n * lot) as real;
      assert (n + 1) as real * l == ((n + 1) * lot) as real == (n * lot + lot) as real;
      assert Lots(n, lot) == GoRoundDownToLot(quantity, lot);
      assert n >= 0;
      assert n * lot >= 0;
    } else {
      assert Lots(0, lot) == 0;
    }
  }

  /** The same for a whole number of shares. */
  lemma RoundDownShares(shares: int, lot: int)
    requires lot > 0
    ensures var r := GoRoundDownToLot(shares as real, lot);
      && WholeLots(r, lot)
      && 0 <= r
      && (shares >= 0 ==> r <= shares < r + lot)
      && (shares <= 0 ==> r == 0)
      && (shares >= lot ==> r >= lot)
  {
    RoundDownIsLargestMultiple(shares as real, lot);
    var r := GoRoundDownToLot(shares as real, lot);
    var n :| Lots(n, lot) == r;
    if shares >= lot {
      assert n > 0;
    }
  }

  /** The cap is the largest whole number of shares within the rate's part of the volume. */
  lemma CapIsShareOfVolume(volume: real, dMax: real)
    ensures dMax > 0.0 && volume > 0.0 ==>
      var cap := GoParticipationCap(volume, dMax);
      cap >= 0 && cap as real <= dMax * volume < (cap + 1) as real
    ensures dMax <= 0.0 || volume <= 0.0 ==> GoParticipationCap(volume, dMax) == 0
  {
    if dMax > 0.0 && volume > 0.0 { assert dMax * volume > 0.0; }
  }

  lemma SharesCost(weight: real, capital: real, price: real)
    requires price != 0.0
    ensures WeightedShares(weight, capital, price) * price == weight * capital
  {
  }

  /**
   * Sizing: at a positive price a non-negative part of the capital buys as many whole lots as it pays for,
   * and one lot more would cost more than it. A negative part buys nothing.
   */
  lemma LotsForWeight(weight: real, capital: real, price: real, lot: int)
    requires lot > 0 && price > 0.0
    ensures var t := GoRoundDownToLot(WeightedShares(weight, capital, price), lot);
      && WholeLots(t, lot)
      && (weight * capital >= 0.0 ==> t as real * price <= weight * capital < (t + lot) as real * price)
      && (weight * capital < 0.0 ==> t == 0)
  {
    var money, q := weight * capital, WeightedShares(weight, capital, price);
    SharesCost(weight, capital, price);
    LotsForMoney(money, q, price, lot);
  }

  lemma LotsForMoney(money: real, q: real, price: real, lot: int)
    requires lot > 0 && price > 0.0 && q * price == money
    ensures var t := GoRoundDownToLot(q, lot);
      && WholeLots(t, lot)
      && (money >= 0.0 ==> t as real * price <= money < (t + lot) as real * price)
      && (money < 0.0 ==> t == 0)
  {
    var t := GoRoundDownToLot(q, lot);
    RoundDownIsLargestMultiple(q, lot);
    assert 0.0 * price == 0.0;
    if q < 0.0 {
      MulLt(q, 0.0, price);
      assert money < 0.0 && t == 0;
    } else {
      MulLe(0.0, q, price);
      assert money >= 0.0;
      MulLe(t as real, q, price);
      MulLt(q, (t + lot) as real, price);
    }
  }

  /** The sidecar raises exactly on the inputs the kernel zeroes; elsewhere they agree. */
  lemma RulesAgreeUnlessRaised(quantity: real, lot: int, volume: real, dMax: real)
    ensures PyRoundDownToLot(quantity, lot) == if lot > 0 then Some(GoRoundDownToLot(quantity, lot)) else None
    ensures PyParticipationCap(volume, dMax) == if dMax > 0.0 then Some(GoParticipationCap(volume, dMax)) else None
    ensures lot <= 0 ==> GoRoundDownToLot(quantity, lot) == 0
    ensures dMax <= 0.0 ==> GoParticipationCap(volume, dMax) == 0
  {
  }
}
