/** Trade-by-trade reconciliation of the two kernels, by day, symbol, side, quantity and price to the cent. */
module Reconciliation {
  import opened Collections
  import opened AshareRules
  import Signals

  datatype Direction = Long | Short | Close | Hold

  datatype Trade = Trade(day: int, symbol: string, direction: Direction, qty: real, price: real, fees: real)

  datatype TradeSide = BUY | SELL | HOLD

  datatype Key = Key(day: int, symbol: string, side: TradeSide, qty: real, price: real)

  datatype Kind = Matched | GoOnly | NtOnly | Mismatch

  /** `goFees` and `ntFees` are what the row's text shows; 0 where a side has no trade. */
  datatype Row = Row(kind: Kind, key: Key, goFees: real, ntFees: real)

  function SideOf(d: Direction): TradeSide {
    match d case Long => BUY case Short => SELL case Close => SELL case Hold => HOLD
  }

  function KeyOf(t: Trade): Key {
    Key(t.day, t.symbol, SideOf(t.direction), GoRoundToCent(t.qty), GoRoundToCent(t.price))
  }

  /** Both round to the same hundredth, halves away from zero. */
  ghost predicate SameCent(x: real, y: real) { exists n :: RoundsTo(x, n) && RoundsTo(y, n) }

  predicate RoundsTo(x: real, cents: int) { HalfAwayFromZero(x * 100.0, cents) }

  lemma SameCentIff(x: real, y: real)
    ensures SameCent(x, y) <==> GoRoundToCent(x) == GoRoundToCent(y)
  {
    var m, n := GoRound(x * 100.0), GoRound(y * 100.0);
    CentRoundingAgrees(x);
    CentRoundingAgrees(y);
    CentIsNear(x);
    CentIsNear(y);
    assert RoundsTo(x, m) && RoundsTo(y, n);
    if SameCent(x, y) {
      var k :| RoundsTo(x, k) && RoundsTo(y, k);
      HalfAwayFromZeroIsUnique(x * 100.0, m, k);
      HalfAwayFromZeroIsUnique(y * 100.0, n, k);
    }
  }

  /** Buying, selling (by a Short or a Close) or holding. */
  predicate SameSide(a: Direction, b: Direction) {
    (a == Long <==> b == Long) && (a == Hold <==> b == Hold)
  }

  /** Trades match exactly when day, symbol and side are the same and quantity and price agree to the hundredth. */
  lemma KeysEqualIff(a: Trade, b: Trade)
    ensures KeyOf(a) == KeyOf(b) <==>
      && a.day == b.day && a.symbol == b.symbol && SameSide(a.direction, b.direction)
      && SameCent(a.qty, b.qty) && SameCent(a.price, b.price)
  {
    SameCentIff(a.qty, b.qty);
    SameCentIff(a.price, b.price);
  }

  /** A trade as the reconciliation sees it. */
  datatype Fill = Fill(key: Key, fees: real)

  function Fills(trades: seq<Trade>): seq<Fill> {
    seq(|trades|, i requires 0 <= i < |trades| => Fill(KeyOf(trades[i]), trades[i].fees))
  }

  function KeySet(fills: seq<Fill>): set<Key> { set i | 0 <= i < |fills| :: fills[i].key }

  /** How many fills have a key in `s`. */
  function CountIn(fills: seq<Fill>, s: set<Key>): nat {
    if fills == [] then 0
    else CountIn(fills[..|fills| - 1], s) + if fills[|fills| - 1].key in s then 1 else 0
  }

  function CountOf(fills: seq<Fill>, k: Key): nat { CountIn(fills, {k}) }

  /** The first trade with a key, as the fee comparison uses it. */
  function FirstOf(fills: seq<Fill>, k: Key): Option<Fill> {
    if fills == [] then None
    else
      var before := FirstOf(fills[..|fills| - 1], k);
      var t := fills[|fills| - 1];
      if before.Some? then before else if t.key == k then Some(t) else None
  }

  // ---- counting lemmas ----

  lemma {:induction false} CountSplits(fills: seq<Fill>, a: set<Key>, b: set<Key>)
    requires a !! b
    ensures CountIn(fills, a + b) == CountIn(fills, a) + CountIn(fills, b)
    decreases |fills|
  {
    if fills != [] { CountSplits(fills[..|fills| - 1], a, b); }
  }

  lemma {:induction false} CountAll(fills: seq<Fill>, s: set<Key>)
    requires KeySet(fills) <= s
    ensures CountIn(fills, s) == |fills|
    decreases |fills|
  {
    if fills != [] {
      var init := fills[..|fills| - 1];
      assert fills[|fills| - 1].key in KeySet(fills);
      forall k | k in KeySet(init) ensures k in KeySet(fills) {
        var i :| 0 <= i < |init| && init[i].key == k;
        assert fills[i].key == k;
      }
      CountAll(init, s);
    }
  }

  lemma {:induction false} CountPositive(fills: seq<Fill>, k: Key)
    ensures CountOf(fills, k) > 0 <==> k in KeySet(fills)
    decreases |fills|
  {
    if fills != [] {
      var init, t := fills[..|fills| - 1], fills[|fills| - 1];
      CountPositive(init, k);
      KeySetSnoc(init, t);
      assert fills == init + [t];
    }
  }

  lemma KeySetSnoc(fills: seq<Fill>, t: Fill)
    ensures KeySet(fills + [t]) == KeySet(fills) + {t.key}
  {
    var all := fills + [t];
    forall k | k in KeySet(fills) ensures k in KeySet(all) {
      var i :| 0 <= i < |fills| && fills[i].key == k;
      assert all[i].key == k;
    }
    assert all[|fills|].key == t.key;
  }

  lemma {:induction false} FirstExists(fills: seq<Fill>, k: Key)
    ensures FirstOf(fills, k).Some? <==> k in KeySet(fills)
    ensures FirstOf(fills, k).Some? ==> FirstOf(fills, k).value.key == k
    decreases |fills|
  {
    if fills != [] {
      var init, t := fills[..|fills| - 1], fills[|fills| - 1];
      FirstExists(init, k);
      KeySetSnoc(init, t);
      assert fills == init + [t];
    }
  }

  lemma {:induction false} FirstIsStable(fills: seq<Fill>, n: nat, k: Key)
    requires n <= |fills| && k in KeySet(fills[..n])
    ensures FirstOf(fills, k) == FirstOf(fills[..n], k)
    decreases |fills|
  {
    FirstExists(fills[..n], k);
    if n < |fills| {
      assert fills[..|fills| - 1][..n] == fills[..n];
      FirstIsStable(fills[..|fills| - 1], n, k);
    } else {
      assert fills[..n] == fills;
    }
  }

  // ---- the reconciliation loops ----

  ghost predicate Counts(m: map<Key, nat>, fills: seq<Fill>) {
    && m.Keys == KeySet(fills)
    && forall k :: k in m ==> m[k] == CountOf(fills, k)
  }

  /** Fill a counting map. */
  method CountKeys(fills: seq<Fill>) returns (m: map<Key, nat>)
    ensures Counts(m, fills)
  {
    m := map[];
    for i := 0 to |fills|
      invariant Counts(m, fills[..i])
    {
      var k := fills[i].key;
      assert fills[..i + 1] == fills[..i] + [fills[i]];
      KeySetSnoc(fills[..i], fills[i]);
      CountPositive(fills[..i], k);
      CountStep(fills[..i], fills[i]);
      m := m[k := (if k in m then m[k] else 0) + 1];
    }
    assert fills[..|fills|] == fills;
  }

  lemma CountStep(fills: seq<Fill>, t: Fill)
    ensures forall k :: CountOf(fills + [t], k) == CountOf(fills, k) + if t.key == k then 1 else 0
  {
    assert (fills + [t])[..|fills|] == fills;
  }

  /** The row a key gets, read off the two trade lists. */
  ghost predicate RowFor(row: Row, go: seq<Fill>, nt: seq<Fill>) {
    var inGo, inNt := row.key in KeySet(go), row.key in KeySet(nt);
    && (inGo || inNt)
    && row.kind == (if inGo && inNt then Matched else if inGo then GoOnly else NtOnly)
    && row.goFees == (if inGo && inNt && FirstOf(go, row.key).Some? then FirstOf(go, row.key).value.fees else 0.0)
    && row.ntFees == (if inGo && inNt && FirstOf(nt, row.key).Some? then FirstOf(nt, row.key).value.fees else 0.0)
  }

  function RowKeys(rows: seq<Row>): set<Key> { set i | 0 <= i < |rows| :: rows[i].key }

  /** One row for each of `keys`, and no key twice. */
  ghost predicate RowsFor(rows: seq<Row>, keys: set<Key>, go: seq<Fill>, nt: seq<Fill>) {
    && RowKeys(rows) == keys
    && (forall i :: 0 <= i < |rows| ==> RowFor(rows[i], go, nt))
    && (forall i, j :: 0 <= i < j < |rows| ==> rows[i].key != rows[j].key)
  }

  lemma RowsGrow(rows: seq<Row>, keys: set<Key>, go: seq<Fill>, nt: seq<Fill>, row: Row)
    requires RowsFor(rows, keys, go, nt) && row.key !in keys && RowFor(row, go, nt)
    ensures RowsFor(rows + [row], keys + {row.key}, go, nt)
  {
    var all := rows + [row];
    forall k | k in keys ensures k in RowKeys(all) {
      var i :| 0 <= i < |rows| && rows[i].key == k;
      assert all[i].key == k;
    }
    assert all[|rows|].key == row.key;
    assert RowKeys(all) == keys + {row.key};
    forall i | 0 <= i < |rows| ensures rows[i].key != row.key {
      assert rows[i].key in RowKeys(rows);
    }
  }

  datatype Totals = Totals(matched: nat, goOnly: nat, ntOnly: nat)

  /** Counts after the keys in `seen` were handled. */
  ghost predicate GoCounted(go: seq<Fill>, nt: seq<Fill>, seen: set<Key>, matched: nat, goOnly: nat) {
    matched == CountIn(go, seen * KeySet(nt)) && goOnly == CountIn(go, seen - KeySet(nt))
  }

  lemma GoCountedStep(go: seq<Fill>, nt: seq<Fill>, seen: set<Key>, matched: nat, goOnly: nat, k: Key)
    requires GoCounted(go, nt, seen, matched, goOnly) && k !in seen
    ensures k in KeySet(nt) ==> GoCounted(go, nt, seen + {k}, matched + CountOf(go, k), goOnly)
    ensures k !in KeySet(nt) ==> GoCounted(go, nt, seen + {k}, matched, goOnly + CountOf(go, k))
  {
    var n := KeySet(nt);
    if k in n {
      assert (seen + {k}) * n == seen * n + {k} && (seen + {k}) - n == seen - n;
      CountSplits(go, seen * n, {k});
    } else {
      assert (seen + {k}) * n == seen * n && (seen + {k}) - n == (seen - n) + {k};
      CountSplits(go, seen - n, {k});
    }
  }

  /** The row of a Go key. */
  method GoRow(go: seq<Fill>, nt: seq<Fill>, i: nat, ntKeys: map<Key, nat>, ntBy: map<Key, Fill>) returns (row: Row)
    requires i < |go| && go[i].key !in KeySet(go[..i]) && ntKeys.Keys == KeySet(nt) == ntBy.Keys
    requires forall k :: k in ntBy ==> FirstOf(nt, k) == Some(ntBy[k])
    ensures row.key == go[i].key && RowFor(row, go, nt)
  {
    var k := go[i].key;
    FirstHere(go, i);
    assert k in KeySet(go);
    row := if k in ntKeys then Row(Matched, k, go[i].fees, ntBy[k].fees) else Row(GoOnly, k, 0.0, 0.0);
  }

  /** The pass over the Go trades: one row per new key, matched or Go-only. */
  method GoPass(go: seq<Fill>, nt: seq<Fill>, goKeys: map<Key, nat>, ntKeys: map<Key, nat>, ntBy: map<Key, Fill>)
    returns (matched: nat, goOnly: nat, rows: seq<Row>, seen: set<Key>)
    requires Counts(goKeys, go) && Counts(ntKeys, nt)
    requires ntBy.Keys == KeySet(nt) && forall k :: k in ntBy ==> FirstOf(nt, k) == Some(ntBy[k])
    ensures seen == KeySet(go) && RowsFor(rows, seen, go, nt)
    ensures GoCounted(go, nt, seen, matched, goOnly)
  {
    matched, goOnly, rows, seen := 0, 0, [], {};
    CountNone(go);
    assert seen * KeySet(nt) == {} && seen - KeySet(nt) == {} && KeySet(go[..0]) == {};
    for i := 0 to |go|
      invariant seen == KeySet(go[..i]) && RowsFor(rows, seen, go, nt)
      invariant GoCounted(go, nt, seen, matched, goOnly)
    {
      var k := go[i].key;
      assert go[..i + 1] == go[..i] + [go[i]];
      KeySetSnoc(go[..i], go[i]);
      if k in seen { continue; }
      var row := GoRow(go, nt, i, ntKeys, ntBy);
      RowsGrow(rows, seen, go, nt, row);
      GoCountedStep(go, nt, seen, matched, goOnly, k);
      assert k in KeySet(go) by { assert go[i].key == k; }
      if k in ntKeys { matched := matched + goKeys[k]; } else { goOnly := goOnly + goKeys[k]; }
      rows, seen := rows + [row], seen + {k};
    }
    assert go[..|go|] == go;
  }

  lemma FirstHere(fills: seq<Fill>, i: nat)
    requires i < |fills| && fills[i].key !in KeySet(fills[..i])
    ensures FirstOf(fills, fills[i].key) == Some(fills[i])
  {
    var k := fills[i].key;
    FirstExists(fills[..i], k);
    assert fills[..i + 1] == fills[..i] + [fills[i]];
    KeySetSnoc(fills[..i], fills[i]);
    assert fills[..i + 1][..i] == fills[..i];
    FirstIsStable(fills, i + 1, k);
  }

  lemma NtCountedStep(go: seq<Fill>, nt: seq<Fill>, seen: set<Key>, k: Key)
    requires k !in seen && k !in KeySet(go)
    ensures CountIn(nt, (seen + {k}) - KeySet(go)) == CountIn(nt, seen - KeySet(go)) + CountOf(nt, k)
  {
    assert (seen + {k}) - KeySet(go) == (seen - KeySet(go)) + {k};
    CountSplits(nt, seen - KeySet(go), {k});
  }

  /** The pass over the NT trades: one row per key that Go does not have. */
  method NtPass(go: seq<Fill>, nt: seq<Fill>, goKeys: map<Key, nat>, ntKeys: map<Key, nat>, goRows: seq<Row>)
    returns (ntOnly: nat, rows: seq<Row>)
    requires Counts(goKeys, go) && Counts(ntKeys, nt) && RowsFor(goRows, KeySet(go), go, nt)
    ensures RowsFor(rows, KeySet(go) + KeySet(nt), go, nt)
    ensures ntOnly == CountIn(nt, KeySet(nt) - KeySet(go))
  {
    ntOnly, rows := 0, goRows;
    var seen := goKeys.Keys;
    CountNone(nt);
    assert seen - KeySet(go) == {} && KeySet(nt[..0]) == {} && KeySet(go) + {} == KeySet(go);
    for i := 0 to |nt|
      invariant seen == KeySet(go) + KeySet(nt[..i]) && RowsFor(rows, seen, go, nt)
      invariant ntOnly == CountIn(nt, seen - KeySet(go))
    {
      var k := nt[i].key;
      assert nt[..i + 1] == nt[..i] + [nt[i]];
      KeySetSnoc(nt[..i], nt[i]);
      if k in seen || k in goKeys { continue; }
      assert k in KeySet(nt) by { assert nt[i].key == k; }
      var row := Row(NtOnly, k, 0.0, 0.0);
      RowsGrow(rows, seen, go, nt, row);
      NtCountedStep(go, nt, seen, k);
      ntOnly, rows, seen := ntOnly + ntKeys[k], rows + [row], seen + {k};
    }
    assert nt[..|nt|] == nt;
    assert seen - KeySet(go) == KeySet(nt) - KeySet(go);
  }

  /** The first NT trade of every key. */
  method FirstByKey(nt: seq<Fill>) returns (m: map<Key, Fill>)
    ensures m.Keys == KeySet(nt) && forall k :: k in m ==> FirstOf(nt, k) == Some(m[k])
  {
    m := map[];
    for i := 0 to |nt|
      invariant m.Keys == KeySet(nt[..i]) && forall k :: k in m ==> FirstOf(nt, k) == Some(m[k])
    {
      var k := nt[i].key;
      assert nt[..i + 1] == nt[..i] + [nt[i]];
      KeySetSnoc(nt[..i], nt[i]);
      if k !in m {
        FirstHere(nt, i);
        m := m[k := nt[i]];
      }
    }
    assert nt[..|nt|] == nt;
  }

  function TotalsOf(go: seq<Fill>, nt: seq<Fill>): Totals {
    Totals(CountIn(go, KeySet(go) * KeySet(nt)), CountIn(go, KeySet(go) - KeySet(nt)), CountIn(nt, KeySet(nt) - KeySet(go)))
  }

  // ---- the final sort ----

  /** Day first, then symbol. */
  predicate RowLe(a: Row, b: Row) {
    a.key.day < b.key.day || (a.key.day == b.key.day && Signals.StringLe(a.key.symbol, b.key.symbol))
  }

  predicate OrderedRows(rows: seq<Row>) { forall i, j :: 0 <= i < j < |rows| ==> RowLe(rows[i], rows[j]) }

  function InsertRow(rows: seq<Row>, x: Row): seq<Row> {
    if rows == [] || RowLe(rows[|rows| - 1], x) then rows + [x]
    else InsertRow(rows[..|rows| - 1], x) + [rows[|rows| - 1]]
  }

  /** `sort.Slice` by day and symbol; the order of rows with equal day and symbol is one it may choose. */
  function SortRows(rows: seq<Row>): seq<Row> {
    if rows == [] then [] else InsertRow(SortRows(rows[..|rows| - 1]), rows[|rows| - 1])
  }

  lemma {:induction false} InsertRowBelow(rows: seq<Row>, x: Row, top: Row)
    requires RowLe(x, top) && forall i :: 0 <= i < |rows| ==> RowLe(rows[i], top)
    ensures forall i :: 0 <= i < |InsertRow(rows, x)| ==> RowLe(InsertRow(rows, x)[i], top)
    decreases |rows|
  {
    if !(rows == [] || RowLe(rows[|rows| - 1], x)) { InsertRowBelow(rows[..|rows| - 1], x, top); }
  }

  lemma {:induction false} InsertRowOrders(rows: seq<Row>, x: Row)
    requires OrderedRows(rows)
    ensures OrderedRows(InsertRow(rows, x))
    decreases |rows|
  {
    if !(rows == [] || RowLe(rows[|rows| - 1], x)) {
      var init, last := rows[..|rows| - 1], rows[|rows| - 1];
      InsertRowOrders(init, x);
      Signals.StringLeOrder(x.key.symbol, last.key.symbol, []);
      InsertRowBelow(init, x, last);
    } else if rows != [] {
      forall i | 0 <= i < |rows| ensures RowLe(rows[i], x) {
        Signals.StringLeOrder(rows[i].key.symbol, rows[|rows| - 1].key.symbol, x.key.symbol);
      }
    }
  }

  lemma RowsShrink(rows: seq<Row>, keys: set<Key>, go: seq<Fill>, nt: seq<Fill>)
    requires RowsFor(rows, keys, go, nt) && rows != []
    ensures RowsFor(rows[..|rows| - 1], keys - {rows[|rows| - 1].key}, go, nt)
    ensures rows[|rows| - 1].key in keys && RowFor(rows[|rows| - 1], go, nt)
  {
    var init, last := rows[..|rows| - 1], rows[|rows| - 1];
    assert last.key in RowKeys(rows);
    forall k | k in keys - {last.key} ensures k in RowKeys(init) {
      var i :| 0 <= i < |rows| && rows[i].key == k;
      assert init[i].key == k;
    }
    forall k | k in RowKeys(init) ensures k in keys - {last.key} {
      var i :| 0 <= i < |init| && init[i].key == k;
      assert rows[i].key == k;
    }
  }

  lemma {:induction false} InsertRowKeeps(rows: seq<Row>, keys: set<Key>, go: seq<Fill>, nt: seq<Fill>, x: Row)
    requires RowsFor(rows, keys, go, nt) && x.key !in keys && RowFor(x, go, nt)
    ensures RowsFor(InsertRow(rows, x), keys + {x.key}, go, nt)
    decreases |rows|
  {
    if rows == [] || RowLe(rows[|rows| - 1], x) {
      RowsGrow(rows, keys, go, nt, x);
    } else {
      var init, last := rows[..|rows| - 1], rows[|rows| - 1];
      RowsShrink(rows, keys, go, nt);
      InsertRowKeeps(init, keys - {last.key}, go, nt, x);
      RowsGrow(InsertRow(init, x), keys - {last.key} + {x.key}, go, nt, last);
      assert keys - {last.key} + {x.key} + {last.key} == keys + {x.key};
    }
  }

  /** Sorting orders the rows and keeps one row per key. */
  lemma {:induction false} SortRowsKeeps(rows: seq<Row>, keys: set<Key>, go: seq<Fill>, nt: seq<Fill>)
    requires RowsFor(rows, keys, go, nt)
    ensures RowsFor(SortRows(rows), keys, go, nt) && OrderedRows(SortRows(rows))
    decreases |rows|
  {
    if rows != [] {
      var init, last := rows[..|rows| - 1], rows[|rows| - 1];
      RowsShrink(rows, keys, go, nt);
      SortRowsKeeps(init, keys - {last.key}, go, nt);
      InsertRowKeeps(SortRows(init), keys - {last.key}, go, nt, last);
      InsertRowOrders(SortRows(init), last);
      assert keys - {last.key} + {last.key} == keys;
    }
  }

  /** Earlier days first, and within a day by symbol. */
  lemma OrderedMeans(rows: seq<Row>, i: nat, j: nat)
    requires OrderedRows(rows) && i < j < |rows|
    ensures rows[i].key.day <= rows[j].key.day
    ensures rows[i].key.day == rows[j].key.day ==> Signals.StringLe(rows[i].key.symbol, rows[j].key.symbol)
  {
    assert RowLe(rows[i], rows[j]);
  }

  /** `reconcileTrades`. */
  method ReconcileTrades(goTrades: seq<Trade>, ntTrades: seq<Trade>) returns (totals: Totals, rows: seq<Row>)
    ensures totals == TotalsOf(Fills(goTrades), Fills(ntTrades))
    ensures RowsFor(rows, KeySet(Fills(goTrades)) + KeySet(Fills(ntTrades)), Fills(goTrades), Fills(ntTrades))
    ensures OrderedRows(rows)
  {
    var go, nt := Fills(goTrades), Fills(ntTrades);
    var goKeys := CountKeys(go);
    var ntKeys := CountKeys(nt);
    var ntBy := FirstByKey(nt);
    var matched, goOnly, goRows, seen := GoPass(go, nt, goKeys, ntKeys, ntBy);
    var ntOnly, all := NtPass(go, nt, goKeys, ntKeys, goRows);
    SortRowsKeeps(all, KeySet(go) + KeySet(nt), go, nt);
    totals, rows := Totals(matched, goOnly, ntOnly), SortRows(all);
  }

  // ---- what the rows mean ----

  /** Some trade of the list has the key. */
  ghost predicate Traded(trades: seq<Trade>, k: Key) { exists i :: 0 <= i < |trades| && KeyOf(trades[i]) == k }

  /** Trade i is the first of the list with its key. */
  predicate FirstWithKey(trades: seq<Trade>, i: nat) {
    i < |trades| && forall k :: 0 <= k < i ==> KeyOf(trades[k]) != KeyOf(trades[i])
  }

  lemma TradedIsKey(trades: seq<Trade>, k: Key)
    ensures Traded(trades, k) <==> k in KeySet(Fills(trades))
  {
    if Traded(trades, k) {
      var i :| 0 <= i < |trades| && KeyOf(trades[i]) == k;
      assert Fills(trades)[i].key == k;
    }
    if k in KeySet(Fills(trades)) {
      var i :| 0 <= i < |Fills(trades)| && Fills(trades)[i].key == k;
      assert KeyOf(trades[i]) == k;
    }
  }

  lemma FirstTradeIs(trades: seq<Trade>, i: nat)
    requires FirstWithKey(trades, i)
    ensures FirstOf(Fills(trades), KeyOf(trades[i])) == Some(Fill(KeyOf(trades[i]), trades[i].fees))
  {
    var fills := Fills(trades);
    assert forall k :: 0 <= k < i ==> fills[..i][k].key == KeyOf(trades[k]);
    FirstHere(fills, i);
  }

  /** The kind of a row says on which sides a trade has its key. */
  lemma KindMeans(go: seq<Trade>, nt: seq<Trade>, row: Row)
    requires RowFor(row, Fills(go), Fills(nt))
    ensures row.kind == Matched <==> Traded(go, row.key) && Traded(nt, row.key)
    ensures row.kind == GoOnly <==> Traded(go, row.key) && !Traded(nt, row.key)
    ensures row.kind == NtOnly <==> !Traded(go, row.key) && Traded(nt, row.key)
  {
    TradedIsKey(go, row.key);
    TradedIsKey(nt, row.key);
  }

  /** A matched row shows the fees of the first trade on either side with its key. */
  lemma FeesMean(go: seq<Trade>, nt: seq<Trade>, row: Row, i: nat, j: nat)
    requires RowFor(row, Fills(go), Fills(nt))
    requires FirstWithKey(go, i) && KeyOf(go[i]) == row.key && FirstWithKey(nt, j) && KeyOf(nt[j]) == row.key
    ensures row.goFees == go[i].fees && row.ntFees == nt[j].fees
  {
    FirstTradeIs(go, i);
    FirstTradeIs(nt, j);
    assert Traded(go, row.key) && Traded(nt, row.key);
    TradedIsKey(go, row.key);
    TradedIsKey(nt, row.key);
  }

  // ---- what the counts mean ----

  /** The sum over keys of how many more Go fills than NT fills have that key. */
  ghost function Excess(keys: set<Key>, go: seq<Fill>, nt: seq<Fill>): int
    decreases |keys|
  {
    if keys == {} then 0 else
      var k :| k in keys;
      (CountOf(go, k) - CountOf(nt, k)) + Excess(keys - {k}, go, nt)
  }

  lemma {:induction false} ExcessIsDifference(keys: set<Key>, go: seq<Fill>, nt: seq<Fill>)
    ensures Excess(keys, go, nt) == CountIn(go, keys) - CountIn(nt, keys)
    decreases |keys|
  {
    if keys == {} {
      CountNone(go);
      CountNone(nt);
    } else {
      var k :| k in keys && Excess(keys, go, nt) == (CountOf(go, k) - CountOf(nt, k)) + Excess(keys - {k}, go, nt);
      var rest := keys - {k};
      ExcessIsDifference(rest, go, nt);
      CountSplits(go, rest, {k});
      CountSplits(nt, rest, {k});
      assert rest + {k} == keys;
      assert CountIn(go, keys) == CountIn(go, rest) + CountOf(go, k);
      assert CountIn(nt, keys) == CountIn(nt, rest) + CountOf(nt, k);
    }
  }

  lemma {:induction false} CountNone(fills: seq<Fill>)
    ensures CountIn(fills, {}) == 0
    decreases |fills|
  {
    if fills != [] { CountNone(fills[..|fills| - 1]); }
  }

  /**
   * Conservation: every Go trade is matched or Go-only. The NT side is different: a shared key counts
   * its Go fills, so the NT total exceeds the number of NT fills by the excess over the shared keys.
   */
  lemma CountsAreConserved(go: seq<Fill>, nt: seq<Fill>)
    ensures var t := TotalsOf(go, nt);
      && t.matched + t.goOnly == |go|
      && t.matched + t.ntOnly == |nt| + Excess(KeySet(go) * KeySet(nt), go, nt)
  {
    var g, n := KeySet(go), KeySet(nt);
    CountSplits(go, g * n, g - n);
    assert g * n + (g - n) == g;
    CountAll(go, g);
    CountSplits(nt, g * n, n - g);
    assert g * n + (n - g) == n;
    CountAll(nt, n);
    ExcessIsDifference(g * n, go, nt);
  }
}
