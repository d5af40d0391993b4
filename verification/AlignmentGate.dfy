/** The alignment gate over a dual-run report: metric tolerances, determinism, and the fill-count leg. */
module AlignmentGate {
  import opened AshareRules
  import opened Collections
  import opened Reconciliation

  datatype Metric = TotalReturn | AnnualReturn | Sharpe | Sortino | MaxDrawdown | WinRate | Calmar | TotalTrades

  datatype MetricRow = MetricRow(name: Metric, go: real, nt: real, diff: real, relDiff: real)

  datatype Measures = Measures(totalReturn: real, annualReturn: real, sharpe: real, sortino: real,
                               maxDrawdown: real, winRate: real, calmar: real, totalTrades: int, trades: seq<Trade>)

  datatype Report = Report(metrics: seq<MetricRow>, rows: seq<Row>, totals: Totals, goDeterministic: bool, ntDeterministic: bool)

  // ---- the report ----

  function Num(name: Metric, go: real, nt: real): MetricRow {
    MetricRow(name, go, nt, nt - go, if go != 0.0 then (nt - go) / go else 0.0)
  }

  function MetricRows(go: Measures, nt: Measures): seq<MetricRow> {
    [ Num(TotalReturn, go.totalReturn, nt.totalReturn),
      Num(AnnualReturn, go.annualReturn, nt.annualReturn),
      Num(Sharpe, go.sharpe, nt.sharpe),
      Num(Sortino, go.sortino, nt.sortino),
      Num(MaxDrawdown, go.maxDrawdown, nt.maxDrawdown),
      Num(WinRate, go.winRate, nt.winRate),
      Num(Calmar, go.calmar, nt.calmar),
      Num(TotalTrades, go.totalTrades as real, nt.totalTrades as real) ]
  }

  /** A report as `buildReport` leaves it, with the determinism flags set afterwards. */
  ghost predicate Built(r: Report, go: Measures, nt: Measures) {
    && r.metrics == MetricRows(go, nt)
    && r.totals == TotalsOf(Fills(go.trades), Fills(nt.trades))
    && RowsFor(r.rows, KeySet(Fills(go.trades)) + KeySet(Fills(nt.trades)), Fills(go.trades), Fills(nt.trades))
    && OrderedRows(r.rows)
  }

  method BuildReport(go: Measures, nt: Measures) returns (r: Report)
    ensures Built(r, go, nt) && !r.goDeterministic && !r.ntDeterministic
  {
    var totals, rows := ReconcileTrades(go.trades, nt.trades);
    r := Report(MetricRows(go, nt), rows, totals, false, false);
  }

  /** A metric row leads from the Go value to the NT value by its difference, and by its relative one where there is one. */
  lemma NumMeans(name: Metric, go: real, nt: real)
    ensures var row := Num(name, go, nt);
      && row.name == name && row.go == go && row.nt == nt
      && go + row.diff == nt
      && (go != 0.0 ==> go * (1.0 + row.relDiff) == nt)
      && (go == 0.0 ==> row.relDiff == 0.0)
  {
    if go != 0.0 {
      assert (nt - go) / go * go == nt - go;
    }
  }

  // ---- the gate ----

  datatype ToleranceKind = Relative | Absolute

  datatype Tolerance = Tolerance(metric: Metric, kind: ToleranceKind, limit: real)

  const TOLERANCES: seq<Tolerance> := [
    Tolerance(TotalReturn, Relative, 0.002),
    Tolerance(AnnualReturn, Relative, 0.002),
    Tolerance(MaxDrawdown, Relative, 0.005),
    Tolerance(Sharpe, Absolute, 0.05),
    Tolerance(Sortino, Absolute, 0.05),
    Tolerance(Calmar, Absolute, 0.05)]

  const FILLS_TOLERANCE := 0.05

  datatype Rule = DeterminismGo | DeterminismNt | MetricRule(metric: Metric) | TradesMismatch | TradesFills

  function Abs(x: real): real { if x >= 0.0 then x else -x }

  function FindMetric(rows: seq<MetricRow>, name: Metric): Option<MetricRow> {
    if rows == [] then None else if rows[0].name == name then Some(rows[0]) else FindMetric(rows[1..], name)
  }

  /** What a tolerance is compared with; a relative one falls back to the difference when Go is zero. */
  datatype Basis = PlainDifference | ZeroBase | RelativeDifference

  function BasisOf(tol: Tolerance, row: MetricRow): Basis {
    if tol.kind == Absolute then PlainDifference else if row.go == 0.0 then ZeroBase else RelativeDifference
  }

  function Deviation(tol: Tolerance, row: MetricRow): real {
    if BasisOf(tol, row) == RelativeDifference then (assert row.go != 0.0; Abs(row.diff / row.go)) else Abs(row.diff)
  }

  predicate Exceeds(tol: Tolerance, row: MetricRow) { Deviation(tol, row) > tol.limit }

  /** A metric that is missing from the report breaks its rule too. */
  predicate Breaks(tol: Tolerance, rows: seq<MetricRow>) {
    var row := FindMetric(rows, tol.metric);
    row.None? || Exceeds(tol, row.value)
  }

  function FillDeviation(goFills: nat, ntFills: nat): real
    requires goFills != 0 || ntFills != 0
  {
    Abs((ntFills - goFills) as real) / (if goFills == 0 then ntFills else goFills) as real
  }

  predicate FillsBroken(t: Totals) {
    var goFills, ntFills := t.matched + t.goOnly, t.matched + t.ntOnly;
    if goFills == 0 && ntFills == 0 then true else FillDeviation(goFills, ntFills) > FILLS_TOLERANCE
  }

  /** When a rule is violated. */
  ghost predicate Broken(r: Report, rule: Rule) {
    match rule
    case DeterminismGo => !r.goDeterministic
    case DeterminismNt => !r.ntDeterministic
    case MetricRule(m) => exists i :: 0 <= i < |TOLERANCES| && TOLERANCES[i].metric == m && Breaks(TOLERANCES[i], r.metrics)
    case TradesMismatch => exists i :: 0 <= i < |r.rows| && r.rows[i].kind == Mismatch
    case TradesFills => FillsBroken(r.totals)
  }

  /** What the message of a violation says. */
  datatype Reason =
    | NotDeterministic
    | MetricMissing
    | TooFar(go: real, nt: real, basis: Basis, deviation: real, limit: real)
    | SameKeyDiffers(row: Row)
    | NoFills
    | FillsApart(apart: real, goFills: nat, ntFills: nat, totals: Totals)

  datatype Violation = Violation(rule: Rule, reason: Reason)

  /** The violation of one tolerance, if any. */
  function MetricViolation(tol: Tolerance, rows: seq<MetricRow>): seq<Violation> {
    match FindMetric(rows, tol.metric)
    case None => [Violation(MetricRule(tol.metric), MetricMissing)]
    case Some(row) =>
      if Exceeds(tol, row)
      then [Violation(MetricRule(tol.metric), TooFar(row.go, row.nt, BasisOf(tol, row), Deviation(tol, row), tol.limit))]
      else []
  }

  /** All of them, in the order of the tolerance table. */
  function MetricViolationsOf(tolerances: seq<Tolerance>, rows: seq<MetricRow>): seq<Violation> {
    if tolerances == [] then []
    else MetricViolationsOf(tolerances[..|tolerances| - 1], rows) + MetricViolation(tolerances[|tolerances| - 1], rows)
  }

  /** One violation per mismatched row. */
  function MismatchViolations(rows: seq<Row>): seq<Violation> {
    if rows == [] then [] else
      var row := rows[|rows| - 1];
      MismatchViolations(rows[..|rows| - 1]) + (if row.kind == Mismatch then [Violation(TradesMismatch, SameKeyDiffers(row))] else [])
  }

  function FlagViolations(r: Report): seq<Violation> {
    (if r.goDeterministic then [] else [Violation(DeterminismGo, NotDeterministic)])
    + (if r.ntDeterministic then [] else [Violation(DeterminismNt, NotDeterministic)])
  }

  function FillViolations(t: Totals): seq<Violation> {
    var goFills, ntFills := t.matched + t.goOnly, t.matched + t.ntOnly;
    if goFills == 0 && ntFills == 0 then [Violation(TradesFills, NoFills)]
    else if FillDeviation(goFills, ntFills) > FILLS_TOLERANCE
    then [Violation(TradesFills, FillsApart(FillDeviation(goFills, ntFills), goFills, ntFills, t))]
    else []
  }

  /** The whole list, in order. */
  function ViolationsOf(r: Report): seq<Violation> {
    FlagViolations(r) + MetricViolationsOf(TOLERANCES, r.metrics) + MismatchViolations(r.rows) + FillViolations(r.totals)
  }

  function RulesOf(violations: seq<Violation>): set<Rule> { set i | 0 <= i < |violations| :: violations[i].rule }

  lemma RulesConcat(a: seq<Violation>, b: seq<Violation>)
    ensures RulesOf(a + b) == RulesOf(a) + RulesOf(b)
  {
    var all := a + b;
    forall rule | rule in RulesOf(a) ensures rule in RulesOf(all) {
      var i :| 0 <= i < |a| && a[i].rule == rule;
      assert all[i].rule == rule;
    }
    forall rule | rule in RulesOf(b) ensures rule in RulesOf(all) {
      var i :| 0 <= i < |b| && b[i].rule == rule;
      assert all[|a| + i].rule == rule;
    }
  }

  lemma MetricViolationRules(tol: Tolerance, rows: seq<MetricRow>)
    ensures RulesOf(MetricViolation(tol, rows)) == if Breaks(tol, rows) then {MetricRule(tol.metric)} else {}
  {
    var v := MetricViolation(tol, rows);
    if Breaks(tol, rows) { assert v[0].rule == MetricRule(tol.metric); }
  }

  lemma {:induction false} MetricRulesAre(tolerances: seq<Tolerance>, rows: seq<MetricRow>)
    ensures forall rule :: rule in RulesOf(MetricViolationsOf(tolerances, rows)) <==>
      (rule.MetricRule? && exists i :: 0 <= i < |tolerances| && tolerances[i].metric == rule.metric && Breaks(tolerances[i], rows))
    decreases |tolerances|
  {
    if tolerances != [] {
      var n := |tolerances| - 1;
      MetricRulesAre(tolerances[..n], rows);
      RulesConcat(MetricViolationsOf(tolerances[..n], rows), MetricViolation(tolerances[n], rows));
      MetricViolationRules(tolerances[n], rows);
    }
  }

  lemma {:induction false} MismatchRulesAre(rows: seq<Row>)
    ensures forall rule :: rule in RulesOf(MismatchViolations(rows)) <==>
      (rule == TradesMismatch && exists i :: 0 <= i < |rows| && rows[i].kind == Mismatch)
    decreases |rows|
  {
    if rows != [] {
      var n := |rows| - 1;
      MismatchRulesAre(rows[..n]);
      if rows[n].kind == Mismatch {
        var last := [Violation(TradesMismatch, SameKeyDiffers(rows[n]))];
        assert last[0].rule == TradesMismatch;
        RulesConcat(MismatchViolations(rows[..n]), last);
      } else {
        assert MismatchViolations(rows) == MismatchViolations(rows[..n]);
      }
    }
  }

  lemma FlagRulesAre(r: Report)
    ensures RulesOf(FlagViolations(r)) ==
      (if r.goDeterministic then {} else {DeterminismGo}) + (if r.ntDeterministic then {} else {DeterminismNt})
  {
    var go := if r.goDeterministic then [] else [Violation(DeterminismGo, NotDeterministic)];
    var nt := if r.ntDeterministic then [] else [Violation(DeterminismNt, NotDeterministic)];
    RulesConcat(go, nt);
    if !r.goDeterministic { assert go[0].rule == DeterminismGo; }
    if !r.ntDeterministic { assert nt[0].rule == DeterminismNt; }
  }

  lemma FillRulesAre(t: Totals)
    ensures RulesOf(FillViolations(t)) == if FillsBroken(t) then {TradesFills} else {}
  {
    if FillsBroken(t) { assert FillViolations(t)[0].rule == TradesFills; }
  }

  lemma RulesConcatFour(a: seq<Violation>, b: seq<Violation>, c: seq<Violation>, d: seq<Violation>)
    ensures RulesOf(a + b + c + d) == RulesOf(a) + RulesOf(b) + RulesOf(c) + RulesOf(d)
  {
    RulesConcat(a, b);
    RulesConcat(a + b, c);
    RulesConcat(a + b + c, d);
  }

  /** Exactly the broken rules are in the list. */
  lemma ViolationsAreBroken(r: Report)
    ensures forall rule :: rule in RulesOf(ViolationsOf(r)) <==> Broken(r, rule)
  {
    RulesConcatFour(FlagViolations(r), MetricViolationsOf(TOLERANCES, r.metrics), MismatchViolations(r.rows), FillViolations(r.totals));
    forall rule ensures rule in RulesOf(ViolationsOf(r)) <==> Broken(r, rule) { RuleIsListed(r, rule); }
  }

  lemma RuleIsListed(r: Report, rule: Rule)
    ensures Broken(r, rule) <==>
      || rule in RulesOf(FlagViolations(r)) || rule in RulesOf(MetricViolationsOf(TOLERANCES, r.metrics))
      || rule in RulesOf(MismatchViolations(r.rows)) || rule in RulesOf(FillViolations(r.totals))
  {
    FlagRulesAre(r);
    MetricRulesAre(TOLERANCES, r.metrics);
    MismatchRulesAre(r.rows);
    FillRulesAre(r.totals);
  }

  method MetricViolations(r: Report) returns (violations: seq<Violation>)
    ensures violations == MetricViolationsOf(TOLERANCES, r.metrics)
    ensures forall rule :: rule in RulesOf(violations) <==> rule.MetricRule? && Broken(r, rule)
  {
    violations := [];
    for i := 0 to |TOLERANCES|
      invariant violations == MetricViolationsOf(TOLERANCES[..i], r.metrics)
    {
      assert TOLERANCES[..i + 1][..i] == TOLERANCES[..i];
      var tol := TOLERANCES[i];
      var rule := MetricRule(tol.metric);
      var row := FindMetric(r.metrics, tol.metric);
      if row.None? {
        violations := violations + [Violation(rule, MetricMissing)];
        continue;
      }
      var basis, deviation := PlainDifference, Abs(row.value.diff);
      if tol.kind == Relative {
        basis := ZeroBase;
        if row.value.go != 0.0 { basis, deviation := RelativeDifference, Abs(row.value.diff / row.value.go); }
      }
      if deviation > tol.limit {
        violations := violations + [Violation(rule, TooFar(row.value.go, row.value.nt, basis, deviation, tol.limit))];
      }
    }
    assert TOLERANCES[..|TOLERANCES|] == TOLERANCES;
    MetricRulesAre(TOLERANCES, r.metrics);
  }

  method MismatchesIn(rows: seq<Row>) returns (violations: seq<Violation>)
    ensures violations == MismatchViolations(rows)
  {
    violations := [];
    for i := 0 to |rows|
      invariant violations == MismatchViolations(rows[..i])
    {
      assert rows[..i + 1][..i] == rows[..i];
      if rows[i].kind == Mismatch { violations := violations + [Violation(TradesMismatch, SameKeyDiffers(rows[i]))]; }
    }
    assert rows[..|rows|] == rows;
  }

  /** `EvaluateGate`: exactly the broken rules are reported, in order, each with what its message says. */
  method EvaluateGate(r: Report) returns (violations: seq<Violation>)
    ensures violations == ViolationsOf(r)
    ensures forall rule :: rule in RulesOf(violations) <==> Broken(r, rule)
  {
    violations := [];
    if !r.goDeterministic { violations := violations + [Violation(DeterminismGo, NotDeterministic)]; }
    if !r.ntDeterministic { violations := violations + [Violation(DeterminismNt, NotDeterministic)]; }
    assert violations == FlagViolations(r);
    var metrics := MetricViolations(r);
    var mismatches := MismatchesIn(r.rows);
    violations := violations + metrics + mismatches + FillViolations(r.totals);
    ViolationsAreBroken(r);
  }

  // ---- what a silent gate means on a built report ----

  /** The NT deviation is within `limit` of the Go value, or within `limit` itself when Go is zero. */
  predicate Near(go: real, nt: real, limit: real) {
    Abs(nt - go) <= limit * (if go == 0.0 then 1.0 else Abs(go))
  }

  lemma RelativeIsNear(tol: Tolerance, name: Metric, go: real, nt: real)
    requires tol.kind == Relative
    ensures Exceeds(tol, Num(name, go, nt)) <==> !Near(go, nt, tol.limit)
  {
    if go != 0.0 {
      AbsQuotient(nt - go, go);
      QuotientOver(Abs(nt - go), Abs(go), tol.limit);
    }
  }

  lemma AbsQuotient(a: real, b: real)
    requires b != 0.0
    ensures Abs(a / b) == Abs(a) / Abs(b)
  {
    var q := a / b;
    assert q * b == a;
    if b > 0.0 {
      assert (q >= 0.0) == (a >= 0.0) by { SignOf(q, b); }
    } else {
      assert -b * q == -a;
      assert (q >= 0.0) == (-a >= 0.0) by { SignOf(q, -b); }
    }
  }

  lemma SignOf(q: real, b: real)
    requires b > 0.0
    ensures q * b >= 0.0 <==> q >= 0.0
  {
    if q >= 0.0 { MulLe(0.0, q, b); } else { MulLt(q, 0.0, b); }
  }

  lemma QuotientOver(d: real, base: real, limit: real)
    requires base > 0.0
    ensures d / base > limit <==> d > limit * base
  {
    ProductOver(d / base, d, base, limit);
  }

  lemma ProductOver(q: real, d: real, base: real, limit: real)
    requires base > 0.0 && q * base == d
    ensures q > limit <==> d > limit * base
  {
    if q <= limit { MulLe(q, limit, base); } else { MulLt(limit, q, base); }
  }

  lemma NamesAre(go: Measures, nt: Measures)
    ensures var rows := MetricRows(go, nt);
      && |rows| == 8
      && rows[0].name == TotalReturn && rows[1].name == AnnualReturn && rows[2].name == Sharpe && rows[3].name == Sortino
      && rows[4].name == MaxDrawdown && rows[5].name == WinRate && rows[6].name == Calmar && rows[7].name == TotalTrades
  {
  }

  /** The row of each metric, under its own name. */
  lemma MetricIs(rows: seq<MetricRow>, go: Measures, nt: Measures)
    requires rows == MetricRows(go, nt)
    ensures FindMetric(rows, TotalReturn) == Some(Num(TotalReturn, go.totalReturn, nt.totalReturn))
    ensures FindMetric(rows, AnnualReturn) == Some(Num(AnnualReturn, go.annualReturn, nt.annualReturn))
    ensures FindMetric(rows, Sharpe) == Some(Num(Sharpe, go.sharpe, nt.sharpe))
    ensures FindMetric(rows, Sortino) == Some(Num(Sortino, go.sortino, nt.sortino))
  {
    NamesAre(go, nt);
    FindFirst(rows, 0, TotalReturn);
    FindFirst(rows, 1, AnnualReturn);
    FindFirst(rows, 2, Sharpe);
    FindFirst(rows, 3, Sortino);
  }

  lemma OtherMetricIs(rows: seq<MetricRow>, go: Measures, nt: Measures)
    requires rows == MetricRows(go, nt)
    ensures FindMetric(rows, MaxDrawdown) == Some(Num(MaxDrawdown, go.maxDrawdown, nt.maxDrawdown))
    ensures FindMetric(rows, WinRate) == Some(Num(WinRate, go.winRate, nt.winRate))
    ensures FindMetric(rows, Calmar) == Some(Num(Calmar, go.calmar, nt.calmar))
    ensures FindMetric(rows, TotalTrades) == Some(Num(TotalTrades, go.totalTrades as real, nt.totalTrades as real))
  {
    NamesAre(go, nt);
    FindFirst(rows, 4, MaxDrawdown);
    FindFirst(rows, 5, WinRate);
    FindFirst(rows, 6, Calmar);
    FindFirst(rows, 7, TotalTrades);
  }

  lemma {:induction false} FindFirst(rows: seq<MetricRow>, i: nat, name: Metric)
    requires i < |rows| && rows[i].name == name && forall j :: 0 <= j < i ==> rows[j].name != name
    ensures FindMetric(rows, name) == Some(rows[i])
    decreases i
  {
    if i > 0 { FindFirst(rows[1..], i - 1, name); }
  }

  predicate MetricsNear(go: Measures, nt: Measures) {
    && Near(go.totalReturn, nt.totalReturn, 0.002)
    && Near(go.annualReturn, nt.annualReturn, 0.002)
    && Near(go.maxDrawdown, nt.maxDrawdown, 0.005)
    && Abs(nt.sharpe - go.sharpe) <= 0.05
    && Abs(nt.sortino - go.sortino) <= 0.05
    && Abs(nt.calmar - go.calmar) <= 0.05
  }

  lemma BreaksMeans(tol: Tolerance, rows: seq<MetricRow>, go: real, nt: real)
    requires FindMetric(rows, tol.metric) == Some(Num(tol.metric, go, nt))
    ensures tol.kind == Relative ==> (Breaks(tol, rows) <==> !Near(go, nt, tol.limit))
    ensures tol.kind == Absolute ==> (Breaks(tol, rows) <==> Abs(nt - go) > tol.limit)
  {
    if tol.kind == Relative { RelativeIsNear(tol, tol.metric, go, nt); }
  }

  predicate AllWithin(tolerances: seq<Tolerance>, rows: seq<MetricRow>) {
    forall i :: 0 <= i < |tolerances| ==> !Breaks(tolerances[i], rows)
  }

  /** The three relative tolerances. */
  lemma RelativeRulesMean(rows: seq<MetricRow>, go: Measures, nt: Measures)
    requires rows == MetricRows(go, nt)
    ensures !Breaks(TOLERANCES[0], rows) <==> Near(go.totalReturn, nt.totalReturn, 0.002)
    ensures !Breaks(TOLERANCES[1], rows) <==> Near(go.annualReturn, nt.annualReturn, 0.002)
    ensures !Breaks(TOLERANCES[2], rows) <==> Near(go.maxDrawdown, nt.maxDrawdown, 0.005)
  {
    MetricIs(rows, go, nt);
    OtherMetricIs(rows, go, nt);
    BreaksMeans(TOLERANCES[0], rows, go.totalReturn, nt.totalReturn);
    BreaksMeans(TOLERANCES[1], rows, go.annualReturn, nt.annualReturn);
    BreaksMeans(TOLERANCES[2], rows, go.maxDrawdown, nt.maxDrawdown);
  }

  /** The three absolute ones. */
  lemma AbsoluteRulesMean(rows: seq<MetricRow>, go: Measures, nt: Measures)
    requires rows == MetricRows(go, nt)
    ensures !Breaks(TOLERANCES[3], rows) <==> Abs(nt.sharpe - go.sharpe) <= 0.05
    ensures !Breaks(TOLERANCES[4], rows) <==> Abs(nt.sortino - go.sortino) <= 0.05
    ensures !Breaks(TOLERANCES[5], rows) <==> Abs(nt.calmar - go.calmar) <= 0.05
  {
    MetricIs(rows, go, nt);
    OtherMetricIs(rows, go, nt);
    BreaksMeans(TOLERANCES[3], rows, go.sharpe, nt.sharpe);
    BreaksMeans(TOLERANCES[4], rows, go.sortino, nt.sortino);
    BreaksMeans(TOLERANCES[5], rows, go.calmar, nt.calmar);
  }

  lemma SixTolerances(t: seq<Tolerance>, rows: seq<MetricRow>)
    requires |t| == 6
    ensures AllWithin(t, rows) <==>
      !Breaks(t[0], rows) && !Breaks(t[1], rows) && !Breaks(t[2], rows)
      && !Breaks(t[3], rows) && !Breaks(t[4], rows) && !Breaks(t[5], rows)
  {
  }

  lemma MetricRulesMean(rows: seq<MetricRow>, go: Measures, nt: Measures)
    requires rows == MetricRows(go, nt)
    ensures AllWithin(TOLERANCES, rows) <==> MetricsNear(go, nt)
  {
    SixTolerances(TOLERANCES, rows);
    RelativeRulesMean(rows, go, nt);
    AbsoluteRulesMean(rows, go, nt);
  }

  /** The figures of a metric violation on a built report: both values, and how far apart against which limit. */
  lemma ReasonMeans(tol: Tolerance, rows: seq<MetricRow>, go: real, nt: real, v: Violation)
    requires FindMetric(rows, tol.metric) == Some(Num(tol.metric, go, nt)) && v in MetricViolation(tol, rows)
    ensures v.rule == MetricRule(tol.metric) && v.reason.TooFar?
    ensures v.reason.go == go && v.reason.nt == nt && v.reason.limit == tol.limit < v.reason.deviation
    ensures v.reason.basis == PlainDifference <==> tol.kind == Absolute
    ensures v.reason.basis == RelativeDifference ==> go != 0.0 && v.reason.deviation * Abs(go) == Abs(nt - go)
    ensures v.reason.basis != RelativeDifference ==> v.reason.deviation == Abs(nt - go)
  {
    if tol.kind == Relative && go != 0.0 { AbsQuotient(nt - go, go); }
  }

  /** The figures of the fill leg: both counts, and their difference over Go's count, or NT's when Go has none. */
  lemma FillReasonMeans(t: Totals, v: Violation)
    requires v in FillViolations(t)
    ensures v.rule == TradesFills
    ensures v.reason == NoFills <==> t.matched + t.goOnly == 0 && t.matched + t.ntOnly == 0
    ensures v.reason != NoFills ==>
      && v.reason.FillsApart? && v.reason.totals == t
      && v.reason.goFills == t.matched + t.goOnly && v.reason.ntFills == t.matched + t.ntOnly
      && v.reason.apart > 0.05
      && v.reason.apart * (if v.reason.goFills == 0 then v.reason.ntFills else v.reason.goFills) as real
         == Abs((v.reason.ntFills - v.reason.goFills) as real)
  {
  }

  /** The NT fill count the gate works with; it is the raw count plus the excess over shared keys. */
  ghost function GateNtFills(go: Measures, nt: Measures): int {
    |nt.trades| + Excess(KeySet(Fills(go.trades)) * KeySet(Fills(nt.trades)), Fills(go.trades), Fills(nt.trades))
  }

  /** Some trade on some side, and counts within 5% of Go's (of NT's when Go has none). */
  ghost predicate FillsNear(go: int, nt: int) {
    && (go > 0 || nt > 0)
    && Abs((nt - go) as real) <= 0.05 * (if go == 0 then nt else go) as real
  }

  lemma FillsRuleMeans(t: Totals)
    ensures !FillsBroken(t) <==> FillsNear(t.matched + t.goOnly, t.matched + t.ntOnly)
  {
    var g, n := t.matched + t.goOnly, t.matched + t.ntOnly;
    if g > 0 || n > 0 {
      QuotientOver(Abs((n - g) as real), (if g == 0 then n else g) as real, FILLS_TOLERANCE);
    }
  }

  /** A silent gate, rule by rule. */
  lemma SilentIsEachRule(r: Report)
    ensures (forall rule :: !Broken(r, rule)) <==>
      r.goDeterministic && r.ntDeterministic && AllWithin(TOLERANCES, r.metrics)
      && !Broken(r, TradesMismatch) && !FillsBroken(r.totals)
  {
    if forall rule :: !Broken(r, rule) {
      assert !Broken(r, DeterminismGo) && !Broken(r, DeterminismNt) && !Broken(r, TradesFills);
      forall i | 0 <= i < |TOLERANCES| ensures !Breaks(TOLERANCES[i], r.metrics) {
        assert !Broken(r, MetricRule(TOLERANCES[i].metric));
      }
    }
  }

  /** No row of a built report is a mismatch. */
  lemma NoRowMismatches(r: Report, go: Measures, nt: Measures)
    requires Built(r, go, nt)
    ensures !Broken(r, TradesMismatch)
  {
    forall i | 0 <= i < |r.rows| ensures r.rows[i].kind != Mismatch {
      assert RowFor(r.rows[i], Fills(go.trades), Fills(nt.trades));
    }
  }

  /**
   * On a built report the gate is silent if and only if both kernels were deterministic, all six
   * metrics are within tolerance, and the gate's two fill counts are close. No row is ever a mismatch.
   */
  lemma SilentGateMeans(r: Report, go: Measures, nt: Measures)
    requires Built(r, go, nt)
    ensures (forall rule :: !Broken(r, rule)) <==>
      && r.goDeterministic && r.ntDeterministic
      && MetricsNear(go, nt)
      && FillsNear(|go.trades|, GateNtFills(go, nt))
    ensures !Broken(r, TradesMismatch)
  {
    SilentIsEachRule(r);
    MetricRulesMean(r.metrics, go, nt);
    NoRowMismatches(r, go, nt);
    FillsRuleMeans(r.totals);
    CountsAreConserved(Fills(go.trades), Fills(nt.trades));
  }

  /** The gate's NT count is the raw count exactly when the shared keys balance out. */
  lemma GateCountIsRawIff(go: Measures, nt: Measures)
    ensures GateNtFills(go, nt) == |nt.trades| <==>
      CountIn(Fills(go.trades), KeySet(Fills(nt.trades))) == CountIn(Fills(nt.trades), KeySet(Fills(go.trades)))
  {
    var g, n := Fills(go.trades), Fills(nt.trades);
    ExcessIsDifference(KeySet(g) * KeySet(n), g, n);
    CountWithin(g, KeySet(n));
    CountWithin(n, KeySet(g));
    assert KeySet(n) * KeySet(g) == KeySet(g) * KeySet(n);
  }

  /** Only keys that occur can count. */
  lemma CountWithin(fills: seq<Fill>, s: set<Key>)
    ensures CountIn(fills, s) == CountIn(fills, KeySet(fills) * s)
  {
    CountOutside(fills, s - KeySet(fills), KeySet(fills));
    assert (KeySet(fills) * s) + (s - KeySet(fills)) == s;
    CountSplits(fills, KeySet(fills) * s, s - KeySet(fills));
  }

  lemma {:induction false} CountOutside(fills: seq<Fill>, s: set<Key>, keys: set<Key>)
    requires KeySet(fills) <= keys && s !! keys
    ensures CountIn(fills, s) == 0
    decreases |fills|
  {
    if fills != [] {
      var init, t := fills[..|fills| - 1], fills[|fills| - 1];
      KeySetSnoc(init, t);
      assert fills == init + [t];
      CountOutside(init, s, keys);
    }
  }

  lemma EqualKeysTotals(g: seq<Fill>, m: seq<Fill>)
    requires KeySet(g) == KeySet(m)
    ensures TotalsOf(g, m) == Totals(|g|, 0, 0)
  {
    var keys := KeySet(g);
    assert keys * keys == keys && keys - keys == {};
    CountAll(g, keys);
    CountNone(g);
    CountNone(m);
  }

  /** Whenever both sides have the same keys, the fill leg is silent however often NT repeats a trade. */
  lemma RepeatedNtFillsPass(go: seq<Trade>, nt: seq<Trade>)
    requires go != [] && KeySet(Fills(go)) == KeySet(Fills(nt))
    ensures TotalsOf(Fills(go), Fills(nt)) == Totals(|go|, 0, 0)
    ensures !FillsBroken(TotalsOf(Fills(go), Fills(nt)))
  {
    EqualKeysTotals(Fills(go), Fills(nt));
  }

  lemma KeysOfRepeats(t: Trade, n: nat)
    requires n > 0
    ensures KeySet(Fills(seq(n, _ => t))) == {KeyOf(t)}
  {
    assert Fills(seq(n, _ => t))[0].key == KeyOf(t);
  }

  /** So one Go trade against any number of copies of it in NT passes. */
  lemma AnyNumberOfCopiesPasses(t: Trade, n: nat)
    requires n > 0
    ensures !FillsBroken(TotalsOf(Fills([t]), Fills(seq(n, _ => t))))
  {
    KeysOfRepeats(t, n);
    KeysOfRepeats(t, 1);
    assert seq(1, _ => t) == [t];
    RepeatedNtFillsPass([t], seq(n, _ => t));
  }
}
