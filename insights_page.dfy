/**
 * The insights page: whether it shows the "Not Enough Data" view, and the month
 * trend it shows otherwise.
 */
module InsightsPage {
  import opened Wrappers
  import opened Models
  import opened Insights

  /** The trend line: "N% more" or "N% less" than last month. */
  datatype TrendLabel = More(percent: int) | Less(percent: int)

  /** The no-data view: no insights were loaded, or both totals are 0. */
  predicate ShowNoData(insights: Option<SpendingReport>) {
    insights.None? || (insights.value.currentMonthTotal == 0 && insights.value.lastMonthTotal == 0)
  }

  /** `trendPercentage`: the rounded change against last month in percent, or 100
      when last month's total is not positive. */
  function TrendPercentage(current: int, last: int): int {
    if last > 0 then Round(((current as real - last as real) / last as real) * 100.0) else 100
  }

  /** `isUp`. */
  predicate IsUp(trend: int) {
    trend >= 0
  }

  /** What the trend line says: a rising trend as is, a falling one as its absolute value. */
  function Label(report: SpendingReport): (r: TrendLabel)
    ensures r.percent >= 0
    ensures r.More? <==> IsUp(TrendPercentage(report.currentMonthTotal, report.lastMonthTotal))
    ensures var t := TrendPercentage(report.currentMonthTotal, report.lastMonthTotal);
      r.percent == if t < 0 then -t else t
  {
    var t := TrendPercentage(report.currentMonthTotal, report.lastMonthTotal);
    if IsUp(t) then More(t) else Less(if t < 0 then -t else t)
  }

  /** The trend in integer arithmetic: the percentage rounded half up. */
  lemma TrendForm(current: int, last: int)
    requires last > 0
    ensures TrendPercentage(current, last) == (200 * (current - last) + last) / (2 * last)
  {
    var x := (current as real - last as real) / last as real;
    var a := 200 * (current - last) + last;
    assert x * last as real == (current - last) as real;
    assert (x * 100.0 + 0.5) * (2 * last) as real == a as real;
    var y := a as real / (2 * last) as real;
    assert y * (2 * last) as real == a as real;
    CancelFactor(x * 100.0 + 0.5, y, (2 * last) as real);
    FloorOfQuotient(a, 2 * last);
  }

  /** The arrow points up exactly when the drop, if any, is under half a percent of
      last month; with no positive total last month it always points up. */
  lemma UpCondition(current: int, last: int)
    ensures last <= 0 ==> IsUp(TrendPercentage(current, last))
    ensures last > 0 ==> (IsUp(TrendPercentage(current, last)) <==> 200 * current >= 199 * last)
  {
    if last > 0 {
      TrendForm(current, last);
      QuotientSign(200 * (current - last) + last, 2 * last);
    }
  }

  lemma QuotientSign(a: int, d: int)
    requires d > 0
    ensures a / d >= 0 <==> a >= 0
  {
    var q := a / d;
    assert a == q * d + a % d;
    if q >= 0 {
      assert q * d >= 0;
    } else {
      assert q * d <= -d;
    }
  }

  /** With the join as written the server's insights are always empty, so the page
      always shows the no-data view. */
  lemma AsWrittenPageHasNoData(es: seq<Expense>, cats: seq<Category>,
                               owner: UserId, k: int)
    ensures ShowNoData(Some(SpendingInsights(es, cats, owner, k, PlainIdField)))
  {
    AsWrittenJoinFindsNothing(es, cats, owner, k);
  }
}
