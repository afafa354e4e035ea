/**
 * GET /insights: this month's and last month's totals, and per category of the
 * last three months an anomaly flag and a budget suggestion. The clock reading is
 * a parameter: `k`, the number (see `Calendar.MonthIndex`) of the current month.
 * Averages and percentages are exact rationals here.
 */
module Insights {
  import opened Wrappers
  import opened Calendar
  import opened Models
  import opened Ledger

  /** Which field of a category the `$lookup` compares with an expense's `category`. */
  datatype JoinField = ObjectIdField | PlainIdField

  /** The value a stored category document holds under the join field: `_id` is
      always stored, while the schema declares no plain `id` field, so that one is
      always missing. */
  function StoredKey(c: Category, field: JoinField): Option<CategoryId> {
    match field
    case ObjectIdField => Some(c.id)
    case PlainIdField => None
  }

  /** The categories, of any owner, whose join field equals `id`, in collection order. */
  function Matching(cats: seq<Category>, field: JoinField, id: CategoryId): (r: seq<Category>)
    ensures forall c :: c in r <==> c in cats && StoredKey(c, field) == Some(id)
  {
    if cats == [] then []
    else
      (if StoredKey(cats[0], field) == Some(id) then [cats[0]] else [])
        + Matching(cats[1..], field, id)
  }

  /** An expense document after `$unwind: '$category'`: the category is embedded. */
  datatype Joined = Joined(expense: Expense, category: Category)

  function Pair(e: Expense, cs: seq<Category>): (r: seq<Joined>)
    ensures forall j :: j in r <==> j.expense == e && j.category in cs
  {
    if cs == [] then [] else [Joined(e, cs[0])] + Pair(e, cs[1..])
  }

  /** `$lookup` then `$unwind`: one document per expense and matching category; an
      expense that matches no category is dropped. */
  function Join(es: seq<Expense>, cats: seq<Category>, field: JoinField): (r: seq<Joined>)
    ensures forall j :: j in r <==>
      j.expense in es && j.category in cats && StoredKey(j.category, field) == Some(j.expense.category)
  {
    if es == [] then []
    else
      var last := es[|es| - 1];
      assert es == es[..|es| - 1] + [last];
      Join(es[..|es| - 1], cats, field) + Pair(last, Matching(cats, field, last.category))
  }

  /** The expenses inside joined documents, in order. */
  function ExpensesOf(js: seq<Joined>): (r: seq<Expense>)
    ensures |r| == |js|
    ensures forall i :: 0 <= i < |js| ==> r[i] == js[i].expense
  {
    if js == [] then [] else ExpensesOf(js[..|js| - 1]) + [js[|js| - 1].expense]
  }

  /** The joined documents whose embedded category is `c`. */
  function InGroup(js: seq<Joined>, c: Category): (r: seq<Joined>)
    ensures forall j :: j in r <==> j in js && j.category == c
  {
    if js == [] then []
    else
      var last := js[|js| - 1];
      InGroup(js[..|js| - 1], c) + (if last.category == c then [last] else [])
  }

  /** The `$match` stage: the user's expenses dated on or after the first day of the
      month three months back. There is no upper bound. */
  function RecentQuery(owner: UserId, k: int): Query {
    Query(Some(owner), None, Some(k - 3), None)
  }

  /** `date >= currentMonthStart`. */
  function ThisMonthQuery(k: int): Query {
    Query(None, None, Some(k), None)
  }

  /** `lastMonthStart <= date < lastMonthEnd`. */
  function LastMonthQuery(k: int): Query {
    Query(None, None, Some(k - 1), Some(k))
  }

  /** `date < currentMonthStart`. */
  function BeforeThisMonthQuery(k: int): Query {
    Query(None, None, None, Some(k))
  }

  /** The `monthlyTotals` facet with its fallback: a `$group` over no documents
      produces nothing, and the controller then uses zeros. */
  function MonthlyTotals(js: seq<Joined>, k: int): (r: (int, int))
    ensures r == (Spent(ExpensesOf(js), ThisMonthQuery(k)), Spent(ExpensesOf(js), LastMonthQuery(k)))
  {
    if js == [] then (0, 0)
    else (Spent(ExpensesOf(js), ThisMonthQuery(k)), Spent(ExpensesOf(js), LastMonthQuery(k)))
  }

  /** The `_id` values of `$group: { _id: '$category' }`, in order of first appearance. */
  function Groups(js: seq<Joined>): (r: seq<Category>)
    ensures forall c :: c in r <==> exists j :: j in js && j.category == c
    ensures forall a, b :: 0 <= a < b < |r| ==> r[a] != r[b]
  {
    if js == [] then []
    else
      var init := Groups(js[..|js| - 1]);
      var last := js[|js| - 1];
      assert js == js[..|js| - 1] + [last];
      if last.category in init then init else init + [last.category]
  }

  /** One `categoryAnalysis` document before `$project`: this month's spending and the
      total of the months before it. `averageSpending` is `previous / 3`. */
  datatype CategoryStat = CategoryStat(category: Category, current: int, previous: int)

  function StatOf(js: seq<Joined>, c: Category, k: int): CategoryStat {
    var mine := ExpensesOf(InGroup(js, c));
    CategoryStat(c, Spent(mine, ThisMonthQuery(k)), Spent(mine, BeforeThisMonthQuery(k)))
  }

  function Stats(js: seq<Joined>, k: int): seq<CategoryStat> {
    var groups := Groups(js);
    seq(|groups|, i requires 0 <= i < |groups| => StatOf(js, groups[i], k))
  }

  datatype Anomaly = Anomaly(category: string, color: string, percentageIncrease: int)
  datatype Recommendation = Recommendation(category: string, color: string, suggestedBudget: int)
  datatype SpendingReport = SpendingReport(currentMonthTotal: int, lastMonthTotal: int,
                                           anomalies: seq<Anomaly>,
                                           recommendations: seq<Recommendation>)

  /** `$divide: ['$previous3MonthTotal', 3]`. */
  function Average(previous: int): real {
    previous as real / 3.0
  }

  function PercentageIncrease(current: int, average: real): real
    requires average > 0.0
  {
    ((current as real - average) / average) * 100.0
  }

  /** `Math.round`: halves go up. */
  function Round(x: real): int {
    (x + 0.5).Floor
  }

  /** `Math.ceil`. */
  function Ceil(x: real): int {
    -((-x).Floor)
  }

  /** The anomaly rule for one category: spending this month and an average to compare
      with, and an increase over the average of more than 150 percent. */
  function AnomalyOf(s: CategoryStat): Option<Anomaly> {
    var average := Average(s.previous);
    if s.current > 0 && average > 0.0 then
      var increase := PercentageIncrease(s.current, average);
      if increase > 150.0 then Some(Anomaly(s.category.name, s.category.color, Round(increase)))
      else None
    else None
  }

  /** The recommendation rule: a positive average, rounded up to a multiple of 100. */
  function RecommendationOf(s: CategoryStat): Option<Recommendation> {
    var average := Average(s.previous);
    if average > 0.0 then
      Some(Recommendation(s.category.name, s.category.color, Ceil(average / 100.0) * 100))
    else None
  }

  /** The anomalies pushed for `stats`, in order. */
  function AnomaliesOf(stats: seq<CategoryStat>): (r: seq<Anomaly>)
    ensures |r| <= |stats|
    ensures forall a :: a in r <==> exists s :: s in stats && AnomalyOf(s) == Some(a)
  {
    if stats == [] then []
    else
      var last := stats[|stats| - 1];
      assert stats == stats[..|stats| - 1] + [last];
      AnomaliesOf(stats[..|stats| - 1]) + (if AnomalyOf(last).Some? then [AnomalyOf(last).value] else [])
  }

  /** The recommendations pushed for `stats`, in order. */
  function RecommendationsOf(stats: seq<CategoryStat>): (r: seq<Recommendation>)
    ensures |r| <= |stats|
    ensures forall a :: a in r <==> exists s :: s in stats && RecommendationOf(s) == Some(a)
  {
    if stats == [] then []
    else
      var last := stats[|stats| - 1];
      assert stats == stats[..|stats| - 1] + [last];
      RecommendationsOf(stats[..|stats| - 1])
        + (if RecommendationOf(last).Some? then [RecommendationOf(last).value] else [])
  }

  /** One more category analysed pushes its own anomaly and recommendation, if any. */
  lemma ReportStep(stats: seq<CategoryStat>, i: int)
    requires 0 <= i < |stats|
    ensures AnomaliesOf(stats[..i + 1]) == AnomaliesOf(stats[..i])
      + (if AnomalyOf(stats[i]).Some? then [AnomalyOf(stats[i]).value] else [])
    ensures RecommendationsOf(stats[..i + 1]) == RecommendationsOf(stats[..i])
      + (if RecommendationOf(stats[i]).Some? then [RecommendationOf(stats[i]).value] else [])
  {
    assert stats[..i + 1][..i] == stats[..i];
  }

  /** The `forEach` callback for one category: push its anomaly, then its
      recommendation, when the rules give one. */
  method Analyse(anomalies: seq<Anomaly>, recommendations: seq<Recommendation>, s: CategoryStat)
    returns (anomalies': seq<Anomaly>, recommendations': seq<Recommendation>)
    ensures anomalies' == anomalies + (if AnomalyOf(s).Some? then [AnomalyOf(s).value] else [])
    ensures recommendations'
      == recommendations + (if RecommendationOf(s).Some? then [RecommendationOf(s).value] else [])
  {
    anomalies', recommendations' := anomalies, recommendations;
    var average := Average(s.previous);
    if s.current > 0 && average > 0.0 {
      var increase := PercentageIncrease(s.current, average);
      if increase > 150.0 {
        anomalies' := anomalies' + [Anomaly(s.category.name, s.category.color, Round(increase))];
      }
    }
    if average > 0.0 {
      recommendations' := recommendations'
        + [Recommendation(s.category.name, s.category.color, Ceil(average / 100.0) * 100)];
    }
  }

  /** The `forEach` over the category analysis that fills the response. */
  method BuildReport(currentMonthTotal: int, lastMonthTotal: int, stats: seq<CategoryStat>)
    returns (r: SpendingReport)
    ensures r == SpendingReport(currentMonthTotal, lastMonthTotal,
                                AnomaliesOf(stats), RecommendationsOf(stats))
  {
    var anomalies: seq<Anomaly> := [];
    var recommendations: seq<Recommendation> := [];
    for i := 0 to |stats|
      invariant anomalies == AnomaliesOf(stats[..i])
      invariant recommendations == RecommendationsOf(stats[..i])
    {
      ReportStep(stats, i);
      anomalies, recommendations := Analyse(anomalies, recommendations, stats[i]);
    }
    assert stats[..|stats|] == stats;
    r := SpendingReport(currentMonthTotal, lastMonthTotal, anomalies, recommendations);
  }

  /** The whole pipeline for user `owner` in month `k`, joining on `field`. */
  function SpendingInsights(es: seq<Expense>, cats: seq<Category>, owner: UserId, k: int,
                            field: JoinField): SpendingReport {
    var js := Join(Find(es, RecentQuery(owner, k)), cats, field);
    var totals := MonthlyTotals(js, k);
    var stats := Stats(js, k);
    SpendingReport(totals.0, totals.1, AnomaliesOf(stats), RecommendationsOf(stats))
  }

  /** `getSpendingInsights`, joining categories on `_id`. */
  method GetSpendingInsights(es: seq<Expense>, cats: seq<Category>, owner: UserId, k: int)
    returns (r: SpendingReport)
    ensures r == SpendingInsights(es, cats, owner, k, ObjectIdField)
  {
    var js := Join(Find(es, RecentQuery(owner, k)), cats, ObjectIdField);
    var totals := MonthlyTotals(js, k);
    r := BuildReport(totals.0, totals.1, Stats(js, k));
  }

  // ----- arithmetic of the two rules -----

  /** The floor of an exact quotient is the integer quotient. */
  lemma FloorOfQuotient(a: int, b: int)
    requires b > 0
    ensures (a as real / b as real).Floor == a / b
  {
    QuotientBounds(a, b);
    FloorBetween(a as real / b as real, a / b);
  }

  /** The exact quotient lies between the integer quotient and the next integer. */
  lemma QuotientBounds(a: int, b: int)
    requires b > 0
    ensures (a / b) as real <= a as real / b as real < (a / b + 1) as real
  {
    var q := a / b;
    var x := a as real / b as real;
    var br := b as real;
    assert x * br == a as real;
    assert q * b <= a < (q + 1) * b;
    CastProduct(q, b);
    CastProduct(q + 1, b);
    ScaledLeft(q as real, x, br);
    ScaledLeft(x, (q + 1) as real, br);
  }

  lemma CastProduct(p: int, b: int)
    ensures (p * b) as real == p as real * b as real
  {
  }

  /** A real between q and q + 1 has floor q. */
  lemma FloorBetween(x: real, q: int)
    requires q as real <= x < (q + 1) as real
    ensures x.Floor == q
  {
  }

  /** Dividing both sides by a positive factor keeps the order. */
  lemma ScaledLeft(x: real, y: real, b: real)
    requires b > 0.0
    ensures x * b <= y * b ==> x <= y
    ensures x * b < y * b ==> x < y
  {
    if x > y {
      assert (x - y) * b > 0.0;
    }
    if x == y {
      assert x * b == y * b;
    }
  }

  lemma QuotientAbove(n: real, p: real, t: real)
    requires p > 0.0
    ensures n / p > t <==> n > t * p
  {
    var x := n / p;
    assert x * p == n;
    if x > t {
      assert (x - t) * p > 0.0;
    }
    if n > t * p {
      assert (x - t) * p > 0.0;
    }
  }

  lemma CancelFactor(u: real, v: real, c: real)
    requires c > 0.0 && u * c == v * c
    ensures u == v
  {
    assert (u - v) * c == 0.0;
  }

  /** The increase over the average, with no division by a fraction. */
  lemma IncreaseForm(current: int, previous: int)
    requires previous > 0
    ensures PercentageIncrease(current, Average(previous))
            == (100 * (3 * current - previous)) as real / previous as real
  {
  }

  /** A category is flagged exactly when it has spending this month, spending before
      it, and this month is more than 5/6 of the three-month total (an increase over
      the average of more than 150 percent). */
  lemma AnomalyCondition(s: CategoryStat)
    ensures AnomalyOf(s).Some? <==> s.current > 0 && s.previous > 0 && 6 * s.current > 5 * s.previous
  {
    if s.current > 0 && s.previous > 0 {
      IncreaseForm(s.current, s.previous);
      var p := s.previous as real;
      var n := (100 * (3 * s.current - s.previous)) as real;
      QuotientAbove(n, p, 150.0);
    }
  }

  /** The reported increase is the rounded percentage, in integer arithmetic, and is
      at least 150 (an increase just over 150 percent rounds to 150). */
  lemma AnomalyPercentage(s: CategoryStat)
    requires AnomalyOf(s).Some?
    ensures var P := s.previous;
      && P > 0
      && AnomalyOf(s).value.percentageIncrease == (200 * (3 * s.current - P) + P) / (2 * P)
      && AnomalyOf(s).value.percentageIncrease >= 150
      && AnomalyOf(s).value.category == s.category.name
  {
    AnomalyCondition(s);
    var c, P := s.current, s.previous;
    IncreaseForm(c, P);
    var a := 200 * (3 * c - P) + P;
    var x := (100 * (3 * c - P)) as real / P as real;
    var y := a as real / (2 * P) as real;
    assert x * P as real == (100 * (3 * c - P)) as real;
    assert y * (2 * P) as real == a as real;
    assert (x + 0.5) * (2 * P) as real == a as real;
    CancelFactor(x + 0.5, y, (2 * P) as real);
    FloorOfQuotient(a, 2 * P);
    assert a >= 300 * P;
  }

  /** `Math.ceil(P / 3 / 100) * 100` is the least multiple of 100 that is at least the
      average `P / 3`. */
  lemma SuggestedBudget(s: CategoryStat)
    ensures RecommendationOf(s).Some? <==> s.previous > 0
    ensures RecommendationOf(s).Some? ==>
      var P, b := s.previous, RecommendationOf(s).value.suggestedBudget;
      && b == (P + 299) / 300 * 100
      && b % 100 == 0
      && 3 * b >= P
      && 3 * b < P + 300
      && RecommendationOf(s).value.category == s.category.name
  {
    var P := s.previous;
    if P > 0 {
      assert -(Average(P) / 100.0) == (-P) as real / 300 as real;
      FloorOfQuotient(-P, 300);
      var q := (P + 299) / 300;
      assert 300 * q <= P + 299 < 300 * q + 300;
      assert (-P) / 300 == -q;
    }
  }

  /** Every flagged category also gets a recommendation. */
  lemma AnomalyHasRecommendation(stats: seq<CategoryStat>, a: Anomaly)
    requires a in AnomaliesOf(stats)
    ensures exists r :: r in RecommendationsOf(stats) && r.category == a.category
  {
    var s :| s in stats && AnomalyOf(s) == Some(a);
    AnomalyCondition(s);
    SuggestedBudget(s);
    assert RecommendationOf(s).value in RecommendationsOf(stats);
  }

  // ----- the join -----

  /** With the join as written (on a plain `id` field that category documents do not
      hold), every expense is dropped: both totals are 0 and there are no anomalies
      and no recommendations, whatever is stored. */
  lemma AsWrittenJoinFindsNothing(es: seq<Expense>, cats: seq<Category>, owner: UserId, k: int)
    ensures SpendingInsights(es, cats, owner, k, PlainIdField) == SpendingReport(0, 0, [], [])
  {
    var js := Join(Find(es, RecentQuery(owner, k)), cats, PlainIdField);
  }

  /** Exactly one stored category has `_id` equal to `id`. */
  predicate ResolvesOnce(cats: seq<Category>, id: CategoryId) {
    |Matching(cats, ObjectIdField, id)| == 1
  }

  /** Each of the expenses has exactly one category with its `_id`. */
  predicate CategoriesResolve(es: seq<Expense>, cats: seq<Category>) {
    forall e :: e in es ==> ResolvesOnce(cats, e.category)
  }

  /** When every category reference resolves, the join on `_id` keeps every expense once. */
  lemma {:induction false} JoinKeepsExpenses(es: seq<Expense>, cats: seq<Category>)
    requires CategoriesResolve(es, cats)
    ensures ExpensesOf(Join(es, cats, ObjectIdField)) == es
  {
    if es != [] {
      var init, e := es[..|es| - 1], es[|es| - 1];
      assert es == init + [e];
      JoinKeepsExpenses(init, cats);
      var m := Matching(cats, ObjectIdField, e.category);
      assert |m| == 1;
      assert Pair(e, m) == [Joined(e, m[0])];
      ExpensesAppend(Join(init, cats, ObjectIdField), Pair(e, m));
    }
  }

  lemma ExpensesAppend(a: seq<Joined>, b: seq<Joined>)
    ensures ExpensesOf(a + b) == ExpensesOf(a) + ExpensesOf(b)
  {
    assert |ExpensesOf(a + b)| == |ExpensesOf(a) + ExpensesOf(b)|;
    forall i | 0 <= i < |a + b|
      ensures ExpensesOf(a + b)[i] == (ExpensesOf(a) + ExpensesOf(b))[i]
    {
    }
  }

  /** The `$match` window and this month's window together: the user's dates from
      this month on. */
  predicate InThisMonth(owner: UserId, k: int, e: Expense) {
    Matches(RecentQuery(owner, k), e) && Matches(ThisMonthQuery(k), e)
  }

  /** The `$match` window and last month's window together. */
  predicate InLastMonth(owner: UserId, k: int, e: Expense) {
    Matches(RecentQuery(owner, k), e) && Matches(LastMonthQuery(k), e)
  }

  /** The date conditions of the pipeline, for real dates. */
  lemma RecentWindows(es: seq<Expense>, owner: UserId, k: int)
    requires ValidDates(es)
    ensures forall e :: e in es ==>
      (InThisMonth(owner, k, e) <==> Matches(Query(Some(owner), None, Some(k), None), e))
    ensures forall e :: e in es ==>
      (InLastMonth(owner, k, e) <==> Matches(Query(Some(owner), None, Some(k - 1), Some(k)), e))
  {
    forall e | e in es
      ensures InThisMonth(owner, k, e) <==> Matches(Query(Some(owner), None, Some(k), None), e)
      ensures InLastMonth(owner, k, e) <==> Matches(Query(Some(owner), None, Some(k - 1), Some(k)), e)
    {
      var i :| 0 <= i < |es| && es[i] == e;
      MonthStartOrder(e.date, k - 3);
      MonthStartOrder(e.date, k - 1);
      MonthStartOrder(e.date, k);
    }
  }

  /** Joining on `_id` with every category resolving, the two totals are the user's
      ledger sums for this month (and any later date) and for last month. */
  lemma CorrectedTotals(es: seq<Expense>, cats: seq<Category>, owner: UserId, k: int)
    requires ValidDates(es) && CategoriesResolve(es, cats)
    ensures var r := SpendingInsights(es, cats, owner, k, ObjectIdField);
      && r.currentMonthTotal == Spent(es, Query(Some(owner), None, Some(k), None))
      && r.lastMonthTotal == Spent(es, Query(Some(owner), None, Some(k - 1), Some(k)))
  {
    var recent := Find(es, RecentQuery(owner, k));
    JoinKeepsExpenses(recent, cats);
    RecentWindows(es, owner, k);
    FindNarrow(es, RecentQuery(owner, k), ThisMonthQuery(k), Query(Some(owner), None, Some(k), None));
    FindNarrow(es, RecentQuery(owner, k), LastMonthQuery(k),
               Query(Some(owner), None, Some(k - 1), Some(k)));
  }

  lemma {:induction false} InGroupAppend(a: seq<Joined>, b: seq<Joined>, c: Category)
    ensures InGroup(a + b, c) == InGroup(a, c) + InGroup(b, c)
  {
    if b != [] {
      assert (a + b)[..|a + b| - 1] == a + b[..|b| - 1];
      InGroupAppend(a, b[..|b| - 1], c);
    } else {
      assert a + b == a;
    }
  }

  /** One expense joined on `_id` lands in the group of `c` iff it references `c`;
      the expense's own category need not exist. */
  lemma GroupOfOne(e: Expense, cats: seq<Category>, c: Category)
    requires c in cats && ResolvesOnce(cats, c.id)
    ensures ExpensesOf(InGroup(Pair(e, Matching(cats, ObjectIdField, e.category)), c))
            == Find([e], Query(None, Some(c.id), None, None))
  {
    var m := Matching(cats, ObjectIdField, e.category);
    assert [e][..0] == [];
    if e.category == c.id {
      assert c in m;
      assert Pair(e, m) == [Joined(e, c)];
      assert [Joined(e, c)][..0] == [];
    } else {
      assert c !in m;
      InGroupEmpty(Pair(e, m), c);
    }
  }

  /** No document of another category is in the group of `c`. */
  lemma {:induction false} InGroupEmpty(js: seq<Joined>, c: Category)
    requires forall j :: j in js ==> j.category != c
    ensures InGroup(js, c) == []
  {
    if js != [] {
      assert js[|js| - 1] in js;
      assert forall j :: j in js[..|js| - 1] ==> j in js;
      InGroupEmpty(js[..|js| - 1], c);
    }
  }

  /** When a stored category's `_id` is held by it alone, its group holds exactly the
      expenses that reference it, in order, whatever the other expenses reference. */
  lemma {:induction false} GroupIsCategory(es: seq<Expense>, cats: seq<Category>, c: Category)
    requires c in cats && ResolvesOnce(cats, c.id)
    ensures ExpensesOf(InGroup(Join(es, cats, ObjectIdField), c)) == Find(es, Query(None, Some(c.id), None, None))
  {
    if es != [] {
      var init, e := es[..|es| - 1], es[|es| - 1];
      assert es == init + [e];
      GroupIsCategory(init, cats, c);
      var pair := Pair(e, Matching(cats, ObjectIdField, e.category));
      assert Join(es, cats, ObjectIdField) == Join(init, cats, ObjectIdField) + pair;
      GroupOfOne(e, cats, c);
      InGroupAppend(Join(init, cats, ObjectIdField), pair, c);
      ExpensesAppend(InGroup(Join(init, cats, ObjectIdField), c), InGroup(pair, c));
      FindAppend(init, [e], Query(None, Some(c.id), None, None));
    }
  }

  /** Joining on `_id`, the figures of a stored category whose `_id` no other category
      holds are the user's ledger sums for it: this month (and any later date), and
      the three whole months before this one, which is the sum of those three month
      sums. Expenses of deleted categories may be in the ledger. */
  lemma CorrectedCategoryStats(es: seq<Expense>, cats: seq<Category>, owner: UserId, k: int, c: Category)
    requires ValidDates(es) && c in cats && ResolvesOnce(cats, c.id)
    ensures var s := StatOf(Join(Find(es, RecentQuery(owner, k)), cats, ObjectIdField), c, k);
      && s.current == Spent(es, Query(Some(owner), Some(c.id), Some(k), None))
      && s.previous == Spent(es, Query(Some(owner), Some(c.id), Some(k - 3), Some(k)))
      && s.previous == Spent(es, MonthQuery(owner, c.id, k - 3))
                       + Spent(es, MonthQuery(owner, c.id, k - 2))
                       + Spent(es, MonthQuery(owner, c.id, k - 1))
  {
    var mine := Query(Some(owner), Some(c.id), Some(k - 3), None);
    CategoryGroup(es, cats, owner, k, c);
    MineThisMonth(es, owner, c.id, k);
    MineBeforeThisMonth(es, owner, c.id, k);
    ThreeMonthTotal(es, Query(Some(owner), Some(c.id), Some(k - 3), Some(k)), k);
  }

  /** The category's group among the user's recent joined expenses is the user's
      expenses of the category from month k - 3 on. */
  lemma CategoryGroup(es: seq<Expense>, cats: seq<Category>, owner: UserId, k: int, c: Category)
    requires c in cats && ResolvesOnce(cats, c.id)
    ensures ExpensesOf(InGroup(Join(Find(es, RecentQuery(owner, k)), cats, ObjectIdField), c))
            == Find(es, Query(Some(owner), Some(c.id), Some(k - 3), None))
  {
    var recent := Find(es, RecentQuery(owner, k));
    GroupIsCategory(recent, cats, c);
    FindNarrow(es, RecentQuery(owner, k), Query(None, Some(c.id), None, None),
               Query(Some(owner), Some(c.id), Some(k - 3), None));
  }

  /** Of the user's category expenses from month k - 3 on, those dated this month or
      later are the user's category expenses from month k on. */
  lemma MineThisMonth(es: seq<Expense>, owner: UserId, category: CategoryId, k: int)
    requires ValidDates(es)
    ensures Spent(Find(es, Query(Some(owner), Some(category), Some(k - 3), None)), ThisMonthQuery(k))
            == Spent(es, Query(Some(owner), Some(category), Some(k), None))
  {
    var mine := Query(Some(owner), Some(category), Some(k - 3), None);
    var both := Query(Some(owner), Some(category), Some(k), None);
    forall e | e in es
      ensures Matches(mine, e) && Matches(ThisMonthQuery(k), e) <==> Matches(both, e)
    {
      var i :| 0 <= i < |es| && es[i] == e;
      MonthStartOrder(e.date, k - 3);
      MonthStartOrder(e.date, k);
    }
    FindNarrow(es, mine, ThisMonthQuery(k), both);
  }

  /** Of the same expenses, those dated before this month are the user's category
      expenses of the three months before it. */
  lemma MineBeforeThisMonth(es: seq<Expense>, owner: UserId, category: CategoryId, k: int)
    ensures Spent(Find(es, Query(Some(owner), Some(category), Some(k - 3), None)), BeforeThisMonthQuery(k))
            == Spent(es, Query(Some(owner), Some(category), Some(k - 3), Some(k)))
  {
    FindNarrow(es, Query(Some(owner), Some(category), Some(k - 3), None), BeforeThisMonthQuery(k),
               Query(Some(owner), Some(category), Some(k - 3), Some(k)));
  }

  /** One expense of the user, dated in month `k`, is this month's total on its own. */
  lemma OneExpenseThisMonth(e: Expense, k: int)
    requires ValidDate(e.date) && MonthIndex(e.date) == k
    ensures Spent([e], Query(Some(e.owner), None, Some(k), None)) == e.amount
  {
    MonthStartOrder(e.date, k);
    SpentAppendOne([], e, Query(Some(e.owner), None, Some(k), None));
    assert [] + [e] == [e];
  }

  /** A concrete case of the join: one expense of 500 this month in an existing
      category. Joined on `_id` it is this month's total; joined as written it is lost. */
  lemma JoinDiscrepancy()
    ensures var c := Category(7, "Food", "#3B82F6", 1);
      var e := Expense(7, 500, Date(2025, 11, 15), None, 1);
      && SpendingInsights([e], [c], 1, 24310, ObjectIdField).currentMonthTotal == 500
      && SpendingInsights([e], [c], 1, 24310, PlainIdField).currentMonthTotal == 0
  {
    var c := Category(7, "Food", "#3B82F6", 1);
    var e := Expense(7, 500, Date(2025, 11, 15), None, 1);
    assert ValidDate(e.date);
    assert MonthIndex(e.date) == 24310;
    assert Matching([c], ObjectIdField, 7) == [c];
    CorrectedTotals([e], [c], 1, 24310);
    OneExpenseThisMonth(e, 24310);
    AsWrittenJoinFindsNothing([e], [c], 1, 24310);
  }
}
