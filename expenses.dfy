/**
 * The expense controller: ingesting one expense (`addExpense`) and listing a
 * month of expenses (`getExpensesByMonth`).
 */
module Expenses {
  import opened Wrappers
  import opened Text
  import opened Calendar
  import opened Models
  import opened Ledger
  import opened Budgets

  /** The body of a POST /expenses request. `date` is None when it is missing, `null`,
      or a value without a `slice` method (a number, a boolean, a plain object).
      `subItemName` may be sent; the controller never reads it. */
  datatype ExpenseRequest = ExpenseRequest(category: CategoryId, amount: int, date: Option<string>,
                                           subItemName: Option<string>)

  /** The response: the saved expense, the month's spend for its category, the limit
      used, the `over` flag and the category's display name. */
  datatype AddExpenseResponse = AddExpenseResponse(expense: Expense, over: bool, spent: int,
                                                   limit: int, categoryName: string)

  /** The expenses collection after the save, and the response. */
  datatype Ingested = Ingested(ledger: seq<Expense>, response: AddExpenseResponse)

  const PlaceholderName: string := "Selected Category"

  /** A request whose `date` is text the schema's setter turns into a real date. */
  predicate Dated(req: ExpenseRequest) {
    req.date.Some? && ParseDate(req.date.value).Some?
  }

  /** `budget?.limit || 0`: the limit of the budget with that key, or 0 without one. */
  function LimitFor(budgets: seq<Budget>, owner: UserId, category: CategoryId, month: string)
    : (limit: int)
    ensures FindBudget(budgets, owner, category, month).None? ==> limit == 0
    ensures UniqueKeys(budgets) ==>
      forall i :: 0 <= i < |budgets| && HasKey(budgets[i], owner, category, month) ==>
        limit == budgets[i].limit
  {
    match FindBudget(budgets, owner, category, month)
    case Some(i) => budgets[i].limit
    case None => 0
  }

  /** `Category.findById(id)`: the category with that `_id`, whoever owns it. */
  function FindCategory(categories: seq<Category>, id: CategoryId): (r: Option<Category>)
    ensures r.Some? ==> r.value in categories && r.value.id == id
    ensures r.None? ==> forall c :: c in categories ==> c.id != id
  {
    if categories == [] then None
    else if categories[0].id == id then Some(categories[0])
    else FindCategory(categories[1..], id)
  }

  /** The category's name, or the placeholder when the lookup finds nothing. */
  function CategoryName(categories: seq<Category>, id: CategoryId): (name: string)
    ensures (forall c :: c in categories ==> c.id != id) ==> name == PlaceholderName
    ensures (exists c :: c in categories && c.id == id) ==>
              exists c :: c in categories && c.id == id && name == c.name
  {
    match FindCategory(categories, id)
    case Some(c) => c.name
    case None => PlaceholderName
  }

  /** `new Date(month + '-01')` for the month key of an accepted date text: the first
      day of the date's own month. */
  function MonthStartOf(date: string): (start: Date)
    requires ParseDate(date).Some?
    ensures ParseDate(MonthKey(date) + "-01") == Some(start)
    ensures start == Date(ParseDate(date).value.year, ParseDate(date).value.month, 1)
  {
    MonthKeyOfDate(date);
    ParseDate(MonthKey(date) + "-01").value
  }

  /** The `$match` and `$sum` of `addExpense`: the owner's spend in the category from
      `new Date(month + '-01')` up to the first day of the next month, which is the
      spend in the calendar month of the date. */
  function MonthSpent(es: seq<Expense>, owner: UserId, category: CategoryId, date: string)
    : (spent: int)
    requires ParseDate(date).Some?
    ensures spent == Spent(es, MonthQuery(owner, category, MonthIndex(ParseDate(date).value)))
  {
    var start := MonthStartOf(date);
    Spent(es, MonthQuery(owner, category, MonthIndex(start)))
  }

  /** `addExpense` once the date text is there: save the expense (amount as given,
      date through the schema's setter, no sub-item label), then look up the budget
      by the month key, sum the category's spend for that month over the collection
      as it is after the save, and compare. */
  function IngestText(ledger: seq<Expense>, budgets: seq<Budget>, categories: seq<Category>,
                      owner: UserId, category: CategoryId, amount: int, date: string)
    : (r: Result<Ingested, Error>)
    ensures r.Success? <==> ParseDate(date).Some?
    ensures r.Failure? ==> r.error == ServerError
    ensures r.Success? ==> r.value.ledger == ledger + [r.value.response.expense]
    ensures r.Success? ==> r.value.response.expense
                           == Expense(category, amount, ParseDate(date).value, None, owner)
    ensures r.Success? ==> r.value.response.limit == LimitFor(budgets, owner, category, MonthKey(date))
    ensures r.Success? ==> (r.value.response.over
                           <==> OverLimit(r.value.response.limit, r.value.response.spent))
    ensures r.Success? ==> r.value.response.categoryName == CategoryName(categories, category)
    ensures r.Success? ==>
      r.value.response.spent
        == Spent(r.value.ledger, MonthQuery(owner, category, MonthIndex(ParseDate(date).value)))
  {
    var month := MonthKey(date);
    var saved := MakeExpense(owner, category, amount, DateText(date), None);
    if saved.None? then Failure(ServerError)
    else
      var e := saved.value;
      var after := ledger + [e];
      var spent := MonthSpent(after, owner, category, date);
      var limit := LimitFor(budgets, owner, category, month);
      Success(Ingested(after, AddExpenseResponse(e, OverLimit(limit, spent), spent, limit,
                                                 CategoryName(categories, category))))
  }

  /** `addExpense`: `date.slice(0, 7)` runs before the `try`, so a request whose date
      is missing, `null` or has no `slice` method throws and gets no response;
      otherwise the request is ingested. */
  function Ingest(ledger: seq<Expense>, budgets: seq<Budget>, categories: seq<Category>,
                  owner: UserId, req: ExpenseRequest): (r: Result<Ingested, Error>)
    ensures r.Success? <==> Dated(req)
    ensures r.Failure? ==> r.error == if req.date.None? then NoResponse else ServerError
    ensures r.Success? ==> r.value.ledger == ledger + [r.value.response.expense]
    ensures r.Success? ==> r.value.response.expense
                           == Expense(req.category, req.amount, ParseDate(req.date.value).value, None, owner)
    ensures r.Success? ==> r.value.response.limit
                           == LimitFor(budgets, owner, req.category, MonthKey(req.date.value))
    ensures r.Success? ==> (r.value.response.over
                           <==> OverLimit(r.value.response.limit, r.value.response.spent))
    ensures r.Success? ==> r.value.response.categoryName == CategoryName(categories, req.category)
    ensures r.Success? ==>
      r.value.response.spent
        == Spent(r.value.ledger, MonthQuery(owner, req.category, MonthIndex(ParseDate(req.date.value).value)))
  {
    if req.date.None? then Failure(NoResponse)
    else IngestText(ledger, budgets, categories, owner, req.category, req.amount, req.date.value)
  }

  /** The month key is the first seven characters of the submitted date and names the
      date's own year and month. */
  lemma IngestMonthKey(req: ExpenseRequest)
    requires Dated(req)
    ensures var d := ParseDate(req.date.value).value;
      MonthKey(req.date.value) == req.date.value[..7] == FormatMonth(d.year, d.month)
  {
    MonthKeyOfDate(req.date.value);
  }

  /** The reported spend is the spend of the owner in the category in the expense's
      calendar month over the collection after the save, and that is the spend before
      the save plus the new amount: the save precedes the sum. */
  lemma IngestSpent(ledger: seq<Expense>, budgets: seq<Budget>, categories: seq<Category>,
                    owner: UserId, req: ExpenseRequest)
    requires Ingest(ledger, budgets, categories, owner, req).Success?
    ensures var r := Ingest(ledger, budgets, categories, owner, req).value;
            var k := MonthIndex(ParseDate(req.date.value).value);
      && r.response.spent == Spent(r.ledger, MonthQuery(owner, req.category, k))
      && r.response.spent == Spent(ledger, MonthQuery(owner, req.category, k)) + req.amount
  {
    var r := Ingest(ledger, budgets, categories, owner, req).value;
    var d := ParseDate(req.date.value).value;
    var q := MonthQuery(owner, req.category, MonthIndex(d));
    var e := r.response.expense;
    assert r.ledger == ledger + [e] && e.date == d && e.owner == owner && e.category == req.category;
    SpentAppendOne(ledger, e, q);
    MonthStartOrder(d, MonthIndex(d));
    MonthStartOrder(d, MonthIndex(d) + 1);
  }

  /** With no budget for (owner, category, month) the limit is 0 and `over` is false,
      however much was spent. */
  lemma NoBudgetNeverOver(ledger: seq<Expense>, budgets: seq<Budget>, categories: seq<Category>,
                          owner: UserId, req: ExpenseRequest)
    requires Ingest(ledger, budgets, categories, owner, req).Success?
    requires FindBudget(budgets, owner, req.category, MonthKey(req.date.value)).None?
    ensures var r := Ingest(ledger, budgets, categories, owner, req).value;
      r.response.limit == 0 && !r.response.over
  {
  }

  /** The month window holds exactly the owner's expenses in the category dated in
      that calendar month. */
  lemma MonthWindowMembers(ledger: seq<Expense>, owner: UserId, category: CategoryId, k: int)
    requires ValidDates(ledger)
    ensures forall e :: e in Find(ledger, MonthQuery(owner, category, k)) <==>
      e in ledger && e.owner == owner && e.category == category && MonthIndex(e.date) == k
  {
    forall e | e in ledger
      ensures Matches(MonthQuery(owner, category, k), e) <==>
              e.owner == owner && e.category == category && MonthIndex(e.date) == k
    {
      MatchesMonth(MonthQuery(owner, category, k), e, k);
    }
  }

  /** The worked example: with no budget, 500 on 2025-03-10 gives spent 500, limit 0,
      not over; after a limit of 400 is set for 2025-03, another 200 in that month gives
      spent 700, limit 400, over. */
  lemma WorkedExample(owner: UserId, food: Category)
    ensures var cats := [food];
            var first := ExpenseRequest(food.id, 500, Some("2025-03-10"), None);
            var second := ExpenseRequest(food.id, 200, Some("2025-03-10"), None);
            var r1 := Ingest([], [], cats, owner, first);
            var b := Upsert([], owner, BudgetRequest(food.id, "2025-03", 400, None));
      && r1.Success? && b.Success?
      && var r2 := Ingest(r1.value.ledger, b.value.budgets, cats, owner, second);
      && r1.value.response.spent == 500 && r1.value.response.limit == 0 && !r1.value.response.over
      && r2.Success?
      && r2.value.response.spent == 700 && r2.value.response.limit == 400 && r2.value.response.over
  {
    var cats := [food];
    var first := ExpenseRequest(food.id, 500, Some("2025-03-10"), None);
    var second := ExpenseRequest(food.id, 200, Some("2025-03-10"), None);
    ExampleDate();
    IngestSpent([], [], cats, owner, first);
    var r1 := Ingest([], [], cats, owner, first).value;
    ExampleBudget(owner, food.id);
    IngestSpent(r1.ledger, [Budget(food.id, "2025-03", 400, [], owner)], cats, owner, second);
  }

  /** The example's date text is a real date in the key "2025-03". */
  lemma ExampleDate()
    ensures ParseDate("2025-03-10") == Some(Date(2025, 3, 10))
    ensures MonthKey("2025-03-10") == "2025-03"
  {
    ExampleText();
    ParseFormatDate(Date(2025, 3, 10));
  }

  /** The example's date is written back as the same text. */
  lemma ExampleText()
    ensures FormatDate(Date(2025, 3, 10)) == "2025-03-10"
  {
    assert Pad(2025, 4) == "2025";
  }

  /** Setting a limit of 400 for 2025-03 on an empty collection stores that budget,
      which the expense's lookup then finds. */
  lemma ExampleBudget(owner: UserId, category: CategoryId)
    ensures var b := Budget(category, "2025-03", 400, [], owner);
      && Upsert([], owner, BudgetRequest(category, "2025-03", 400, None)) == Success(Upserted([b], b))
      && LimitFor([b], owner, category, "2025-03") == 400
  {
    var b := Budget(category, "2025-03", 400, [], owner);
    assert FindBudget([], owner, category, "2025-03").None?;
    assert MakeItems([]) == Some([]);
    assert [] + [b] == [b];
    assert HasKey([b][0], owner, category, "2025-03");
  }

  // ---------------------------------------------------------------------------
  // getExpensesByMonth

  /** `s.slice(from, to)` for non-negative bounds. */
  function Slice(s: string, from: nat, to: nat): (r: string)
    ensures |r| <= |s|
  {
    var a := if from < |s| then from else |s|;
    var b := if to < |s| then to else |s|;
    if b <= a then [] else s[a..b]
  }

  /** The longest prefix of digits. */
  function DigitPrefix(s: string): (r: string)
    ensures AllDigits(r) && |r| <= |s| && r == s[..|r|]
    ensures |r| == |s| || !IsDigit(s[|r|])
  {
    if s != [] && IsDigit(s[0]) then [s[0]] + DigitPrefix(s[1..]) else []
  }

  /** `parseInt(s)` in base ten: leading white space, an optional sign, then the longest
      run of digits; None (NaN) when there is no digit. */
  function ParseInt(s: string): Option<int> {
    var t := TrimStart(s);
    var negative := t != [] && t[0] == '-';
    var body := if t != [] && (t[0] == '-' || t[0] == '+') then t[1..] else t;
    var digits := DigitPrefix(body);
    var v: int := if digits == [] then 0 else NumberOf(digits);
    if digits == [] then None else Some(if negative then -v else v)
  }

  /** `parseInt` gives NaN exactly when no digit follows the leading white space and
      the optional sign, and a number of that sign otherwise. */
  lemma ParseIntNaN(s: string)
    ensures var t := TrimStart(s);
            var body := if t != [] && (t[0] == '-' || t[0] == '+') then t[1..] else t;
      && (ParseInt(s).None? <==> DigitPrefix(body) == [])
      && (ParseInt(s).Some? && t[0] != '-' ==> ParseInt(s).value >= 0)
      && (ParseInt(s).Some? && t[0] == '-' ==> ParseInt(s).value <= 0)
  {
  }

  /** `Date.UTC` reads the years 0 to 99 as 1900 to 1999. */
  function UtcYear(y: int): int {
    if 0 <= y <= 99 then 1900 + y else y
  }

  /** The year and month `getExpensesByMonth` reads from its query: `parseInt` of
      characters 0-4 and 5-7; None (a NaN) when either is not a number. */
  function MonthParts(month: string): (r: Option<(int, int)>)
    ensures r.None? <==> ParseInt(Slice(month, 0, 4)).None? || ParseInt(Slice(month, 5, 7)).None?
  {
    var y := ParseInt(Slice(month, 0, 4));
    var m := ParseInt(Slice(month, 5, 7));
    if y.None? || m.None? then None else Some((y.value, m.value))
  }

  /** The owner's expenses dated in `[Date.UTC(y, m - 1, 1), Date.UTC(y, m, 1))`. */
  function WindowQuery(owner: UserId, y: int, m: int): (q: Query)
    ensures q.owner == Some(owner) && q.category.None?
  {
    var k := UtcYear(y) * 12 + (m - 1);
    Query(Some(owner), None, Some(k), Some(k + 1))
  }

  /** `getExpensesByMonth`: the expenses of the month window, in collection order.
      A missing query, or one that does not read as two numbers, fails. */
  function ExpensesByMonth(ledger: seq<Expense>, owner: UserId, month: Option<string>)
    : (r: Result<seq<Expense>, Error>)
    ensures r.Failure? <==> month.None? || MonthParts(month.value).None?
    ensures r.Success? ==> forall e :: e in r.value ==> e in ledger && e.owner == owner
  {
    if month.None? then Failure(ServerError)
    else
      match MonthParts(month.value)
      case None => Failure(ServerError)
      case Some((y, m)) => Success(Find(ledger, WindowQuery(owner, y, m)))
  }

  /** `parseInt` reads a zero-padded number back. */
  lemma ParseIntPad(n: nat, w: nat)
    requires 0 < w && n < Pow10(w)
    ensures ParseInt(Pad(n, w)) == Some(n)
  {
    var s := Pad(n, w);
    TrimStartDigits(s);
    assert s[0] != '-' && s[0] != '+';
    DigitPrefixAllDigits(s);
    NumberOfPad(n, w);
  }

  /** Text that starts with a digit has no leading white space. */
  lemma TrimStartDigits(s: string)
    requires s != [] && IsDigit(s[0])
    ensures TrimStart(s) == s
  {
    assert !IsSpace(s[0]);
  }

  lemma {:induction false} DigitPrefixAllDigits(s: string)
    requires AllDigits(s)
    ensures DigitPrefix(s) == s
  {
    if s != [] { DigitPrefixAllDigits(s[1..]); }
  }

  /** The two `parseInt` calls read a well-formed key's year and month. */
  lemma ParseKeyParts(y: int, m: int)
    requires 0 <= y <= 9999 && 1 <= m <= 12
    ensures MonthParts(FormatMonth(y, m)) == Some((y, m))
  {
    KeySlices(y, m);
    Pow10Values();
    ParseIntPad(y, 4);
    ParseIntPad(m, 2);
  }

  /** The two slices `getExpensesByMonth` reads from a key are its padded fields. */
  lemma KeySlices(y: int, m: int)
    requires 0 <= y <= 9999 && 1 <= m <= 12
    ensures Slice(FormatMonth(y, m), 0, 4) == Pad(y, 4)
    ensures Slice(FormatMonth(y, m), 5, 7) == Pad(m, 2)
  {
    MonthFields(y, m);
  }

  /** The same, for any text that is a well-formed `YYYY-MM` key. */
  lemma KeyParts(key: string)
    requires ParseMonthKey(key).Some?
    ensures MonthParts(key) == ParseMonthKey(key)
  {
    FormatParseMonth(key);
    var (y, m) := ParseMonthKey(key).value;
    ParseKeyParts(y, m);
  }

  /** A listing is the expenses of the window its two numbers name. */
  lemma ListingWindow(ledger: seq<Expense>, owner: UserId, month: string, y: int, m: int)
    requires MonthParts(month) == Some((y, m))
    ensures ExpensesByMonth(ledger, owner, Some(month)) == Success(Find(ledger, WindowQuery(owner, y, m)))
  {
  }

  /** The window `Date.UTC` builds for a month m from 1 to 12 holds exactly the owner's
      expenses of month m of year `UtcYear(y)`; it ends on the first day of the next
      month, for December 1 January of the next year. */
  lemma WindowMembers(ledger: seq<Expense>, owner: UserId, y: int, m: int)
    requires ValidDates(ledger)
    requires 1 <= m <= 12
    ensures forall e :: e in Find(ledger, WindowQuery(owner, y, m)) <==>
      e in ledger && e.owner == owner && e.date.year == UtcYear(y) && e.date.month == m
    ensures WindowQuery(owner, y, m).before == Some(MonthIndex(
      if m == 12 then Date(UtcYear(y) + 1, 1, 1) else Date(UtcYear(y), m + 1, 1)))
  {
    var year := UtcYear(y);
    OwnerMonthMembers(ledger, owner, year * 12 + (m - 1));
    forall e | e in ledger
      ensures MonthIndex(e.date) == year * 12 + (m - 1) <==> e.date.year == year && e.date.month == m
    {
      MonthIndexOf(e.date, year, m);
    }
    var next := if m == 12 then Date(year + 1, 1, 1) else Date(year, m + 1, 1);
    assert MonthIndex(next) == year * 12 + (m - 1) + 1 by {
      if m == 12 {
        assert MonthIndex(next) == year * 12 + 12;
      }
    }
  }

  /** The owner's window of month `k` holds exactly the owner's expenses dated in it. */
  lemma OwnerMonthMembers(ledger: seq<Expense>, owner: UserId, k: int)
    requires ValidDates(ledger)
    ensures forall e :: e in Find(ledger, Query(Some(owner), None, Some(k), Some(k + 1))) <==>
      e in ledger && e.owner == owner && MonthIndex(e.date) == k
  {
    var q := Query(Some(owner), None, Some(k), Some(k + 1));
    forall e | e in ledger ensures Matches(q, e) <==> e.owner == owner && MonthIndex(e.date) == k {
      MatchesMonth(q, e, k);
    }
  }

  /** Month numbers name (year, month) pairs one to one. */
  lemma MonthIndexOf(d: Date, y: int, m: int)
    requires 1 <= d.month <= 12 && 1 <= m <= 12
    ensures MonthIndex(d) == y * 12 + (m - 1) <==> d.year == y && d.month == m
  {
  }

  /** The first day after month (y, m): for December, 1 January of the next year. */
  lemma NextMonthStart(y: int, m: int)
    requires 1 <= m <= 12
    ensures MonthStart(y * 12 + m) == if m == 12 then Date(y + 1, 1, 1) else Date(y, m + 1, 1)
  {
    var k := y * 12 + m;
    if m == 12 {
      assert k == (y + 1) * 12 + 0;
    } else {
      assert k == y * 12 + (m + 1 - 1);
    }
  }

  /** The listing for a well-formed key `YYYY-MM` is the owner's expenses dated in
      month m of year `UtcYear(y)`, in collection order; the window ends on the first
      day of the next month, for December 1 January of the next year. */
  lemma ExpensesByMonthOfKey(ledger: seq<Expense>, owner: UserId, key: string, y: int, m: int)
    requires ValidDates(ledger)
    requires ParseMonthKey(key) == Some((y, m))
    ensures ExpensesByMonth(ledger, owner, Some(key)) == Success(Find(ledger, WindowQuery(owner, y, m)))
    ensures forall e :: e in Find(ledger, WindowQuery(owner, y, m)) <==>
      e in ledger && e.owner == owner && e.date.year == UtcYear(y) && e.date.month == m
    ensures WindowQuery(owner, y, m).before == Some(MonthIndex(
      if m == 12 then Date(UtcYear(y) + 1, 1, 1) else Date(UtcYear(y), m + 1, 1)))
  {
    KeyParts(key);
    ListingWindow(ledger, owner, key, y, m);
    WindowMembers(ledger, owner, y, m);
  }

  /** A key whose year is below 100 lists that month of the year 1900 + year. */
  lemma EarlyYearKey(ledger: seq<Expense>, owner: UserId, key: string, y: int, m: int)
    requires ValidDates(ledger)
    requires ParseMonthKey(key) == Some((y, m)) && y <= 99
    ensures var r := ExpensesByMonth(ledger, owner, Some(key));
      r.Success? && forall e :: e in r.value <==> e in ledger && e.owner == owner
                                                  && e.date.year == 1900 + y && e.date.month == m
  {
    ExpensesByMonthOfKey(ledger, owner, key, y, m);
    assert UtcYear(y) == 1900 + y;
  }
}
