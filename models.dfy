/**
 * The stored records: categories, budgets with their sub-items, and expenses,
 * with the required fields, defaults and the date setter of their schemas.
 */
module Models {
  import opened Wrappers
  import opened Calendar

  /** Opaque identities (ObjectIds). */
  type UserId = nat
  type CategoryId = nat

  /** Why a request fails: a 400 with a message, the generic 500 every failed save
      or cast becomes, or an exception thrown before the handler's `try`, after which
      no response is sent at all. */
  datatype Error = BadRequest(message: string) | ServerError | NoResponse

  /** A category: `_id`, display name and colour, and its owner. */
  datatype Category = Category(id: CategoryId, name: string, color: string, owner: UserId)

  /** `_id` is unique within the categories collection. */
  predicate UniqueIds(categories: seq<Category>) {
    forall i, j :: 0 <= i < j < |categories| ==> categories[i].id != categories[j].id
  }

  /** A budget sub-item as stored. `kind` is the schema's `type` field. */
  datatype SubItem = SubItem(name: string, allocation: int, spent: int, kind: string)

  /** A sub-item as the client sends it: every field may be missing. */
  datatype SubItemInput = SubItemInput(
    name: Option<string>, allocation: Option<int>, spent: Option<int>, kind: Option<string>)

  const DailyKind: string := "daily"
  const CustomKind: string := "custom"

  /** A string that is present and not empty: what a Mongoose `required` String
      accepts, and what JavaScript treats as a truthy string. */
  predicate PresentText(s: Option<string>) {
    s.Some? && s.value != ""
  }

  /** Casting one sub-item through its schema: `name` is required, `allocated` and
      `spent` default to 0 and `type` to `'daily'`. (`allocated` is a keyword of
      Dafny, so the field is called `allocation` here.) */
  function MakeSubItem(input: SubItemInput): (r: Option<SubItem>)
    ensures r.Some? <==> PresentText(input.name)
    ensures r.Some? ==> && r.value.name == input.name.value
                        && r.value.allocation == input.allocation.GetOr(0)
                        && r.value.spent == input.spent.GetOr(0)
                        && r.value.kind == input.kind.GetOr(DailyKind)
  {
    if PresentText(input.name) then
      Some(SubItem(input.name.value, input.allocation.GetOr(0), input.spent.GetOr(0),
                   input.kind.GetOr(DailyKind)))
    else None
  }

  /** Casting the `items` array: the save fails if any sub-item fails; otherwise
      the items keep their order. */
  function MakeItems(inputs: seq<SubItemInput>): (r: Option<seq<SubItem>>)
    ensures r.Some? <==> forall i :: 0 <= i < |inputs| ==> PresentText(inputs[i].name)
    ensures r.Some? ==> |r.value| == |inputs|
    ensures r.Some? ==> forall i :: 0 <= i < |inputs| ==> Some(r.value[i]) == MakeSubItem(inputs[i])
  {
    if inputs == [] then Some([])
    else
      var init := MakeItems(inputs[..|inputs| - 1]);
      var last := MakeSubItem(inputs[|inputs| - 1]);
      if init.Some? && last.Some? then Some(init.value + [last.value]) else None
  }

  /** A budget: one per (owner, category, month key) with a limit and ordered sub-items. */
  datatype Budget = Budget(category: CategoryId, month: string, limit: int,
                           items: seq<SubItem>, owner: UserId)

  /** What the schema guarantees of every saved budget: the required `month` is a
      non-empty string and every sub-item has a name. */
  predicate SavedBudget(b: Budget) {
    b.month != "" && forall i :: 0 <= i < |b.items| ==> b.items[i].name != ""
  }

  /** The over-budget rule the server and the dashboard share: a limit that is not
      positive means "no budget set", never "zero allowance". */
  predicate OverLimit(limit: int, spent: int) {
    limit > 0 && spent > limit
  }

  /** An expense: amount without sign or range constraint, date, optional sub-item label. */
  datatype Expense = Expense(category: CategoryId, amount: int, date: Date,
                             subItemName: Option<string>, owner: UserId)

  /** What `date` may be given as: text, or an existing date value. */
  datatype DateInput = DateText(text: string) | DateValue(date: Date)

  /** The schema's `date` setter: text goes through `new Date(value)`, where text
      that is not a date yields None (an Invalid Date, which the cast then rejects);
      any other value passes through unchanged. */
  function SetDate(v: DateInput): (r: Option<Date>)
    ensures v.DateValue? ==> r == Some(v.date)
    ensures v.DateText? ==> (r.Some? <==> ParseDate(v.text).Some?)
    ensures v.DateText? && r.Some? ==> ValidDate(r.value) && FormatDate(r.value) == v.text
  {
    match v
    case DateValue(d) => Some(d)
    case DateText(s) =>
      var r := ParseDate(s);
      if r.Some? then FormatParseDate(s); r else r
  }

  /** `new Expense({...})` followed by the cast `save()` performs. */
  function MakeExpense(owner: UserId, category: CategoryId, amount: int, date: DateInput,
                       subItemName: Option<string>): (r: Option<Expense>)
    ensures r.Some? <==> SetDate(date).Some?
    ensures r.Some? ==> r.value == Expense(category, amount, SetDate(date).value, subItemName, owner)
  {
    var d := SetDate(date);
    if d.Some? then Some(Expense(category, amount, d.value, subItemName, owner)) else None
  }
}
