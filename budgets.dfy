/**
 * The budget controller: the upsert keyed by (owner, category, month) and the
 * per-month listing.
 */
module Budgets {
  import opened Wrappers
  import opened Models

  predicate HasKey(b: Budget, owner: UserId, category: CategoryId, month: string) {
    b.owner == owner && b.category == category && b.month == month
  }

  /** No two budgets share a key. */
  predicate UniqueKeys(budgets: seq<Budget>) {
    forall i, j :: 0 <= i < j < |budgets| ==>
      !HasKey(budgets[j], budgets[i].owner, budgets[i].category, budgets[i].month)
  }

  /** `Budget.findOne({category, month, user})`: the position of the first budget
      with that key, or None. */
  function FindBudget(budgets: seq<Budget>, owner: UserId, category: CategoryId, month: string)
    : (r: Option<nat>)
    ensures r.Some? ==> r.value < |budgets| && HasKey(budgets[r.value], owner, category, month)
    ensures r.Some? ==> forall j :: 0 <= j < r.value ==> !HasKey(budgets[j], owner, category, month)
    ensures r.None? ==> forall j :: 0 <= j < |budgets| ==> !HasKey(budgets[j], owner, category, month)
  {
    if budgets == [] then None
    else if HasKey(budgets[0], owner, category, month) then Some(0)
    else match FindBudget(budgets[1..], owner, category, month)
      case Some(i) => Some(i + 1)
      case None => None
  }

  /** The body of a POST /budgets request. `items` is optional: any array, even an
      empty one, is present. */
  datatype BudgetRequest = BudgetRequest(category: CategoryId, month: string, limit: int,
                                         items: Option<seq<SubItemInput>>)

  /** The collection after the save, and the saved budget the response returns. */
  datatype Upserted = Upserted(budgets: seq<Budget>, saved: Budget)

  /** Whether the save would reject the request: a supplied sub-item without a name,
      or, when a new budget would be created, an empty month. */
  predicate Rejected(budgets: seq<Budget>, owner: UserId, req: BudgetRequest) {
    || (req.items.Some? && MakeItems(req.items.value).None?)
    || (FindBudget(budgets, owner, req.category, req.month).None? && req.month == "")
  }

  /** `setBudget`: find the budget with the request's key; if there is one, overwrite
      its limit and, when `items` is supplied, replace its sub-items wholesale;
      otherwise create a budget with the given fields and `items` or `[]`. */
  function Upsert(budgets: seq<Budget>, owner: UserId, req: BudgetRequest)
    : (r: Result<Upserted, Error>)
    ensures r.Failure? <==> Rejected(budgets, owner, req)
    ensures r.Failure? ==> r.error == ServerError
    ensures r.Success? ==> && HasKey(r.value.saved, owner, req.category, req.month)
                           && r.value.saved.limit == req.limit
    ensures r.Success? && req.items.Some? ==> Some(r.value.saved.items) == MakeItems(req.items.value)
    ensures r.Success? && req.items.None? ==>
      r.value.saved.items == match FindBudget(budgets, owner, req.category, req.month)
                             case Some(i) => budgets[i].items
                             case None => []
  {
    var made := MakeItems(req.items.GetOr([]));
    match FindBudget(budgets, owner, req.category, req.month)
    case Some(i) =>
      if made.None? then Failure(ServerError)
      else
        var b := budgets[i].(limit := req.limit,
                             items := if req.items.Some? then made.value else budgets[i].items);
        Success(Upserted(budgets[i := b], b))
    case None =>
      if req.month == "" || made.None? then Failure(ServerError)
      else
        var b := Budget(req.category, req.month, req.limit, made.value, owner);
        Success(Upserted(budgets + [b], b))
  }

  /** An update happens in place and leaves every other budget as it was; a creation
      appends and leaves every existing budget as it was. */
  lemma UpsertPlacement(budgets: seq<Budget>, owner: UserId, req: BudgetRequest)
    requires Upsert(budgets, owner, req).Success?
    ensures var u := Upsert(budgets, owner, req).value;
      match FindBudget(budgets, owner, req.category, req.month)
      case Some(i) =>
        && |u.budgets| == |budgets| && u.budgets[i] == u.saved
        && (forall j :: 0 <= j < |budgets| && j != i ==> u.budgets[j] == budgets[j])
      case None =>
        && u.budgets == budgets + [u.saved]
  {
  }

  /** The upsert never creates a second budget for a key: it keeps the keys unique. */
  lemma UpsertKeepsKeysUnique(budgets: seq<Budget>, owner: UserId, req: BudgetRequest)
    requires UniqueKeys(budgets)
    requires Upsert(budgets, owner, req).Success?
    ensures UniqueKeys(Upsert(budgets, owner, req).value.budgets)
  {
    var u := Upsert(budgets, owner, req).value;
    UpsertPlacement(budgets, owner, req);
    var f := FindBudget(budgets, owner, req.category, req.month);
    forall i, j | 0 <= i < j < |u.budgets|
      ensures !HasKey(u.budgets[j], u.budgets[i].owner, u.budgets[i].category, u.budgets[i].month)
    {
      if f.Some? {
        assert HasKey(budgets[f.value], owner, req.category, req.month);
      } else if j == |budgets| {
        assert !HasKey(budgets[i], owner, req.category, req.month);
      }
    }
  }

  /** Saved budgets satisfy the schema, and so does everything the upsert saves. */
  lemma UpsertKeepsSaved(budgets: seq<Budget>, owner: UserId, req: BudgetRequest)
    requires forall i :: 0 <= i < |budgets| ==> SavedBudget(budgets[i])
    requires Upsert(budgets, owner, req).Success?
    ensures var u := Upsert(budgets, owner, req).value;
      SavedBudget(u.saved) && forall i :: 0 <= i < |u.budgets| ==> SavedBudget(u.budgets[i])
  {
    var u := Upsert(budgets, owner, req).value;
    UpsertPlacement(budgets, owner, req);
    var f := FindBudget(budgets, owner, req.category, req.month);
    if req.items.Some? {
      var made := MakeItems(req.items.value).value;
      forall k | 0 <= k < |made| ensures made[k].name != "" {
        assert Some(made[k]) == MakeSubItem(req.items.value[k]);
      }
    }
    assert SavedBudget(u.saved) by {
      if f.Some? { assert SavedBudget(budgets[f.value]); }
    }
  }

  /** Two upserts for the same key in a row: the second finds what the first saved,
      so the collection does not grow again, and the second request's limit wins; its
      sub-items win when it supplies them, otherwise the first's stay. */
  lemma UpsertTwice(budgets: seq<Budget>, owner: UserId, first: BudgetRequest, second: BudgetRequest)
    requires first.category == second.category && first.month == second.month
    requires Upsert(budgets, owner, first).Success?
    requires Upsert(Upsert(budgets, owner, first).value.budgets, owner, second).Success?
    ensures var u1 := Upsert(budgets, owner, first).value;
            var u2 := Upsert(u1.budgets, owner, second).value;
      && |u2.budgets| == |u1.budgets|
      && u2.saved.limit == second.limit
      && (second.items.None? ==> u2.saved.items == u1.saved.items)
  {
    var u1 := Upsert(budgets, owner, first).value;
    UpsertPlacement(budgets, owner, first);
    var f1 := FindBudget(budgets, owner, first.category, first.month);
    var f2 := FindBudget(u1.budgets, owner, second.category, second.month);
    assert u1.budgets[if f1.Some? then f1.value else |budgets|] == u1.saved;
    assert f2.Some?;
    if f1.Some? {
      assert f2.value <= f1.value;
      assert f2.value == f1.value;
    } else {
      assert f2.value == |budgets|;
    }
  }

  /** `getBudgets`: the owner's budgets for the month, in collection order. */
  function MonthBudgets(budgets: seq<Budget>, owner: UserId, month: string): (r: seq<Budget>)
    ensures |r| <= |budgets|
    ensures forall b :: b in r <==> b in budgets && b.owner == owner && b.month == month
  {
    if budgets == [] then []
    else
      var last := budgets[|budgets| - 1];
      MonthBudgets(budgets[..|budgets| - 1], owner, month)
        + (if last.owner == owner && last.month == month then [last] else [])
  }

  /** After a successful upsert, the month's listing holds the saved budget and no
      other budget of that category. */
  lemma ListedOnceAfterUpsert(budgets: seq<Budget>, owner: UserId, req: BudgetRequest)
    requires UniqueKeys(budgets)
    requires Upsert(budgets, owner, req).Success?
    ensures var u := Upsert(budgets, owner, req).value;
      && u.saved in MonthBudgets(u.budgets, owner, req.month)
      && forall b :: b in MonthBudgets(u.budgets, owner, req.month) && b.category == req.category
           ==> b == u.saved
  {
    var u := Upsert(budgets, owner, req).value;
    UpsertPlacement(budgets, owner, req);
    UpsertKeepsKeysUnique(budgets, owner, req);
    var f := FindBudget(budgets, owner, req.category, req.month);
    var p := if f.Some? then f.value else |budgets|;
    assert u.budgets[p] == u.saved;
    forall b | b in MonthBudgets(u.budgets, owner, req.month) && b.category == req.category
      ensures b == u.saved
    {
      var j :| 0 <= j < |u.budgets| && u.budgets[j] == b;
    }
  }
}
