/**
 * The budget repository and the budget-versus-actual report: schema
 * validation, the upsert on (categoryId, period), listing and deletion, and
 * the comparison of monthly budgets with the current month's spending.
 */
module Budgets {
  import opened Wrappers
  import opened Values
  import opened Collection
  import opened Grouping
  import opened Models

  // ---------------------------------------------------------------------------
  // Schema
  // ---------------------------------------------------------------------------

  datatype BudgetForm = BudgetForm(categoryId: string, amount: int, period: string)

  const CategoryRequired := "Category is required"
  const AmountRequired := "Amount must be greater than 0"
  const PeriodRequired := "Period is required"

  const Saved := "Budget saved successfully"
  const SaveFailed := "Failed to save budget"
  const Deleted := "Budget deleted successfully"
  const DeleteFailed := "Failed to delete budget"

  /** The only period the comparison considers. */
  const Monthly := "monthly"

  /** `budgetSchema.parse`: a category, an amount of at least 0.01 and a period; the first failing field names the error. */
  function ValidateBudget(form: BudgetForm): (r: Result<BudgetFields>)
    ensures r.Ok? <==> form.categoryId != "" && form.amount >= MinAmount && form.period != ""
    ensures r.Ok? ==> r.value == BudgetFields(form.categoryId, form.amount, form.period) && WellFormedBudget(r.value)
    ensures r.Err? && form.categoryId == "" ==> r.message == CategoryRequired
    ensures r.Err? && form.categoryId != "" && form.amount < MinAmount ==> r.message == AmountRequired
    ensures r.Err? && form.categoryId != "" && form.amount >= MinAmount ==> r.message == PeriodRequired
  {
    if form.categoryId == "" then Err(CategoryRequired)
    else if form.amount < MinAmount then Err(AmountRequired)
    else if form.period == "" then Err(PeriodRequired)
    else Ok(BudgetFields(form.categoryId, form.amount, form.period))
  }

  // ---------------------------------------------------------------------------
  // The upsert
  // ---------------------------------------------------------------------------

  predicate HasKey(b: Budget, categoryId: string, period: string) {
    b.fields.categoryId == categoryId && b.fields.period == period
  }

  /** `findOne({categoryId, period})`: the first budget with that natural key. */
  function FindBudget(bs: seq<Budget>, categoryId: string, period: string): (r: Option<nat>)
    ensures r.Some? ==> r.value < |bs| && HasKey(bs[r.value], categoryId, period)
    ensures r.Some? ==> forall j :: 0 <= j < r.value ==> !HasKey(bs[j], categoryId, period)
    ensures r.None? <==> forall j :: 0 <= j < |bs| ==> !HasKey(bs[j], categoryId, period)
  {
    if bs == [] then None
    else if HasKey(bs[0], categoryId, period) then Some(0)
    else
      match FindBudget(bs[1..], categoryId, period)
      case None =>
        assert forall j :: 1 <= j < |bs| ==> bs[j] == bs[1..][j - 1];
        None
      case Some(k) => Some(k + 1)
  }

  /**
   * createBudget's write: when a budget with the same (categoryId, period)
   * exists, only its amount is set; otherwise the validated budget is inserted
   * under `newId` (None when that `_id` is taken). Afterwards the first budget
   * with that key holds exactly the validated fields; identifiers, the natural
   * key and well-formedness stay unique and intact.
   */
  function SaveBudget(bs: seq<Budget>, v: BudgetFields, newId: ObjectId): (r: Option<seq<Budget>>)
    ensures r.None? <==> FindBudget(bs, v.categoryId, v.period).None? && HasId(bs, newId)
    ensures FindBudget(bs, v.categoryId, v.period).Some? ==>
      var i := FindBudget(bs, v.categoryId, v.period).value;
      && r.Some? && |r.value| == |bs|
      && r.value[i] == Doc(bs[i].id, bs[i].fields.(amount := v.amount))
      && forall j :: 0 <= j < |bs| && j != i ==> r.value[j] == bs[j]
    ensures FindBudget(bs, v.categoryId, v.period).None? && r.Some? ==> r.value == bs + [Doc(newId, v)]
    ensures r.Some? ==>
      && FindBudget(r.value, v.categoryId, v.period).Some?
      && r.value[FindBudget(r.value, v.categoryId, v.period).value].fields == v
    ensures r.Some? && UniqueIds(bs) ==> UniqueIds(r.value)
    ensures r.Some? && UniqueBudgetKeys(bs) ==> UniqueBudgetKeys(r.value)
    ensures r.Some? && WellFormedBudget(v) && (forall b :: b in bs ==> WellFormedBudget(b.fields)) ==>
      forall b :: b in r.value ==> WellFormedBudget(b.fields)
  {
    match FindBudget(bs, v.categoryId, v.period)
    case Some(i) =>
      SetAmountKeepsInvariants(bs, i, v.amount);
      Some(bs[i := Doc(bs[i].id, bs[i].fields.(amount := v.amount))])
    case None =>
      if HasId(bs, newId) then None
      else
        AppendKeepsInvariants(bs, v, newId);
        Some(bs + [Doc(newId, v)])
  }

  lemma SetAmountKeepsInvariants(bs: seq<Budget>, i: nat, amount: int)
    requires i < |bs|
    ensures var r := bs[i := Doc(bs[i].id, bs[i].fields.(amount := amount))];
      && (UniqueIds(bs) ==> UniqueIds(r))
      && (UniqueBudgetKeys(bs) ==> UniqueBudgetKeys(r))
      && (amount >= MinAmount && (forall b :: b in bs ==> WellFormedBudget(b.fields)) ==> forall b :: b in r ==> WellFormedBudget(b.fields))
  {
    var r := bs[i := Doc(bs[i].id, bs[i].fields.(amount := amount))];
    assert forall j :: 0 <= j < |r| ==>
      r[j].fields.categoryId == bs[j].fields.categoryId && r[j].fields.period == bs[j].fields.period && r[j].id == bs[j].id;
    if amount >= MinAmount && (forall b :: b in bs ==> WellFormedBudget(b.fields)) {
      forall b | b in r ensures WellFormedBudget(b.fields) {
        var j :| 0 <= j < |r| && r[j] == b;
        assert bs[j] in bs;
      }
    }
  }

  lemma AppendKeepsInvariants(bs: seq<Budget>, v: BudgetFields, newId: ObjectId)
    requires FindBudget(bs, v.categoryId, v.period).None? && !HasId(bs, newId)
    ensures var r := bs + [Doc(newId, v)];
      && FindBudget(r, v.categoryId, v.period) == Some(|bs|)
      && (UniqueIds(bs) ==> UniqueIds(r))
      && (UniqueBudgetKeys(bs) ==> UniqueBudgetKeys(r))
      && (WellFormedBudget(v) && (forall b :: b in bs ==> WellFormedBudget(b.fields)) ==> forall b :: b in r ==> WellFormedBudget(b.fields))
  {
    AppendFinds(bs, v, newId);
    if UniqueIds(bs) { AppendKeepsIds(bs, v, newId); }
    if UniqueBudgetKeys(bs) { AppendKeepsKeys(bs, v, newId); }
    if WellFormedBudget(v) && (forall b :: b in bs ==> WellFormedBudget(b.fields)) {
      AppendKeepsWellFormed(bs, v, newId);
    }
  }

  lemma AppendFinds(bs: seq<Budget>, v: BudgetFields, newId: ObjectId)
    requires FindBudget(bs, v.categoryId, v.period).None?
    ensures FindBudget(bs + [Doc(newId, v)], v.categoryId, v.period) == Some(|bs|)
  {
    FindBudgetAppend(bs, Doc(newId, v), v.categoryId, v.period);
  }

  /** Appending a budget does not change an earlier match; otherwise the new budget is the match if it has the key. */
  lemma {:induction false} FindBudgetAppend(bs: seq<Budget>, x: Budget, categoryId: string, period: string)
    ensures FindBudget(bs + [x], categoryId, period) ==
      if FindBudget(bs, categoryId, period).Some? then FindBudget(bs, categoryId, period)
      else if HasKey(x, categoryId, period) then Some(|bs|)
      else None
  {
    if bs != [] {
      assert (bs + [x])[1..] == bs[1..] + [x];
      FindBudgetAppend(bs[1..], x, categoryId, period);
    }
  }

  lemma AppendKeepsWellFormed(bs: seq<Budget>, v: BudgetFields, newId: ObjectId)
    requires WellFormedBudget(v) && forall b :: b in bs ==> WellFormedBudget(b.fields)
    ensures forall b :: b in bs + [Doc(newId, v)] ==> WellFormedBudget(b.fields)
  {
  }

  lemma AppendKeepsIds(bs: seq<Budget>, v: BudgetFields, newId: ObjectId)
    requires UniqueIds(bs) && !HasId(bs, newId)
    ensures UniqueIds(bs + [Doc(newId, v)])
  {
    var r := bs + [Doc(newId, v)];
    forall a, b | 0 <= a < b < |r| ensures r[a].id != r[b].id {
      assert r[a] == bs[a];
      if b < |bs| { assert r[b] == bs[b]; }
    }
  }

  lemma AppendKeepsKeys(bs: seq<Budget>, v: BudgetFields, newId: ObjectId)
    requires UniqueBudgetKeys(bs) && FindBudget(bs, v.categoryId, v.period).None?
    ensures UniqueBudgetKeys(bs + [Doc(newId, v)])
  {
    var r := bs + [Doc(newId, v)];
    forall a, b | 0 <= a < b < |r|
      ensures r[a].fields.categoryId != r[b].fields.categoryId || r[a].fields.period != r[b].fields.period
    {
      assert r[a] == bs[a] && !HasKey(bs[a], v.categoryId, v.period);
      if b < |bs| { assert r[b] == bs[b]; }
    }
  }

  /** Saving the same budget twice leaves the collection as one save did. */
  lemma SaveBudgetIdempotent(bs: seq<Budget>, v: BudgetFields, id1: ObjectId, id2: ObjectId)
    requires SaveBudget(bs, v, id1).Some?
    ensures SaveBudget(SaveBudget(bs, v, id1).value, v, id2) == SaveBudget(bs, v, id1)
  {
    var once := SaveBudget(bs, v, id1).value;
    var i := FindBudget(once, v.categoryId, v.period).value;
    assert once[i].fields.(amount := v.amount) == once[i].fields;
    assert once[i := Doc(once[i].id, once[i].fields.(amount := v.amount))] == once;
  }

  /**
   * The upsert law: two saves for the same (categoryId, period) leave exactly
   * one budget with that key, holding the second save's amount.
   */
  lemma SaveTwiceKeepsOne(bs: seq<Budget>, v1: BudgetFields, v2: BudgetFields, id1: ObjectId, id2: ObjectId)
    requires UniqueBudgetKeys(bs) && SaveBudget(bs, v1, id1).Some?
    requires v2.categoryId == v1.categoryId && v2.period == v1.period
    ensures SaveBudget(SaveBudget(bs, v1, id1).value, v2, id2).Some?
    ensures var r := SaveBudget(SaveBudget(bs, v1, id1).value, v2, id2).value;
      exists i :: 0 <= i < |r| && r[i].fields == v2
        && forall j :: 0 <= j < |r| && j != i ==> !HasKey(r[j], v2.categoryId, v2.period)
  {
    var once := SaveBudget(bs, v1, id1).value;
    var r := SaveBudget(once, v2, id2).value;
    var i := FindBudget(r, v2.categoryId, v2.period).value;
    forall j | 0 <= j < |r| && j != i ensures !HasKey(r[j], v2.categoryId, v2.period) {
      if j < i {
        assert !HasKey(r[j], v2.categoryId, v2.period);
      } else {
        assert r[i].fields.categoryId == v2.categoryId && r[i].fields.period == v2.period;
      }
    }
  }

  // ---------------------------------------------------------------------------
  // Repository actions
  // ---------------------------------------------------------------------------

  /**
   * createBudget: validates, then saves. After a success exactly one budget
   * carries the (categoryId, period) key, and it holds the validated amount.
   */
  method CreateBudget(db: Database, form: BudgetForm, newId: ObjectId) returns (r: ActionResult)
    requires db.Valid()
    modifies db`budgets
    ensures db.Valid()
    ensures ValidateBudget(form).Err? ==> r == ActionResult(false, ValidateBudget(form).message)
    ensures ValidateBudget(form).Ok? ==> r.message == (if r.success then Saved else SaveFailed)
    ensures r.success <==>
      && ValidateBudget(form).Ok? && db.reachable
      && SaveBudget(old(db.budgets), ValidateBudget(form).value, newId).Some?
    ensures r.success ==> db.budgets == SaveBudget(old(db.budgets), ValidateBudget(form).value, newId).value
    ensures r.success ==> exists j :: 0 <= j < |db.budgets| && db.budgets[j].fields == ValidateBudget(form).value
    ensures r.success ==> forall j :: 0 <= j < |db.budgets| && HasKey(db.budgets[j], form.categoryId, form.period) ==>
      db.budgets[j].fields == ValidateBudget(form).value
    ensures !r.success ==> db.budgets == old(db.budgets)
  {
    var v := ValidateBudget(form);
    if v.Err? {
      return ActionResult(false, v.message);
    }
    if !db.reachable {
      return ActionResult(false, SaveFailed);
    }
    var saved := SaveBudget(db.budgets, v.value, newId);
    if saved.None? {
      return ActionResult(false, SaveFailed);
    }
    db.budgets := saved.value;
    var i := FindBudget(db.budgets, form.categoryId, form.period).value;
    assert db.budgets[i].fields == v.value;
    r := ActionResult(true, Saved);
  }

  /** getBudgets: every stored budget in natural order; nothing when the store fails. */
  method GetBudgets(db: Database) returns (r: seq<Budget>)
    ensures db.reachable ==> r == db.budgets
    ensures !db.reachable ==> r == []
  {
    if !db.reachable {
      return [];
    }
    r := db.budgets;
  }

  /** deleteBudget: removes the budget with that `_id`; success even when none matched. */
  method DeleteBudget(db: Database, id: string) returns (r: ActionResult)
    requires db.Valid()
    modifies db`budgets
    ensures db.Valid()
    ensures r.success <==> db.reachable && ParseObjectId(id).Some?
    ensures r.message == (if r.success then Deleted else DeleteFailed)
    ensures r.success ==> db.budgets == DeleteOne(old(db.budgets), ParseObjectId(id).value)
    ensures r.success ==> forall b :: b in db.budgets ==> b in old(db.budgets) && b.id != ParseObjectId(id).value
    ensures r.success ==> forall b :: b in old(db.budgets) && b.id != ParseObjectId(id).value ==> b in db.budgets
    ensures !r.success ==> db.budgets == old(db.budgets)
  {
    var oid := ParseObjectId(id);
    if !db.reachable || oid.None? {
      return ActionResult(false, DeleteFailed);
    }
    var rest := DeleteOne(db.budgets, oid.value);
    DeleteKeepsKeysUnique(db.budgets, oid.value);
    db.budgets := rest;
    r := ActionResult(true, Deleted);
  }

  /** Removing a budget keeps the natural key unique. */
  lemma DeleteKeepsKeysUnique(bs: seq<Budget>, id: ObjectId)
    requires UniqueBudgetKeys(bs)
    ensures UniqueBudgetKeys(DeleteOne(bs, id))
  {
    var k := IndexOf(bs, id);
    if k.Some? {
      RemoveAtKeepsKeysUnique(bs, k.value);
    }
  }

  lemma RemoveAtKeepsKeysUnique(bs: seq<Budget>, i: nat)
    requires UniqueBudgetKeys(bs) && i < |bs|
    ensures UniqueBudgetKeys(bs[..i] + bs[i + 1..])
  {
    var rest := bs[..i] + bs[i + 1..];
    forall a, b | 0 <= a < b < |rest|
      ensures rest[a].fields.categoryId != rest[b].fields.categoryId || rest[a].fields.period != rest[b].fields.period
    {
      var a', b' := if a < i then a else a + 1, if b < i then b else b + 1;
      assert rest[a] == bs[a'] && rest[b] == bs[b'];
    }
  }

  // ---------------------------------------------------------------------------
  // The spending window
  // ---------------------------------------------------------------------------

  /** `new Date(year, month, 1)`: midnight on the first day of `now`'s month. */
  function MonthStart(now: Instant): (s: Instant)
    ensures s.year == now.year && s.month == now.month
    ensures forall d: Instant :: d.year == now.year && d.month == now.month ==> !Before(d, s)
  {
    Instant(now.year, now.month, 1, 0)
  }

  /** `new Date(year, month + 1, 0)`: midnight at the START of the last day of `now`'s month. */
  function LastDayMidnight(now: Instant): (e: Instant)
    ensures e.year == now.year && e.month == now.month && e.millis == 0
    ensures e.day == DaysInMonth(now.year, now.month)
  {
    Instant(now.year, now.month, DaysInMonth(now.year, now.month), 0)
  }

  /** The `$gte startOfMonth, $lte endOfMonth` match as written. */
  predicate InWindowAsWritten(d: Instant, now: Instant) {
    !Before(d, MonthStart(now)) && !Before(LastDayMidnight(now), d)
  }

  /** The calendar month of `now`, which the window is meant to cover. */
  predicate InCurrentMonth(d: Instant, now: Instant) {
    d.year == now.year && d.month == now.month
  }

  /**
   * The window as written holds exactly the current month's instants up to
   * midnight starting its last day: anything later on the last day is missed.
   */
  lemma WindowAsWrittenMissesLastDay(d: Instant, now: Instant)
    ensures InWindowAsWritten(d, now) <==>
      InCurrentMonth(d, now) && (d.day < DaysInMonth(now.year, now.month) || (d.day == DaysInMonth(now.year, now.month) && d.millis == 0))
  {
    if InCurrentMonth(d, now) && d.day > DaysInMonth(now.year, now.month) {
      // a day number the month does not have: past the last day, so outside both
      assert Before(LastDayMidnight(now), d);
    }
  }

  /**
   * The month's window compares only year and month: it is the window as
   * written together with the rest of the last day (and any day number past
   * it).
   */
  lemma CurrentMonthExtendsWindow(d: Instant, now: Instant)
    ensures InCurrentMonth(d, now) <==>
      || InWindowAsWritten(d, now)
      || (d.year == now.year && d.month == now.month &&
          (d.day > DaysInMonth(now.year, now.month) || (d.day == DaysInMonth(now.year, now.month) && d.millis > 0)))
  {
    WindowAsWrittenMissesLastDay(d, now);
  }

  // ---------------------------------------------------------------------------
  // Current-month spending per category
  // ---------------------------------------------------------------------------

  /** What reaches the `$group` stage: the `$toString` of the reference and the amount of each transaction in the month. */
  function SpendingItems(txs: seq<Transaction>, now: Instant): seq<(Option<string>, int)> {
    if txs == [] then []
    else
      var t := txs[|txs| - 1];
      SpendingItems(txs[..|txs| - 1], now)
        + (if InCurrentMonth(t.fields.date, now) then [(RefToString(t.fields.categoryId), t.fields.amount)] else [])
  }

  /** The spending of one category this month, from the transactions directly. */
  function Spent(txs: seq<Transaction>, now: Instant, categoryId: string): int {
    if txs == [] then 0
    else
      var t := txs[|txs| - 1];
      Spent(txs[..|txs| - 1], now, categoryId)
        + (if InCurrentMonth(t.fields.date, now) && RefToString(t.fields.categoryId) == Some(categoryId) then t.fields.amount else 0)
  }

  /** Every transaction dated in the current month counts, at any time of any of its days. */
  lemma SpentCountsWholeMonth(txs: seq<Transaction>, now: Instant, t: Transaction, categoryId: string)
    requires InCurrentMonth(t.fields.date, now) && RefToString(t.fields.categoryId) == Some(categoryId)
    ensures Spent(txs + [t], now, categoryId) == Spent(txs, now, categoryId) + t.fields.amount
  {
    assert (txs + [t])[..|txs|] == txs;
  }

  /** The spending of one category as the `$match` window as written selects it. */
  function SpentAsWritten(txs: seq<Transaction>, now: Instant, categoryId: string): int {
    if txs == [] then 0
    else
      var t := txs[|txs| - 1];
      SpentAsWritten(txs[..|txs| - 1], now, categoryId)
        + (if InWindowAsWritten(t.fields.date, now) && RefToString(t.fields.categoryId) == Some(categoryId) then t.fields.amount else 0)
  }

  /**
   * A purchase on the month's last day after midnight adds nothing to the
   * spending as written, while the current month's spending grows by its
   * amount.
   */
  lemma SpentAsWrittenMissesLastDay(txs: seq<Transaction>, now: Instant, t: Transaction, categoryId: string)
    requires RefToString(t.fields.categoryId) == Some(categoryId)
    requires InCurrentMonth(t.fields.date, now) && t.fields.date.day == DaysInMonth(now.year, now.month) && t.fields.date.millis > 0
    ensures SpentAsWritten(txs + [t], now, categoryId) == SpentAsWritten(txs, now, categoryId)
    ensures Spent(txs + [t], now, categoryId) == Spent(txs, now, categoryId) + t.fields.amount
  {
    assert (txs + [t])[..|txs|] == txs;
    WindowAsWrittenMissesLastDay(t.fields.date, now);
  }

  /** A purchase at noon on 31 January 2024 is missing from January's spending as written. */
  lemma WindowAsWrittenExample(txs: seq<Transaction>, t: Transaction, categoryId: string)
    requires RefToString(t.fields.categoryId) == Some(categoryId) && t.fields.date == Instant(2024, 1, 31, 43_200_000)
    ensures SpentAsWritten(txs + [t], Instant(2024, 1, 15, 0), categoryId) == SpentAsWritten(txs, Instant(2024, 1, 15, 0), categoryId)
    ensures Spent(txs + [t], Instant(2024, 1, 15, 0), categoryId) == Spent(txs, Instant(2024, 1, 15, 0), categoryId) + t.fields.amount
  {
    assert DaysInMonth(2024, 1) == 31;
    SpentAsWrittenMissesLastDay(txs, Instant(2024, 1, 15, 0), t, categoryId);
  }

  lemma {:induction false} SpendingItemsSum(txs: seq<Transaction>, now: Instant, categoryId: string)
    ensures SumOf(SpendingItems(txs, now), Some(categoryId)) == Spent(txs, now, categoryId)
  {
    if txs != [] {
      var n := |txs| - 1;
      var t := txs[n];
      var tail: seq<(Option<string>, int)> :=
        if InCurrentMonth(t.fields.date, now) then [(RefToString(t.fields.categoryId), t.fields.amount)] else [];
      SumOfAppend(SpendingItems(txs[..n], now), tail, Some(categoryId));
      SpendingItemsSum(txs[..n], now, categoryId);
      assert SumOf(tail, Some(categoryId)) ==
        if InCurrentMonth(t.fields.date, now) && RefToString(t.fields.categoryId) == Some(categoryId) then t.fields.amount else 0 by {
        if tail != [] { assert tail[..0] == []; }
      }
    }
  }

  /** `spending.forEach(item => spendingMap.set(item._id, item.actual))`. */
  function SpendingMap(gs: seq<Group<Option<string>>>): map<Option<string>, int> {
    if gs == [] then map[]
    else SpendingMap(gs[..|gs| - 1])[gs[|gs| - 1].key := gs[|gs| - 1].total]
  }

  /**
   * Every group's key is in the spending map and no other, and a key holds the
   * total of its LAST group: a later `set` overwrites an earlier one.
   */
  lemma {:induction false} SpendingMapLastWins(gs: seq<Group<Option<string>>>)
    ensures forall k :: k in SpendingMap(gs) <==> exists i :: 0 <= i < |gs| && gs[i].key == k
    ensures forall i :: 0 <= i < |gs| && (forall j :: i < j < |gs| ==> gs[j].key != gs[i].key) ==>
      SpendingMap(gs)[gs[i].key] == gs[i].total
  {
    if gs != [] {
      var n := |gs| - 1;
      var front := gs[..n];
      SpendingMapLastWins(front);
      var m, fm := SpendingMap(gs), SpendingMap(front);
      assert m == fm[gs[n].key := gs[n].total];
      assert forall i :: 0 <= i < n ==> front[i] == gs[i];
      forall k ensures k in m <==> exists i :: 0 <= i < |gs| && gs[i].key == k {
        if k != gs[n].key && exists i :: 0 <= i < |gs| && gs[i].key == k {
          var i :| 0 <= i < |gs| && gs[i].key == k;
          assert front[i].key == k;
        }
      }
      forall i | 0 <= i < |gs| && (forall j :: i < j < |gs| ==> gs[j].key != gs[i].key)
        ensures m[gs[i].key] == gs[i].total
      {
        if i < n {
          assert forall j :: i < j < n ==> front[j].key != front[i].key;
        }
      }
    }
  }

  /** `spendingMap.get(categoryId) || 0`. */
  function Actual(m: map<Option<string>, int>, categoryId: string): int {
    if Some(categoryId) in m then m[Some(categoryId)] else 0
  }

  /** The looked-up actual spending is the category's spending this month. */
  lemma ActualIsSpent(txs: seq<Transaction>, now: Instant, categoryId: string)
    ensures Actual(SpendingMap(GroupSum(SpendingItems(txs, now))), categoryId) == Spent(txs, now, categoryId)
  {
    var items := SpendingItems(txs, now);
    var gs := GroupSum(items);
    var k := Some(categoryId);
    SpendingItemsSum(txs, now, categoryId);
    SpendingMapLastWins(gs);
    DistinctKeysAt(gs);
    KeysAre(gs);
    if k in Keys(gs) {
      var i :| 0 <= i < |gs| && gs[i].key == k;
      assert gs[i] in gs;
      GroupTotalIsSum(items, gs[i]);
    } else {
      KeyTotalAbsent(gs, k);
    }
  }

  // ---------------------------------------------------------------------------
  // getBudgetComparison
  // ---------------------------------------------------------------------------

  /**
   * The budget pipeline as written: the monthly budgets, `$lookup` of their
   * categoryId against the categories' `_id`, and `$unwind` without
   * preservation. The budget's categoryId is a string and never equals an
   * ObjectId, so no budget keeps a category.
   */
  function JoinAsWritten(bs: seq<Budget>, cats: seq<Category>): seq<(Budget, Category)> {
    if bs == [] then []
    else
      var b := bs[|bs| - 1];
      var found := if b.fields.period == Monthly then Lookup(cats, Some(Str(b.fields.categoryId))) else [];
      JoinAsWritten(bs[..|bs| - 1], cats) + seq(|found|, i requires 0 <= i < |found| => (b, found[i]))
  }

  /** As written, the comparison is empty whatever is stored. */
  lemma {:induction false} JoinAsWrittenIsEmpty(bs: seq<Budget>, cats: seq<Category>)
    ensures JoinAsWritten(bs, cats) == []
  {
    if bs != [] {
      JoinAsWrittenIsEmpty(bs[..|bs| - 1], cats);
    }
  }

  /** The categories whose printed `_id` is `categoryId`. */
  function CategoriesWithId(cats: seq<Category>, categoryId: string): (r: seq<Category>)
    ensures forall c :: c in r <==> c in cats && IdToString(c.id) == categoryId
  {
    if cats == [] then []
    else
      var n := |cats| - 1;
      assert cats == cats[..n] + [cats[n]];
      CategoriesWithId(cats[..n], categoryId) + (if IdToString(cats[n].id) == categoryId then [cats[n]] else [])
  }

  /** The monthly budget `b` paired with each category its categoryId names, in category order. */
  function BudgetPairs(b: Budget, cats: seq<Category>): (pairs: seq<(Budget, Category)>)
    ensures forall c :: (b, c) in pairs <==> c in cats && Joined(b, c)
    ensures forall p :: p in pairs ==> p.0 == b
  {
    var found := if b.fields.period == Monthly then CategoriesWithId(cats, b.fields.categoryId) else [];
    var pairs := seq(|found|, i requires 0 <= i < |found| => (b, found[i]));
    assert forall c :: (b, c) in pairs <==> c in found by {
      forall c | c in found ensures (b, c) in pairs {
        var i :| 0 <= i < |found| && found[i] == c;
        assert pairs[i] == (b, c);
      }
    }
    pairs
  }

  /**
   * The join the pipeline is meant to do: each monthly budget with the category
   * whose printed `_id` equals the budget's categoryId; a budget whose category
   * is gone is dropped, as `$unwind` does.
   */
  function JoinById(bs: seq<Budget>, cats: seq<Category>): (r: seq<(Budget, Category)>)
    ensures forall b, c :: (b, c) in r <==> b in bs && c in cats && Joined(b, c)
  {
    if bs == [] then []
    else
      var n := |bs| - 1;
      assert bs == bs[..n] + [bs[n]];
      JoinById(bs[..n], cats) + BudgetPairs(bs[n], cats)
  }

  /** With unique ids, at most one category has a given printed `_id`. */
  lemma {:induction false} CategoriesWithIdAtMostOne(cats: seq<Category>, categoryId: string)
    requires UniqueIds(cats)
    ensures |CategoriesWithId(cats, categoryId)| <= 1
  {
    if cats != [] {
      var n := |cats| - 1;
      var front := cats[..n];
      assert UniqueIds(front) by {
        assert forall i :: 0 <= i < n ==> front[i] == cats[i];
      }
      CategoriesWithIdAtMostOne(front, categoryId);
      if IdToString(cats[n].id) == categoryId {
        forall c | c in front ensures IdToString(c.id) != categoryId {
          var i :| 0 <= i < n && front[i] == c;
          assert cats[i].id != cats[n].id;
        }
        NoCategoryWithId(front, categoryId);
      }
    }
  }

  lemma {:induction false} NoCategoryWithId(cats: seq<Category>, categoryId: string)
    requires forall c :: c in cats ==> IdToString(c.id) != categoryId
    ensures CategoriesWithId(cats, categoryId) == []
  {
    if cats != [] {
      var n := |cats| - 1;
      assert cats[n] in cats;
      assert forall c :: c in cats[..n] ==> c in cats;
      NoCategoryWithId(cats[..n], categoryId);
    }
  }

  /**
   * The join runs budget by budget and keeps budget order: joining a
   * concatenation is joining each part and concatenating.
   */
  lemma {:induction false} JoinByIdAppend(bs1: seq<Budget>, bs2: seq<Budget>, cats: seq<Category>)
    ensures JoinById(bs1 + bs2, cats) == JoinById(bs1, cats) + JoinById(bs2, cats)
  {
    if bs2 == [] {
      assert bs1 + bs2 == bs1;
    } else {
      var n := |bs2| - 1;
      var all := bs1 + bs2;
      assert all[..|all| - 1] == bs1 + bs2[..n];
      assert all[|all| - 1] == bs2[n];
      var last := BudgetPairs(bs2[n], cats);
      JoinByIdAppend(bs1, bs2[..n], cats);
      calc {
        JoinById(all, cats);
        JoinById(bs1 + bs2[..n], cats) + last;
        (JoinById(bs1, cats) + JoinById(bs2[..n], cats)) + last;
        JoinById(bs1, cats) + (JoinById(bs2[..n], cats) + last);
        JoinById(bs1, cats) + JoinById(bs2, cats);
      }
    }
  }

  /**
   * With unique category ids, one budget yields at most one pair: the category
   * it names, when it is monthly and that category exists.
   */
  lemma JoinByIdOne(b: Budget, cats: seq<Category>)
    requires UniqueIds(cats)
    ensures |JoinById([b], cats)| <= 1
    ensures forall c :: c in cats && Joined(b, c) ==> JoinById([b], cats) == [(b, c)]
  {
    assert [b][..0] == [];
    assert JoinById([b], cats) == BudgetPairs(b, cats);
    CategoriesWithIdAtMostOne(cats, b.fields.categoryId);
    forall c | c in cats && Joined(b, c) ensures JoinById([b], cats) == [(b, c)] {
      assert (b, c) in BudgetPairs(b, cats);
    }
  }

  /**
   * The final `map`: category name and color, budgeted amount, and the spending
   * looked up by the budget's categoryId. This is a definition, element by
   * element; `RowsAreRowOf` states what each row means.
   */
  function ComparisonRows(pairs: seq<(Budget, Category)>, m: map<Option<string>, int>): (rows: seq<BudgetComparison>)
    ensures |rows| == |pairs|
    ensures forall i :: 0 <= i < |pairs| ==>
      rows[i] == BudgetComparison(pairs[i].1.fields.name, pairs[i].0.fields.amount,
                                  Actual(m, pairs[i].0.fields.categoryId), pairs[i].1.fields.color)
  {
    seq(|pairs|, i requires 0 <= i < |pairs| =>
      BudgetComparison(pairs[i].1.fields.name, pairs[i].0.fields.amount,
                       Actual(m, pairs[i].0.fields.categoryId), pairs[i].1.fields.color))
  }

  /** A monthly budget and the category its categoryId names. */
  predicate Joined(b: Budget, c: Category) {
    b.fields.period == Monthly && IdToString(c.id) == b.fields.categoryId
  }

  /** The row for budget `b` and its category `c`: budgeted amount and this month's spending on the category. */
  function RowOf(b: Budget, c: Category, txs: seq<Transaction>, now: Instant): BudgetComparison {
    BudgetComparison(c.fields.name, b.fields.amount, Spent(txs, now, b.fields.categoryId), c.fields.color)
  }

  lemma RowsAreRowOf(pairs: seq<(Budget, Category)>, txs: seq<Transaction>, now: Instant)
    ensures var rows := ComparisonRows(pairs, SpendingMap(GroupSum(SpendingItems(txs, now))));
      forall i :: 0 <= i < |pairs| ==> rows[i] == RowOf(pairs[i].0, pairs[i].1, txs, now)
  {
    forall i | 0 <= i < |pairs| ensures
      Actual(SpendingMap(GroupSum(SpendingItems(txs, now))), pairs[i].0.fields.categoryId)
        == Spent(txs, now, pairs[i].0.fields.categoryId)
    {
      ActualIsSpent(txs, now, pairs[i].0.fields.categoryId);
    }
  }

  /**
   * The budget-versus-actual rows: exactly one row for each monthly budget and
   * the category it names, carrying the budgeted amount and that category's
   * spending in the current month.
   */
  function Comparison(bs: seq<Budget>, cats: seq<Category>, txs: seq<Transaction>, now: Instant): (rows: seq<BudgetComparison>)
    ensures forall row :: row in rows ==>
      exists b, c :: b in bs && c in cats && Joined(b, c) && row == RowOf(b, c, txs, now)
    ensures forall b, c :: b in bs && c in cats && Joined(b, c) ==> RowOf(b, c, txs, now) in rows
    ensures |rows| == |JoinById(bs, cats)|
    ensures forall i :: 0 <= i < |rows| ==> rows[i] == RowOf(JoinById(bs, cats)[i].0, JoinById(bs, cats)[i].1, txs, now)
  {
    var pairs := JoinById(bs, cats);
    var rows := ComparisonRows(pairs, SpendingMap(GroupSum(SpendingItems(txs, now))));
    RowsAreRowOf(pairs, txs, now);
    forall row | row in rows ensures exists b, c :: b in bs && c in cats && Joined(b, c) && row == RowOf(b, c, txs, now) {
      var i :| 0 <= i < |rows| && rows[i] == row;
      assert (pairs[i].0, pairs[i].1) in pairs;
    }
    forall b, c | b in bs && c in cats && Joined(b, c) ensures RowOf(b, c, txs, now) in rows {
      assert (b, c) in pairs;
      var i :| 0 <= i < |pairs| && pairs[i] == (b, c);
      assert rows[i] in rows;
    }
    rows
  }

  /** getBudgetComparison, with the join and the window corrected; nothing when the store fails. */
  method GetBudgetComparison(db: Database, now: Instant) returns (r: seq<BudgetComparison>)
    ensures !db.reachable ==> r == []
    ensures db.reachable ==> r == Comparison(db.budgets, db.categories, db.transactions, now)
  {
    if !db.reachable {
      return [];
    }
    r := Comparison(db.budgets, db.categories, db.transactions, now);
  }
}
