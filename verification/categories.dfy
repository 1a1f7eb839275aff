/**
 * The category repository and the category-expenses report: schema
 * validation, create / list / get / update / delete on the categories
 * collection, and the join of transactions with their categories that feeds
 * the pie chart.
 */
module Categories {
  import opened Wrappers
  import opened Values
  import opened Collection
  import opened Grouping
  import opened Models

  // ---------------------------------------------------------------------------
  // Schema
  // ---------------------------------------------------------------------------

  datatype CategoryForm = CategoryForm(name: string, color: string, icon: string)

  const NameRequired := "Name is required"
  const ColorRequired := "Color is required"
  const IconRequired := "Icon is required"

  const Created := "Category created successfully"
  const CreateFailed := "Failed to create category"
  const Updated := "Category updated successfully"
  const UpdateFailed := "Failed to update category"
  const Deleted := "Category deleted successfully"
  const DeleteFailed := "Failed to delete category"

  /** `categorySchema.parse`: name, color and icon all non-empty; the first empty one names the error. */
  function ValidateCategory(form: CategoryForm): (r: Result<CategoryFields>)
    ensures r.Ok? <==> form.name != "" && form.color != "" && form.icon != ""
    ensures r.Ok? ==> r.value == CategoryFields(form.name, form.color, form.icon) && WellFormedCategory(r.value)
    ensures r.Err? && form.name == "" ==> r.message == NameRequired
    ensures r.Err? && form.name != "" && form.color == "" ==> r.message == ColorRequired
    ensures r.Err? && form.name != "" && form.color != "" ==> r.message == IconRequired
  {
    if form.name == "" then Err(NameRequired)
    else if form.color == "" then Err(ColorRequired)
    else if form.icon == "" then Err(IconRequired)
    else Ok(CategoryFields(form.name, form.color, form.icon))
  }

  // ---------------------------------------------------------------------------
  // Repository actions
  // ---------------------------------------------------------------------------

  /** createCategory; `newId` is the `_id` the driver assigns. */
  method CreateCategory(db: Database, form: CategoryForm, newId: ObjectId) returns (r: ActionResult)
    requires db.Valid()
    modifies db`categories
    ensures db.Valid()
    ensures ValidateCategory(form).Err? ==> r == ActionResult(false, ValidateCategory(form).message)
    ensures ValidateCategory(form).Ok? ==> r.message == (if r.success then Created else CreateFailed)
    ensures r.success <==> ValidateCategory(form).Ok? && db.reachable && !HasId(old(db.categories), newId)
    ensures r.success ==> db.categories == old(db.categories) + [Doc(newId, ValidateCategory(form).value)]
    ensures !r.success ==> db.categories == old(db.categories)
  {
    var v := ValidateCategory(form);
    if v.Err? {
      return ActionResult(false, v.message);
    }
    if !db.reachable {
      return ActionResult(false, CreateFailed);
    }
    var inserted := InsertOne(db.categories, newId, v.value);
    if inserted.None? {
      return ActionResult(false, CreateFailed);
    }
    assert inserted.value == db.categories + [Doc(newId, v.value)];
    db.categories := inserted.value;
    r := ActionResult(true, Created);
  }

  /** getCategories: every stored category in natural order; nothing when the store fails. */
  method GetCategories(db: Database) returns (r: seq<Category>)
    ensures db.reachable ==> r == db.categories
    ensures !db.reachable ==> r == []
  {
    if !db.reachable {
      return [];
    }
    r := db.categories;
  }

  /** getCategoryById: the category with that `_id`, or null when the id is malformed, unknown, or the store fails. */
  method GetCategoryById(db: Database, id: string) returns (r: Option<Category>)
    ensures r.Some? <==> db.reachable && ParseObjectId(id).Some? && HasId(db.categories, ParseObjectId(id).value)
    ensures r.Some? ==> r.value in db.categories && r.value.id == ParseObjectId(id).value
  {
    if !db.reachable {
      return None;
    }
    var oid := ParseObjectId(id);
    if oid.None? {
      return None;
    }
    r := FindOne(db.categories, oid.value);
  }

  /** updateCategory: the category with that `_id` gets the validated fields; the others are unchanged. */
  method UpdateCategory(db: Database, id: string, form: CategoryForm) returns (r: ActionResult)
    requires db.Valid()
    modifies db`categories
    ensures db.Valid()
    ensures ValidateCategory(form).Err? ==> r == ActionResult(false, ValidateCategory(form).message)
    ensures ValidateCategory(form).Ok? ==> r.message == (if r.success then Updated else UpdateFailed)
    ensures r.success <==> ValidateCategory(form).Ok? && db.reachable && ParseObjectId(id).Some?
    ensures r.success ==> |db.categories| == |old(db.categories)|
    ensures r.success ==> forall j :: 0 <= j < |db.categories| ==>
      db.categories[j] == if old(db.categories)[j].id == ParseObjectId(id).value
                          then Doc(old(db.categories)[j].id, ValidateCategory(form).value)
                          else old(db.categories)[j]
    ensures !r.success ==> db.categories == old(db.categories)
  {
    var v := ValidateCategory(form);
    if v.Err? {
      return ActionResult(false, v.message);
    }
    var oid := ParseObjectId(id);
    if !db.reachable || oid.None? {
      return ActionResult(false, UpdateFailed);
    }
    var updated := UpdateOne(db.categories, oid.value, v.value);
    assert forall c :: c in updated ==> c in db.categories || c.fields == v.value by {
      forall c | c in updated ensures c in db.categories || c.fields == v.value {
        var j :| 0 <= j < |updated| && updated[j] == c;
        if db.categories[j].id != oid.value { assert db.categories[j] == c; }
      }
    }
    db.categories := updated;
    r := ActionResult(true, Updated);
  }

  /**
   * deleteCategory: removes the category with that `_id`. Nothing cascades: the
   * transactions and budgets that reference it stay as they are.
   */
  method DeleteCategory(db: Database, id: string) returns (r: ActionResult)
    requires db.Valid()
    modifies db`categories
    ensures db.Valid()
    ensures r.success <==> db.reachable && ParseObjectId(id).Some?
    ensures r.message == (if r.success then Deleted else DeleteFailed)
    ensures r.success ==> db.categories == DeleteOne(old(db.categories), ParseObjectId(id).value)
    ensures r.success ==> forall c :: c in db.categories ==> c in old(db.categories) && c.id != ParseObjectId(id).value
    ensures r.success ==> forall c :: c in old(db.categories) && c.id != ParseObjectId(id).value ==> c in db.categories
    ensures !r.success ==> db.categories == old(db.categories)
    ensures db.transactions == old(db.transactions) && db.budgets == old(db.budgets)
  {
    var oid := ParseObjectId(id);
    if !db.reachable || oid.None? {
      return ActionResult(false, DeleteFailed);
    }
    db.categories := DeleteOne(db.categories, oid.value);
    r := ActionResult(true, Deleted);
  }

  // ---------------------------------------------------------------------------
  // getCategoryExpenses
  // ---------------------------------------------------------------------------

  const Uncategorized := "Uncategorized"
  const FallbackColor := "#999999"

  /** The `$group` key: the stored reference, and the joined name and color (or their fallbacks). */
  datatype ExpenseKey = ExpenseKey(categoryId: Option<CategoryRef>, name: string, color: string)

  /**
   * `$lookup` followed by `$unwind` with `preserveNullAndEmptyArrays`: one
   * document per matching category, or one without a category when none
   * matches; then the key the `$group` stage computes for each.
   */
  function Unwound(t: Transaction, cats: seq<Category>): (items: seq<(ExpenseKey, int)>)
    ensures Lookup(cats, t.fields.categoryId) == [] ==>
      items == [(ExpenseKey(t.fields.categoryId, Uncategorized, FallbackColor), t.fields.amount)]
    ensures forall c :: c in Lookup(cats, t.fields.categoryId) ==>
      (ExpenseKey(t.fields.categoryId, c.fields.name, c.fields.color), t.fields.amount) in items
    ensures |items| == if Lookup(cats, t.fields.categoryId) == [] then 1 else |Lookup(cats, t.fields.categoryId)|
  {
    var found := Lookup(cats, t.fields.categoryId);
    if found == [] then
      [(ExpenseKey(t.fields.categoryId, Uncategorized, FallbackColor), t.fields.amount)]
    else
      var items := seq(|found|, i requires 0 <= i < |found| =>
        (ExpenseKey(t.fields.categoryId, found[i].fields.name, found[i].fields.color), t.fields.amount));
      assert forall i :: 0 <= i < |found| ==> items[i].0.name == found[i].fields.name;
      items
  }

  /** Everything that reaches the `$group` stage, transaction by transaction. */
  function JoinItems(txs: seq<Transaction>, cats: seq<Category>): seq<(ExpenseKey, int)> {
    if txs == [] then []
    else JoinItems(txs[..|txs| - 1], cats) + Unwound(txs[|txs| - 1], cats)
  }

  /**
   * The key a transaction is counted under, found directly: the category whose
   * `_id` equals the stored reference, or the fallback name and color when
   * there is none (no reference, a string reference, or a deleted category).
   */
  function ExpenseKeyOf(t: Transaction, cats: seq<Category>): (k: ExpenseKey)
    ensures k.categoryId == t.fields.categoryId
    ensures (forall c :: c in cats ==> t.fields.categoryId != Some(Oid(c.id))) ==>
      k.name == Uncategorized && k.color == FallbackColor
    ensures UniqueIds(cats) ==> forall c :: c in cats && t.fields.categoryId == Some(Oid(c.id)) ==>
      k.name == c.fields.name && k.color == c.fields.color
  {
    var fallback := ExpenseKey(t.fields.categoryId, Uncategorized, FallbackColor);
    match t.fields.categoryId
    case Some(Oid(id)) =>
      (match IndexOf(cats, id)
       case None => fallback
       case Some(i) =>
         assert forall c :: c in cats && c.id == id && UniqueIds(cats) ==> c == cats[i] by {
           forall c | c in cats && c.id == id && UniqueIds(cats) ensures c == cats[i] {
             var j :| 0 <= j < |cats| && cats[j] == c;
           }
         }
         ExpenseKey(t.fields.categoryId, cats[i].fields.name, cats[i].fields.color))
    case _ => fallback
  }

  /** With unique category ids, unwinding keeps exactly one document per transaction, under its key. */
  lemma UnwoundUnique(t: Transaction, cats: seq<Category>)
    requires UniqueIds(cats)
    ensures Unwound(t, cats) == [(ExpenseKeyOf(t, cats), t.fields.amount)]
  {
    LookupAtMostOne(cats, t.fields.categoryId);
    var found := Lookup(cats, t.fields.categoryId);
    if found != [] {
      assert found[0] in found;
    }
  }

  /**
   * The input to the `$group` stage when category ids are unique. This is a
   * definition, element by element; `JoinItemsKeyed`, `KeyedItemsTotal` and
   * `KeyedItemKeys` state its properties.
   */
  function KeyedItems(txs: seq<Transaction>, cats: seq<Category>): (items: seq<(ExpenseKey, int)>)
    ensures |items| == |txs|
    ensures forall i :: 0 <= i < |txs| ==> items[i] == (ExpenseKeyOf(txs[i], cats), txs[i].fields.amount)
  {
    seq(|txs|, i requires 0 <= i < |txs| => (ExpenseKeyOf(txs[i], cats), txs[i].fields.amount))
  }

  lemma {:induction false} JoinItemsKeyed(txs: seq<Transaction>, cats: seq<Category>)
    requires UniqueIds(cats)
    ensures JoinItems(txs, cats) == KeyedItems(txs, cats)
  {
    if txs != [] {
      var n := |txs| - 1;
      JoinItemsKeyed(txs[..n], cats);
      UnwoundUnique(txs[n], cats);
      KeyedItemsSnoc(txs, cats);
    }
  }

  lemma KeyedItemsSnoc(txs: seq<Transaction>, cats: seq<Category>)
    requires txs != []
    ensures KeyedItems(txs, cats) ==
      KeyedItems(txs[..|txs| - 1], cats) + [(ExpenseKeyOf(txs[|txs| - 1], cats), txs[|txs| - 1].fields.amount)]
  {
    var n := |txs| - 1;
    var a, b := KeyedItems(txs, cats), KeyedItems(txs[..n], cats) + [(ExpenseKeyOf(txs[n], cats), txs[n].fields.amount)];
    assert |a| == |b|;
    forall i | 0 <= i < |a| ensures a[i] == b[i] {
      if i < n { assert txs[..n][i] == txs[i]; }
    }
  }

  lemma {:induction false} KeyedItemsTotal(txs: seq<Transaction>, cats: seq<Category>)
    ensures Total(KeyedItems(txs, cats)) == TotalAmount(txs)
  {
    if txs != [] {
      var n := |txs| - 1;
      assert KeyedItems(txs, cats)[..n] == KeyedItems(txs[..n], cats);
      KeyedItemsTotal(txs[..n], cats);
    }
  }

  lemma KeyedItemKeys(txs: seq<Transaction>, cats: seq<Category>)
    ensures forall k :: k in ItemKeys(KeyedItems(txs, cats)) <==> exists t :: t in txs && ExpenseKeyOf(t, cats) == k
  {
    var items := KeyedItems(txs, cats);
    forall k | k in ItemKeys(items) ensures exists t :: t in txs && ExpenseKeyOf(t, cats) == k {
      var p :| p in items && p.0 == k;
      var i :| 0 <= i < |items| && items[i] == p;
      assert txs[i] in txs;
    }
    forall k | exists t :: t in txs && ExpenseKeyOf(t, cats) == k ensures k in ItemKeys(items) {
      var t :| t in txs && ExpenseKeyOf(t, cats) == k;
      var i :| 0 <= i < |txs| && txs[i] == t;
      assert items[i] in items;
    }
  }

  /**
   * The output of the `$group` stage. With unique category ids: one group per
   * key that some transaction is counted under and no other, each holding the
   * sum of the amounts counted under it, all groups together totalling every
   * transaction's amount.
   */
  function CategoryGroups(txs: seq<Transaction>, cats: seq<Category>): (gs: seq<Group<ExpenseKey>>)
    ensures DistinctKeys(gs)
    ensures UniqueIds(cats) ==> forall g :: g in gs ==> g.total == SumOf(KeyedItems(txs, cats), g.key)
    ensures UniqueIds(cats) ==> forall k :: k in Keys(gs) <==> exists t :: t in txs && ExpenseKeyOf(t, cats) == k
    ensures UniqueIds(cats) ==> GroupsTotal(gs) == TotalAmount(txs)
  {
    var gs := GroupSum(JoinItems(txs, cats));
    if UniqueIds(cats) then
      JoinedGroups(txs, cats);
      gs
    else
      gs
  }

  lemma JoinedGroups(txs: seq<Transaction>, cats: seq<Category>)
    requires UniqueIds(cats)
    ensures forall g :: g in GroupSum(JoinItems(txs, cats)) ==>
      g.total == SumOf(KeyedItems(txs, cats), g.key) && g.key in ItemKeys(KeyedItems(txs, cats))
    ensures Keys(GroupSum(JoinItems(txs, cats))) == ItemKeys(KeyedItems(txs, cats))
    ensures GroupsTotal(GroupSum(JoinItems(txs, cats))) == TotalAmount(txs)
  {
    JoinItemsKeyed(txs, cats);
    KeyedItemKeys(txs, cats);
    var items := KeyedItems(txs, cats);
    forall g | g in GroupSum(items) ensures g.total == SumOf(items, g.key) && g.key in ItemKeys(items) {
      GroupTotalIsSum(items, g);
    }
    KeyedItemsTotal(txs, cats);
  }

  function RowsTotal(rows: seq<CategoryExpense>): int {
    if rows == [] then 0 else rows[0].amount + RowsTotal(rows[1..])
  }

  /** The `$project` stage: the joined name, the sum and the color of each group. */
  function Projected(gs: seq<Group<ExpenseKey>>): (rows: seq<CategoryExpense>)
    ensures |rows| == |gs|
    ensures forall i :: 0 <= i < |gs| ==> rows[i] == CategoryExpense(gs[i].key.name, gs[i].total, gs[i].key.color)
    ensures RowsTotal(rows) == GroupsTotal(gs)
  {
    if gs == [] then []
    else
      var rows := [CategoryExpense(gs[0].key.name, gs[0].total, gs[0].key.color)] + Projected(gs[1..]);
      assert rows[1..] == Projected(gs[1..]);
      rows
  }

  /** getCategoryExpenses' result: one row per group, the rows together totalling every amount. */
  function CategoryExpenses(txs: seq<Transaction>, cats: seq<Category>): (rows: seq<CategoryExpense>)
    ensures |rows| == |CategoryGroups(txs, cats)|
    ensures forall i :: 0 <= i < |rows| ==>
      rows[i] == CategoryExpense(CategoryGroups(txs, cats)[i].key.name, CategoryGroups(txs, cats)[i].total,
                                 CategoryGroups(txs, cats)[i].key.color)
    ensures UniqueIds(cats) ==> RowsTotal(rows) == TotalAmount(txs)
  {
    Projected(CategoryGroups(txs, cats))
  }

  /** getCategoryExpenses: the rows, or nothing when the store fails. */
  method GetCategoryExpenses(db: Database) returns (r: seq<CategoryExpense>)
    requires db.Valid()
    ensures !db.reachable ==> r == []
    ensures db.reachable ==> r == CategoryExpenses(db.transactions, db.categories)
    ensures db.reachable ==> RowsTotal(r) == TotalAmount(db.transactions)
  {
    if !db.reachable {
      return [];
    }
    r := CategoryExpenses(db.transactions, db.categories);
  }

  /**
   * The group key includes the stored reference, so two transactions whose
   * references differ and match no category (no reference, a string
   * reference, or the ids of two deleted categories) are counted in two
   * separate "Uncategorized" rows.
   */
  lemma UncategorizedRowsSplit(txs: seq<Transaction>, cats: seq<Category>, t1: Transaction, t2: Transaction)
    requires UniqueIds(cats)
    requires t1 in txs && t2 in txs
    requires t1.fields.categoryId != t2.fields.categoryId
    requires forall c :: c in cats ==> t1.fields.categoryId != Some(Oid(c.id)) && t2.fields.categoryId != Some(Oid(c.id))
    ensures exists i, j ::
              && 0 <= i < j < |CategoryExpenses(txs, cats)|
              && CategoryExpenses(txs, cats)[i].category == Uncategorized
              && CategoryExpenses(txs, cats)[j].category == Uncategorized
  {
    var gs := CategoryGroups(txs, cats);
    var rows := CategoryExpenses(txs, cats);
    var k1, k2 := ExpenseKeyOf(t1, cats), ExpenseKeyOf(t2, cats);
    assert k1 in Keys(gs) && k2 in Keys(gs);
    KeysAre(gs);
    var i1 :| 0 <= i1 < |gs| && gs[i1].key == k1;
    var i2 :| 0 <= i2 < |gs| && gs[i2].key == k2;
    assert rows[i1].category == Uncategorized && rows[i2].category == Uncategorized;
    if i1 < i2 {
      assert 0 <= i1 < i2 < |rows|;
    } else {
      assert 0 <= i2 < i1 < |rows|;
    }
  }

  /**
   * Deleting a category moves the spending that referenced it to an
   * "Uncategorized" row: nothing cascades, and the dangling reference joins
   * nothing.
   */
  lemma DeletedCategoryUncategorized(cats: seq<Category>, id: ObjectId, t: Transaction)
    requires UniqueIds(cats)
    requires t.fields.categoryId == Some(Oid(id))
    ensures ExpenseKeyOf(t, DeleteOne(cats, id)) == ExpenseKey(Some(Oid(id)), Uncategorized, FallbackColor)
  {
    var rest := DeleteOne(cats, id);
    forall c | c in rest ensures t.fields.categoryId != Some(Oid(c.id)) {
      assert c.id != id;
    }
  }
}
