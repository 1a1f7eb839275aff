/**
 * The transaction repository and the monthly-expenses report: schema
 * validation, create / list / get / update / delete on the transactions
 * collection, and the (year, month) grouping that feeds the monthly chart.
 */
module Transactions {
  import opened Wrappers
  import opened Values
  import opened Collection
  import opened Grouping
  import opened Models

  // ---------------------------------------------------------------------------
  // Schema
  // ---------------------------------------------------------------------------

  /** The form's date entry: absent (the clock's time is used), a parsed date, or text that is no date. */
  datatype DateInput = Blank | Given(instant: Instant) | Unparseable

  /** The submitted form; an empty categoryId means "no category". */
  datatype TransactionForm = TransactionForm(amount: int, date: DateInput, description: string, categoryId: string)

  /** What the schema accepts. */
  datatype ValidTransaction = ValidTransaction(amount: int, date: Instant, description: string, categoryId: Option<string>)

  const AmountRequired := "Amount must be greater than 0"
  const InvalidDate := "Invalid date"
  const DescriptionRequired := "Description is required"

  const Created := "Transaction created successfully"
  const CreateFailed := "Failed to create transaction"
  const Updated := "Transaction updated successfully"
  const UpdateFailed := "Failed to update transaction"
  const Deleted := "Transaction deleted successfully"
  const DeleteFailed := "Failed to delete transaction"

  /**
   * `transactionSchema.parse`: amount at least 0.01, a real date (the clock's
   * `now` when none was sent) and a non-empty description. On failure the
   * message is that of the first failing field in schema order.
   */
  function ValidateTransaction(form: TransactionForm, now: Instant): (r: Result<ValidTransaction>)
    ensures r.Ok? <==> form.amount >= MinAmount && !form.date.Unparseable? && form.description != ""
    ensures r.Err? && form.amount < MinAmount ==> r.message == AmountRequired
    ensures r.Err? && form.amount >= MinAmount && form.date.Unparseable? ==> r.message == InvalidDate
    ensures r.Err? && form.amount >= MinAmount && !form.date.Unparseable? ==> r.message == DescriptionRequired
    ensures r.Ok? ==> r.value.amount == form.amount && r.value.description == form.description
    ensures r.Ok? ==> r.value.date == (if form.date.Given? then form.date.instant else now)
    ensures r.Ok? ==> (r.value.categoryId.None? <==> form.categoryId == "")
    ensures r.Ok? && r.value.categoryId.Some? ==> r.value.categoryId.value == form.categoryId
  {
    if form.amount < MinAmount then Err(AmountRequired)
    else if form.date.Unparseable? then Err(InvalidDate)
    else if form.description == "" then Err(DescriptionRequired)
    else
      var date := if form.date.Given? then form.date.instant else now;
      Ok(ValidTransaction(form.amount, date, form.description,
                          if form.categoryId == "" then None else Some(form.categoryId)))
  }

  /**
   * The document createTransaction inserts: the validated fields, with the
   * categoryId converted to an ObjectId. A categoryId that is no ObjectId makes
   * the conversion throw (None).
   */
  function DocumentToInsert(v: ValidTransaction): (r: Option<TransactionFields>)
    ensures r.Some? <==> v.categoryId.None? || ParseObjectId(v.categoryId.value).Some?
    ensures r.Some? ==> r.value.amount == v.amount && r.value.date == v.date && r.value.description == v.description
    ensures r.Some? ==> (r.value.categoryId.None? <==> v.categoryId.None?)
    ensures r.Some? && v.categoryId.Some? ==> r.value.categoryId == Some(Oid(ParseObjectId(v.categoryId.value).value))
  {
    match v.categoryId
    case None => Some(TransactionFields(v.amount, v.date, v.description, None))
    case Some(s) =>
      match ParseObjectId(s)
      case None => None
      case Some(id) => Some(TransactionFields(v.amount, v.date, v.description, Some(Oid(id))))
  }

  /**
   * A category id in printed form survives the conversion: the stored ObjectId
   * prints as the string the form sent.
   */
  lemma CreateKeepsPrintedId(v: ValidTransaction)
    requires v.categoryId.Some?
    requires |v.categoryId.value| == 24 && forall i :: 0 <= i < 24 ==> IsLowerHexDigit(v.categoryId.value[i])
    ensures DocumentToInsert(v).Some?
    ensures RefToString(DocumentToInsert(v).value.categoryId) == v.categoryId
  {
    ParsePrintedForm(v.categoryId.value);
  }

  /**
   * The fields updateTransaction `$set`s: the validated fields as they are, so
   * the categoryId stays a string (an empty one is stored as null). A string
   * never equals a category's ObjectId, so the edited transaction joins no
   * category.
   */
  function UpdateSet(v: ValidTransaction): (f: TransactionFields)
    ensures f.amount == v.amount && f.date == v.date && f.description == v.description
    ensures f.categoryId.None? <==> v.categoryId.None?
    ensures f.categoryId.Some? ==> f.categoryId.value.Str? && RefToString(f.categoryId) == v.categoryId
    ensures forall cats :: Lookup(cats, f.categoryId) == []
  {
    TransactionFields(v.amount, v.date, v.description,
                      if v.categoryId.Some? then Some(Str(v.categoryId.value)) else None)
  }

  // ---------------------------------------------------------------------------
  // Repository actions
  // ---------------------------------------------------------------------------

  /**
   * createTransaction. `now` is the clock's reading; `newId` is the `_id` the
   * driver assigns, and one that is already taken is a duplicate-key failure.
   */
  method CreateTransaction(db: Database, form: TransactionForm, now: Instant, newId: ObjectId) returns (r: ActionResult)
    requires db.Valid()
    modifies db`transactions
    ensures db.Valid()
    ensures ValidateTransaction(form, now).Err? ==> r == ActionResult(false, ValidateTransaction(form, now).message)
    ensures ValidateTransaction(form, now).Ok? ==> r.message == (if r.success then Created else CreateFailed)
    ensures r.success <==>
      && ValidateTransaction(form, now).Ok?
      && DocumentToInsert(ValidateTransaction(form, now).value).Some?
      && db.reachable
      && !HasId(old(db.transactions), newId)
    ensures r.success ==>
      db.transactions == old(db.transactions) + [Doc(newId, DocumentToInsert(ValidateTransaction(form, now).value).value)]
    ensures !r.success ==> db.transactions == old(db.transactions)
  {
    var v := ValidateTransaction(form, now);
    if v.Err? {
      return ActionResult(false, v.message);
    }
    var doc := DocumentToInsert(v.value);
    if doc.None? || !db.reachable {
      return ActionResult(false, CreateFailed);
    }
    var inserted := InsertOne(db.transactions, newId, doc.value);
    if inserted.None? {
      return ActionResult(false, CreateFailed);
    }
    assert inserted.value == db.transactions + [Doc(newId, doc.value)];
    db.transactions := inserted.value;
    r := ActionResult(true, Created);
  }

  /** getTransactions: every stored transaction, newest first; nothing when the store fails. */
  method GetTransactions(db: Database) returns (r: seq<Transaction>)
    ensures !db.reachable ==> r == []
    ensures db.reachable ==> multiset(r) == multiset(db.transactions) && NewestFirstOrder(r)
  {
    if !db.reachable {
      return [];
    }
    r := NewestFirst(db.transactions);
  }

  /** getTransactionById: the transaction with that `_id`, or null when the id is malformed, unknown, or the store fails. */
  method GetTransactionById(db: Database, id: string) returns (r: Option<Transaction>)
    ensures r.Some? <==> db.reachable && ParseObjectId(id).Some? && HasId(db.transactions, ParseObjectId(id).value)
    ensures r.Some? ==> r.value in db.transactions && r.value.id == ParseObjectId(id).value
  {
    if !db.reachable {
      return None;
    }
    var oid := ParseObjectId(id);
    if oid.None? {
      return None;
    }
    r := FindOne(db.transactions, oid.value);
  }

  /**
   * updateTransaction: after validation, the document with that `_id` gets the
   * validated fields (categoryId as a string); every other document is left as
   * it was. No matching document is still a success.
   */
  method UpdateTransaction(db: Database, id: string, form: TransactionForm, now: Instant) returns (r: ActionResult)
    requires db.Valid()
    modifies db`transactions
    ensures db.Valid()
    ensures ValidateTransaction(form, now).Err? ==> r == ActionResult(false, ValidateTransaction(form, now).message)
    ensures ValidateTransaction(form, now).Ok? ==> r.message == (if r.success then Updated else UpdateFailed)
    ensures r.success <==> ValidateTransaction(form, now).Ok? && db.reachable && ParseObjectId(id).Some?
    ensures r.success ==> |db.transactions| == |old(db.transactions)|
    ensures r.success ==> forall j :: 0 <= j < |db.transactions| ==>
      db.transactions[j] == if old(db.transactions)[j].id == ParseObjectId(id).value
                            then Doc(old(db.transactions)[j].id, UpdateSet(ValidateTransaction(form, now).value))
                            else old(db.transactions)[j]
    ensures !r.success ==> db.transactions == old(db.transactions)
  {
    var v := ValidateTransaction(form, now);
    if v.Err? {
      return ActionResult(false, v.message);
    }
    var oid := ParseObjectId(id);
    if !db.reachable || oid.None? {
      return ActionResult(false, UpdateFailed);
    }
    var updated := UpdateOne(db.transactions, oid.value, UpdateSet(v.value));
    assert forall t :: t in updated ==> t in db.transactions || t.fields == UpdateSet(v.value) by {
      forall t | t in updated ensures t in db.transactions || t.fields == UpdateSet(v.value) {
        var j :| 0 <= j < |updated| && updated[j] == t;
        if db.transactions[j].id != oid.value { assert db.transactions[j] == t; }
      }
    }
    db.transactions := updated;
    r := ActionResult(true, Updated);
  }

  /** deleteTransaction: removes the document with that `_id`; success even when none matched. */
  method DeleteTransaction(db: Database, id: string) returns (r: ActionResult)
    requires db.Valid()
    modifies db`transactions
    ensures db.Valid()
    ensures r.success <==> db.reachable && ParseObjectId(id).Some?
    ensures r.message == (if r.success then Deleted else DeleteFailed)
    ensures r.success ==> db.transactions == DeleteOne(old(db.transactions), ParseObjectId(id).value)
    ensures r.success ==> forall t :: t in db.transactions ==> t in old(db.transactions) && t.id != ParseObjectId(id).value
    ensures r.success ==> forall t :: t in old(db.transactions) && t.id != ParseObjectId(id).value ==> t in db.transactions
    ensures !r.success ==> db.transactions == old(db.transactions)
  {
    var oid := ParseObjectId(id);
    if !db.reachable || oid.None? {
      return ActionResult(false, DeleteFailed);
    }
    db.transactions := DeleteOne(db.transactions, oid.value);
    r := ActionResult(true, Deleted);
  }

  // ---------------------------------------------------------------------------
  // sort({date: -1})
  // ---------------------------------------------------------------------------

  predicate NewestFirstOrder(s: seq<Transaction>) {
    forall i, j :: 0 <= i < j < |s| ==> !Before(s[i].fields.date, s[j].fields.date)
  }

  lemma NotBeforeTransitive(a: Instant, b: Instant, c: Instant)
    requires !Before(a, b) && !Before(b, c)
    ensures !Before(a, c)
  {
  }

  /** Putting in front a transaction no older than the rest keeps the order. */
  lemma {:induction false} NewestFirstCons(t: Transaction, s: seq<Transaction>)
    requires NewestFirstOrder(s)
    requires forall u :: u in s ==> !Before(t.fields.date, u.fields.date)
    ensures NewestFirstOrder([t] + s)
  {
    var r := [t] + s;
    forall i, j | 0 <= i < j < |r| ensures !Before(r[i].fields.date, r[j].fields.date) {
      assert r[j] == s[j - 1];
      if i > 0 { assert r[i] == s[i - 1]; } else { assert s[j - 1] in s; }
    }
  }

  function InsertByDate(t: Transaction, s: seq<Transaction>): (r: seq<Transaction>)
    requires NewestFirstOrder(s)
    ensures NewestFirstOrder(r)
    ensures multiset(r) == multiset(s) + multiset{t}
  {
    if s == [] || !Before(t.fields.date, s[0].fields.date) then
      forall u | u in s ensures !Before(t.fields.date, u.fields.date) {
        var j :| 0 <= j < |s| && s[j] == u;
        if j > 0 { NotBeforeTransitive(t.fields.date, s[0].fields.date, u.fields.date); }
      }
      NewestFirstCons(t, s);
      [t] + s
    else
      var rest := InsertByDate(t, s[1..]);
      assert s == [s[0]] + s[1..];
      forall u | u in rest ensures !Before(s[0].fields.date, u.fields.date) {
        assert u in multiset(rest);
        if u != t {
          var j :| 0 <= j < |s[1..]| && s[1..][j] == u;
          assert s[j + 1] == u;
        } else {
          BeforeIsStrictTotalOrder(t.fields.date, s[0].fields.date, t.fields.date);
        }
      }
      NewestFirstCons(s[0], rest);
      [s[0]] + rest
  }

  /** The `date: -1` sort: newest first, a permutation of the input. */
  function NewestFirst(s: seq<Transaction>): (r: seq<Transaction>)
    ensures NewestFirstOrder(r)
    ensures multiset(r) == multiset(s)
  {
    if s == [] then []
    else
      assert s == [s[0]] + s[1..];
      InsertByDate(s[0], NewestFirst(s[1..]))
  }

  // ---------------------------------------------------------------------------
  // getMonthlyExpenses
  // ---------------------------------------------------------------------------

  /** The `$group` key: `$year` and `$month` of the transaction's date. */
  datatype YearMonth = YearMonth(year: int, month: Month)

  function MonthOf(t: Transaction): YearMonth {
    YearMonth(t.fields.date.year, t.fields.date.month)
  }

  /** The `$sort` order on keys: by year, then by month. */
  predicate Earlier(a: YearMonth, b: YearMonth) {
    a.year < b.year || (a.year == b.year && a.month < b.month)
  }

  /**
   * What reaches the `$group` stage: every transaction's month and amount. This
   * is a definition, element by element; `MonthItemsTotal` and `MonthItemKeys`
   * state its properties.
   */
  function MonthItems(txs: seq<Transaction>): (items: seq<(YearMonth, int)>)
    ensures |items| == |txs|
    ensures forall i :: 0 <= i < |txs| ==> items[i] == (MonthOf(txs[i]), txs[i].fields.amount)
  {
    seq(|txs|, i requires 0 <= i < |txs| => (MonthOf(txs[i]), txs[i].fields.amount))
  }

  lemma {:induction false} MonthItemsTotal(txs: seq<Transaction>)
    ensures Total(MonthItems(txs)) == TotalAmount(txs)
  {
    if txs != [] {
      var n := |txs| - 1;
      assert MonthItems(txs)[..n] == MonthItems(txs[..n]);
      MonthItemsTotal(txs[..n]);
    }
  }

  lemma MonthItemKeys(txs: seq<Transaction>)
    ensures forall ym :: ym in ItemKeys(MonthItems(txs)) ==> exists t :: t in txs && MonthOf(t) == ym
    ensures forall t :: t in txs ==> MonthOf(t) in ItemKeys(MonthItems(txs))
  {
    var items := MonthItems(txs);
    forall ym | ym in ItemKeys(items) ensures exists t :: t in txs && MonthOf(t) == ym {
      var p :| p in items && p.0 == ym;
      var i :| 0 <= i < |items| && items[i] == p;
      assert txs[i] in txs;
    }
    forall t | t in txs ensures MonthOf(t) in ItemKeys(items) {
      var i :| 0 <= i < |txs| && txs[i] == t;
      assert items[i] in items;
    }
  }

  predicate Chronological(gs: seq<Group<YearMonth>>) {
    forall i, j :: 0 <= i < j < |gs| ==> Earlier(gs[i].key, gs[j].key)
  }

  /** Putting in front a group whose month precedes all the others keeps the order. */
  lemma {:induction false} ChronologicalCons(g: Group<YearMonth>, gs: seq<Group<YearMonth>>)
    requires Chronological(gs)
    requires forall h :: h in gs ==> Earlier(g.key, h.key)
    ensures Chronological([g] + gs)
  {
    var r := [g] + gs;
    forall i, j | 0 <= i < j < |r| ensures Earlier(r[i].key, r[j].key) {
      assert r[j] == gs[j - 1];
      if i > 0 { assert r[i] == gs[i - 1]; } else { assert gs[j - 1] in gs; }
    }
  }

  function InsertByMonth(g: Group<YearMonth>, gs: seq<Group<YearMonth>>): (r: seq<Group<YearMonth>>)
    requires Chronological(gs)
    requires forall h :: h in gs ==> h.key != g.key
    ensures Chronological(r)
    ensures multiset(r) == multiset(gs) + multiset{g}
    ensures GroupsTotal(r) == GroupsTotal(gs) + g.total
  {
    if gs == [] || Earlier(g.key, gs[0].key) then
      InsertInFront(g, gs);
      [g] + gs
    else
      ChronologicalTail(gs);
      assert gs[0] in gs;
      var rest := InsertByMonth(g, gs[1..]);
      InsertAfterFirst(g, gs, rest);
      [gs[0]] + rest
  }

  lemma ChronologicalTail(gs: seq<Group<YearMonth>>)
    requires gs != [] && Chronological(gs)
    ensures Chronological(gs[1..])
    ensures forall h :: h in gs[1..] ==> h in gs
  {
    assert forall i :: 0 <= i < |gs| - 1 ==> gs[1..][i] == gs[i + 1];
  }

  lemma InsertInFront(g: Group<YearMonth>, gs: seq<Group<YearMonth>>)
    requires Chronological(gs)
    requires gs == [] || Earlier(g.key, gs[0].key)
    ensures Chronological([g] + gs)
    ensures GroupsTotal([g] + gs) == GroupsTotal(gs) + g.total
  {
    forall h | h in gs ensures Earlier(g.key, h.key) {
      var j :| 0 <= j < |gs| && gs[j] == h;
    }
    ChronologicalCons(g, gs);
    assert ([g] + gs)[1..] == gs;
  }

  lemma InsertAfterFirst(g: Group<YearMonth>, gs: seq<Group<YearMonth>>, rest: seq<Group<YearMonth>>)
    requires gs != [] && Chronological(gs)
    requires !Earlier(g.key, gs[0].key) && g.key != gs[0].key
    requires Chronological(rest)
    requires multiset(rest) == multiset(gs[1..]) + multiset{g}
    requires GroupsTotal(rest) == GroupsTotal(gs[1..]) + g.total
    ensures Chronological([gs[0]] + rest)
    ensures multiset([gs[0]] + rest) == multiset(gs) + multiset{g}
    ensures GroupsTotal([gs[0]] + rest) == GroupsTotal(gs) + g.total
  {
    assert gs == [gs[0]] + gs[1..];
    forall h | h in rest ensures Earlier(gs[0].key, h.key) {
      assert h in multiset(rest);
      if h != g {
        var j :| 0 <= j < |gs[1..]| && gs[1..][j] == h;
        assert gs[j + 1] == h;
      }
    }
    ChronologicalCons(gs[0], rest);
    assert ([gs[0]] + rest)[1..] == rest;
  }

  /** The `$sort: {_id.year: 1, _id.month: 1}` stage over groups with distinct keys. */
  function SortByMonth(gs: seq<Group<YearMonth>>): (r: seq<Group<YearMonth>>)
    requires DistinctKeys(gs)
    ensures Chronological(r)
    ensures multiset(r) == multiset(gs)
    ensures GroupsTotal(r) == GroupsTotal(gs)
  {
    if gs == [] then []
    else
      assert DistinctKeys(gs[1..]);
      var rest := SortByMonth(gs[1..]);
      FirstKeyIsNew(gs, rest);
      var r := InsertByMonth(gs[0], rest);
      SplitFirst(gs);
      r
  }

  lemma SplitFirst(gs: seq<Group<YearMonth>>)
    requires gs != []
    ensures multiset(gs) == multiset(gs[1..]) + multiset{gs[0]}
    ensures GroupsTotal(gs) == GroupsTotal(gs[1..]) + gs[0].total
  {
    assert gs == [gs[0]] + gs[1..];
  }

  /** A permutation of the groups after the first holds no group with the first group's key. */
  lemma FirstKeyIsNew(gs: seq<Group<YearMonth>>, rest: seq<Group<YearMonth>>)
    requires gs != [] && DistinctKeys(gs)
    requires multiset(rest) == multiset(gs[1..])
    ensures forall h :: h in rest ==> h.key != gs[0].key
  {
    KeysAre(gs[1..]);
    forall h | h in rest ensures h.key != gs[0].key {
      assert h in multiset(rest);
      assert h in gs[1..];
    }
  }

  /**
   * The keyed rows of getMonthlyExpenses: one per (year, month) that has a
   * transaction and none for other months, in ascending (year, month) order,
   * each holding its month's sum; together they total every amount.
   */
  function MonthlyTotals(txs: seq<Transaction>): (r: seq<Group<YearMonth>>)
    ensures Chronological(r)
    ensures forall g :: g in r ==> g.total == SumOf(MonthItems(txs), g.key)
    ensures forall g :: g in r ==> exists t :: t in txs && MonthOf(t) == g.key
    ensures forall t :: t in txs ==> exists g :: g in r && g.key == MonthOf(t)
    ensures GroupsTotal(r) == TotalAmount(txs)
  {
    var items := MonthItems(txs);
    var gs := GroupSum(items);
    var r := SortByMonth(gs);
    assert forall g :: g in r <==> g in gs by {
      forall g ensures g in r <==> g in gs { assert g in r <==> g in multiset(r); }
    }
    forall g | g in r ensures g.total == SumOf(items, g.key) && g.key in ItemKeys(items) {
      GroupTotalIsSum(items, g);
    }
    MonthItemKeys(txs);
    KeysAre(gs);
    forall t | t in txs ensures exists g :: g in r && g.key == MonthOf(t) {
      assert MonthOf(t) in Keys(gs);
      var i :| 0 <= i < |gs| && gs[i].key == MonthOf(t);
      assert gs[i] in gs;
    }
    MonthItemsTotal(txs);
    r
  }

  const MonthNames: seq<string> := ["Jan", "Feb", "Mar", "Apr", "May", "Jun", "Jul", "Aug", "Sep", "Oct", "Nov", "Dec"]

  /** `months[month - 1]`: always one of the twelve three-letter names, a different one for each month. */
  function MonthLabel(m: Month): (s: string)
    ensures s in MonthNames && |s| == 3
    ensures forall i :: 0 <= i < 12 && i != m - 1 ==> MonthNames[i] != s
  {
    MonthNames[m - 1]
  }

  function ExpensesTotal(rows: seq<MonthlyExpense>): int {
    if rows == [] then 0 else rows[0].amount + ExpensesTotal(rows[1..])
  }

  function Labelled(gs: seq<Group<YearMonth>>): (rows: seq<MonthlyExpense>)
    ensures |rows| == |gs|
    ensures forall i :: 0 <= i < |gs| ==> rows[i] == MonthlyExpense(MonthLabel(gs[i].key.month), gs[i].total)
    ensures ExpensesTotal(rows) == GroupsTotal(gs)
  {
    if gs == [] then []
    else
      var rows := [MonthlyExpense(MonthLabel(gs[0].key.month), gs[0].total)] + Labelled(gs[1..]);
      assert rows[1..] == Labelled(gs[1..]);
      rows
  }

  /**
   * getMonthlyExpenses' result: the monthly rows, labelled. Every label is one
   * of the twelve names and the amounts total every transaction's amount.
   */
  function MonthlyExpenses(txs: seq<Transaction>): (rows: seq<MonthlyExpense>)
    ensures |rows| == |MonthlyTotals(txs)|
    ensures forall i :: 0 <= i < |rows| ==>
      rows[i] == MonthlyExpense(MonthLabel(MonthlyTotals(txs)[i].key.month), MonthlyTotals(txs)[i].total)
    ensures forall i :: 0 <= i < |rows| ==> rows[i].month in MonthNames
    ensures ExpensesTotal(rows) == TotalAmount(txs)
  {
    Labelled(MonthlyTotals(txs))
  }

  /** getMonthlyExpenses: the labelled monthly rows, or nothing when the store fails. */
  method GetMonthlyExpenses(db: Database) returns (r: seq<MonthlyExpense>)
    ensures !db.reachable ==> r == []
    ensures db.reachable ==> r == MonthlyExpenses(db.transactions) && ExpensesTotal(r) == TotalAmount(db.transactions)
  {
    if !db.reachable {
      return [];
    }
    r := MonthlyExpenses(db.transactions);
  }
}
