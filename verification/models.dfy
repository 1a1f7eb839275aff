/**
 * The stored documents, the derived report rows and the store itself: three
 * collections (transactions, categories, budgets) held in memory.
 */
module Models {
  import opened Wrappers
  import opened Values
  import opened Collection

  /** Amounts are whole paise; the schemas' minimum of 0.01 is one paisa. */
  const MinAmount: int := 1

  /** Fields of a transaction document. A missing categoryId is None. */
  datatype TransactionFields = TransactionFields(
    amount: int,
    date: Instant,
    description: string,
    categoryId: Option<CategoryRef>)
  type Transaction = Doc<TransactionFields>

  datatype CategoryFields = CategoryFields(name: string, color: string, icon: string)
  type Category = Doc<CategoryFields>

  /** Fields of a budget document; its categoryId is kept as the string the form sent. */
  datatype BudgetFields = BudgetFields(categoryId: string, amount: int, period: string)
  type Budget = Doc<BudgetFields>

  datatype MonthlyExpense = MonthlyExpense(month: string, amount: int)
  datatype CategoryExpense = CategoryExpense(category: string, amount: int, color: string)
  datatype BudgetComparison = BudgetComparison(category: string, budgeted: int, actual: int, color: string)

  /** What every mutating action returns. */
  datatype ActionResult = ActionResult(success: bool, message: string)

  /** Sum of the amounts of the transactions. */
  function TotalAmount(txs: seq<Transaction>): int {
    if txs == [] then 0 else TotalAmount(txs[..|txs| - 1]) + txs[|txs| - 1].fields.amount
  }

  lemma {:induction false} TotalAmountAppend(a: seq<Transaction>, b: seq<Transaction>)
    ensures TotalAmount(a + b) == TotalAmount(a) + TotalAmount(b)
  {
    if b == [] {
      assert a + b == a;
    } else {
      assert (a + b)[..|a + b| - 1] == a + b[..|b| - 1];
      TotalAmountAppend(a, b[..|b| - 1]);
    }
  }

  // ---------------------------------------------------------------------------
  // What the schemas guarantee about stored documents
  // ---------------------------------------------------------------------------

  predicate WellFormedTransaction(f: TransactionFields) {
    f.amount >= MinAmount && f.description != ""
  }

  predicate WellFormedCategory(f: CategoryFields) {
    f.name != "" && f.color != "" && f.icon != ""
  }

  predicate WellFormedBudget(f: BudgetFields) {
    f.categoryId != "" && f.amount >= MinAmount && f.period != ""
  }

  /** The natural key: at most one budget per (categoryId, period). */
  predicate UniqueBudgetKeys(bs: seq<Budget>) {
    forall i, j :: 0 <= i < j < |bs| ==>
      bs[i].fields.categoryId != bs[j].fields.categoryId || bs[i].fields.period != bs[j].fields.period
  }

  // ---------------------------------------------------------------------------
  // $lookup against the categories
  // ---------------------------------------------------------------------------

  /**
   * `$lookup` with foreignField `_id`: the categories whose `_id` equals the
   * stored reference. A missing reference matches no category, and neither
   * does a string, which never equals an ObjectId.
   */
  function Lookup(cats: seq<Category>, ref: Option<CategoryRef>): (r: seq<Category>)
    ensures forall c :: c in r ==> c in cats && ref == Some(Oid(c.id))
    ensures forall c :: c in cats && ref == Some(Oid(c.id)) ==> c in r
    ensures ref.None? || ref.value.Str? ==> r == []
  {
    if cats == [] then []
    else
      var n := |cats| - 1;
      var front := Lookup(cats[..n], ref);
      assert cats == cats[..n] + [cats[n]];
      if ref == Some(Oid(cats[n].id)) then
        front + [cats[n]]
      else
        front
  }

  /** With unique identifiers the lookup finds at most one category, so `$unwind` keeps one document per input. */
  lemma {:induction false} LookupAtMostOne(cats: seq<Category>, ref: Option<CategoryRef>)
    requires UniqueIds(cats)
    ensures |Lookup(cats, ref)| <= 1
  {
    if cats != [] {
      var n := |cats| - 1;
      var front := Lookup(cats[..n], ref);
      assert UniqueIds(cats[..n]);
      LookupAtMostOne(cats[..n], ref);
      if ref == Some(Oid(cats[n].id)) {
        forall c | c in cats[..n] ensures ref != Some(Oid(c.id)) {
          var m :| 0 <= m < n && cats[..n][m] == c;
          assert cats[m] == c;
        }
        LookupNone(cats[..n], ref);
      }
    }
  }

  /** A reference that no category's `_id` equals finds nothing. */
  lemma {:induction false} LookupNone(cats: seq<Category>, ref: Option<CategoryRef>)
    requires forall c :: c in cats ==> ref != Some(Oid(c.id))
    ensures Lookup(cats, ref) == []
  {
    if cats != [] {
      var n := |cats| - 1;
      assert cats[n] in cats;
      assert forall c :: c in cats[..n] ==> c in cats;
      LookupNone(cats[..n], ref);
    }
  }

  // ---------------------------------------------------------------------------
  // The store
  // ---------------------------------------------------------------------------

  /**
   * The database the actions share. `reachable` says whether the store answers:
   * when it does not, every action takes its catch branch.
   */
  class Database {
    var transactions: seq<Transaction>
    var categories: seq<Category>
    var budgets: seq<Budget>
    var reachable: bool

    /** Identifiers are unique, the budget natural key is unique, and every stored document passed its schema. */
    ghost predicate Valid()
      reads this
    {
      && UniqueIds(transactions) && UniqueIds(categories) && UniqueIds(budgets)
      && UniqueBudgetKeys(budgets)
      && (forall t :: t in transactions ==> WellFormedTransaction(t.fields))
      && (forall c :: c in categories ==> WellFormedCategory(c.fields))
      && (forall b :: b in budgets ==> WellFormedBudget(b.fields))
    }

    constructor (reachable: bool)
      ensures Valid()
      ensures transactions == [] && categories == [] && budgets == []
      ensures this.reachable == reachable
    {
      transactions, categories, budgets := [], [], [];
      this.reachable := reachable;
    }
  }
}
