/**
 * The dashboard's three summary figures: lifetime total, top spending
 * category, and number of transactions.
 */
module Dashboard {
  import opened Models

  /**
   * `transactions.reduce((sum, t) => sum + t.amount, acc)`, folding from the
   * left: the transactions' total added to `acc`.
   */
  function SumFrom(acc: int, txs: seq<Transaction>): (sum: int)
    ensures sum == acc + TotalAmount(txs)
    decreases |txs|
  {
    if txs == [] then acc
    else
      assert txs == [txs[0]] + txs[1..];
      TotalAmountAppend([txs[0]], txs[1..]);
      assert [txs[0]][..0] == [];
      SumFrom(acc + txs[0].fields.amount, txs[1..])
  }

  /** The lifetime total: the sum of every transaction's amount. */
  function TotalExpenses(txs: seq<Transaction>): (total: int)
    ensures total == TotalAmount(txs)
    ensures (forall t :: t in txs ==> t.fields.amount >= MinAmount) ==> total >= |txs| * MinAmount
  {
    AtLeastMinimum(txs);
    SumFrom(0, txs)
  }

  lemma {:induction false} AtLeastMinimum(txs: seq<Transaction>)
    ensures (forall t :: t in txs ==> t.fields.amount >= MinAmount) ==> TotalAmount(txs) >= |txs| * MinAmount
  {
    if txs != [] {
      var n := |txs| - 1;
      assert forall t :: t in txs[..n] ==> t in txs;
      assert txs[n] in txs;
      AtLeastMinimum(txs[..n]);
    }
  }

  /**
   * The reduce over the category rows starting from row `best`, at row `i`: a
   * row replaces the current one only when its amount is strictly larger.
   * Ends at a row of largest amount, the first such row.
   */
  function TopIndexFrom(ces: seq<CategoryExpense>, best: nat, i: nat): (k: nat)
    requires best < |ces| && best <= i <= |ces|
    requires forall j :: 0 <= j < i ==> ces[j].amount <= ces[best].amount
    requires forall j :: 0 <= j < best ==> ces[j].amount < ces[best].amount
    ensures k < |ces|
    ensures forall j :: 0 <= j < |ces| ==> ces[j].amount <= ces[k].amount
    ensures forall j :: 0 <= j < k ==> ces[j].amount < ces[k].amount
    decreases |ces| - i
  {
    if i == |ces| then best
    else TopIndexFrom(ces, if ces[i].amount > ces[best].amount then i else best, i + 1)
  }

  /** What the top-category card shows: a name and an amount. */
  datatype Top = Top(category: string, amount: int)

  const NoCategory := Top("None", 0)

  /**
   * The top spending category: "None" with 0 when there are no rows;
   * otherwise the first row with the largest amount.
   */
  function TopCategory(ces: seq<CategoryExpense>): (top: Top)
    ensures ces == [] ==> top == NoCategory
    ensures ces != [] ==> exists k ::
              && 0 <= k < |ces|
              && top == Top(ces[k].category, ces[k].amount)
              && (forall j :: 0 <= j < |ces| ==> ces[j].amount <= ces[k].amount)
              && (forall j :: 0 <= j < k ==> ces[j].amount < ces[k].amount)
  {
    if ces == [] then NoCategory
    else
      var k := TopIndexFrom(ces, 0, 0);
      Top(ces[k].category, ces[k].amount)
  }

  datatype Summary = Summary(totalExpenses: int, top: Top, transactionCount: nat)

  /** The three figures of the dashboard summary. */
  function Summarize(txs: seq<Transaction>, ces: seq<CategoryExpense>): (s: Summary)
    ensures s.totalExpenses == TotalAmount(txs)
    ensures s.transactionCount == |txs|
    ensures s.top == TopCategory(ces)
  {
    Summary(TotalExpenses(txs), TopCategory(ces), |txs|)
  }
}
