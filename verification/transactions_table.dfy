/**
 * The transactions table on the client: the category map built from the
 * category list, the category cell of each row, and the date and category
 * filters applied to the rows the table shows.
 */
module TransactionsTable {
  import opened Wrappers
  import opened Values

  /** A category as the client receives it; its `_id` may be missing. */
  datatype CategoryView = CategoryView(id: Option<string>, name: string, color: string, icon: string)

  /** A transaction as the client receives it. */
  datatype TransactionRow = TransactionRow(
    id: Option<string>,
    amount: int,
    date: Instant,
    description: string,
    categoryId: Option<string>)

  // ---------------------------------------------------------------------------
  // The category map
  // ---------------------------------------------------------------------------

  /** Position of the last category whose `_id` is `k`. */
  function LastWith(cats: seq<CategoryView>, k: string): (r: Option<nat>)
    ensures r.Some? ==> r.value < |cats| && cats[r.value].id == Some(k)
    ensures r.Some? ==> forall j :: r.value < j < |cats| ==> cats[j].id != Some(k)
    ensures r.None? <==> forall j :: 0 <= j < |cats| ==> cats[j].id != Some(k)
  {
    if cats == [] then None
    else
      var n := |cats| - 1;
      if cats[n].id == Some(k) then Some(n)
      else
        assert forall j :: 0 <= j < n ==> cats[..n][j] == cats[j];
        LastWith(cats[..n], k)
  }

  /**
   * `m` is the map the forEach builds: keyed by every non-empty `_id`, each
   * key holding the last category with that `_id` (a later `set` overwrites).
   */
  ghost predicate IsCategoryMapOf(m: map<string, CategoryView>, cats: seq<CategoryView>) {
    && (forall k :: k in m <==> k != "" && LastWith(cats, k).Some?)
    && (forall k :: k in m ==> m[k] == cats[LastWith(cats, k).value])
  }

  /** `categories.forEach(c => { if (c._id) categoryMap.set(c._id, c) })`. */
  method BuildCategoryMap(cats: seq<CategoryView>) returns (m: map<string, CategoryView>)
    ensures IsCategoryMapOf(m, cats)
    ensures forall k :: k in m ==> k != "" && m[k] in cats && m[k].id == Some(k)
  {
    m := map[];
    var i := 0;
    while i < |cats|
      invariant i <= |cats|
      invariant IsCategoryMapOf(m, cats[..i])
    {
      assert cats[..i + 1][..i] == cats[..i];
      if cats[i].id.Some? && cats[i].id.value != "" {
        m := m[cats[i].id.value := cats[i]];
      }
      i := i + 1;
    }
    assert cats[..|cats|] == cats;
  }

  // ---------------------------------------------------------------------------
  // The category cell
  // ---------------------------------------------------------------------------

  datatype CategoryCell = Named(name: string, color: string) | Uncategorized

  /** `categoryId ? categoryMap.get(categoryId) : null`, shown as the name and color, or "Uncategorized". */
  function Cell(categoryId: Option<string>, m: map<string, CategoryView>): CategoryCell {
    if categoryId.Some? && categoryId.value != "" && categoryId.value in m then
      Named(m[categoryId.value].name, m[categoryId.value].color)
    else
      Uncategorized
  }

  /**
   * A row shows a category exactly when its categoryId is the `_id` of some
   * category, and then it shows the last such category's name and color.
   */
  lemma CellShowsCategory(categoryId: Option<string>, m: map<string, CategoryView>, cats: seq<CategoryView>)
    requires IsCategoryMapOf(m, cats)
    ensures Cell(categoryId, m).Named? <==>
      categoryId.Some? && categoryId.value != "" && exists j :: 0 <= j < |cats| && cats[j].id == categoryId
    ensures Cell(categoryId, m).Named? ==> exists j ::
              && 0 <= j < |cats| && cats[j].id == categoryId
              && Cell(categoryId, m) == Named(cats[j].name, cats[j].color)
              && forall i :: j < i < |cats| ==> cats[i].id != categoryId
  {
    if categoryId.Some? && categoryId.value != "" && exists j :: 0 <= j < |cats| && cats[j].id == categoryId {
      assert LastWith(cats, categoryId.value).Some?;
    }
  }

  // ---------------------------------------------------------------------------
  // The date key: `format(date, "yyyy-MM-dd")`
  // ---------------------------------------------------------------------------

  function DigitChar(d: nat): (c: char)
    requires d < 10
    ensures '0' <= c <= '9'
  {
    ('0' as int + d) as char
  }

  predicate IsDigits(s: string) {
    forall i :: 0 <= i < |s| ==> '0' <= s[i] <= '9'
  }

  /** The decimal digits of `n`, without leading zeros. */
  function Digits(n: nat): (s: string)
    ensures IsDigits(s) && |s| >= 1
  {
    if n < 10 then [DigitChar(n)] else Digits(n / 10) + [DigitChar(n % 10)]
  }

  /** The digits of `n`, left-padded with zeros to at least `width` characters. */
  function Padded(n: nat, width: nat): (s: string)
    ensures IsDigits(s) && |s| >= width
  {
    var d := Digits(n);
    if |d| >= width then d else seq(width - |d|, _ => '0') + d
  }

  /** The number a string of digits denotes. */
  function DecimalValue(s: string): nat
    requires IsDigits(s)
  {
    if s == [] then 0 else 10 * DecimalValue(s[..|s| - 1]) + (s[|s| - 1] as int - '0' as int)
  }

  function Pow10(w: nat): nat {
    if w == 0 then 1 else 10 * Pow10(w - 1)
  }

  lemma {:induction false} DigitsValue(n: nat)
    ensures DecimalValue(Digits(n)) == n
  {
    if n >= 10 {
      DigitsValue(n / 10);
      var s := Digits(n);
      assert s[..|s| - 1] == Digits(n / 10);
    }
  }

  lemma {:induction false} DigitsLength(n: nat, w: nat)
    requires 1 <= w && n < Pow10(w)
    ensures |Digits(n)| <= w
  {
    if n >= 10 {
      assert w >= 2;
      assert n / 10 < Pow10(w - 1);
      DigitsLength(n / 10, w - 1);
    }
  }

  lemma {:induction false} LeadingZeros(z: nat, s: string)
    requires IsDigits(s)
    ensures IsDigits(seq(z, _ => '0') + s)
    ensures DecimalValue(seq(z, _ => '0') + s) == DecimalValue(s)
  {
    var t := seq(z, _ => '0') + s;
    if s == [] {
      assert t == seq(z, _ => '0');
      ZerosValue(z);
    } else {
      var n := |s| - 1;
      assert t[..|t| - 1] == seq(z, _ => '0') + s[..n];
      LeadingZeros(z, s[..n]);
    }
  }

  lemma {:induction false} ZerosValue(z: nat)
    ensures IsDigits(seq(z, _ => '0'))
    ensures DecimalValue(seq(z, _ => '0')) == 0
  {
    if z > 0 {
      assert seq(z, _ => '0')[..z - 1] == seq(z - 1, _ => '0');
      ZerosValue(z - 1);
    }
  }

  /** A number below 10^width prints in exactly `width` digits and reads back as itself. */
  lemma PaddedRoundTrip(n: nat, width: nat)
    requires 1 <= width && n < Pow10(width)
    ensures |Padded(n, width)| == width
    ensures DecimalValue(Padded(n, width)) == n
  {
    DigitsLength(n, width);
    DigitsValue(n);
    var d := Digits(n);
    if |d| < width {
      LeadingZeros(width - |d|, d);
    }
  }

  /** `yyyy` prints the year of the era: 1 BC is year 1, 2 BC year 2, and so on. */
  function EraYear(y: int): nat {
    if y > 0 then y else 1 - y
  }

  /** `format(date, "yyyy-MM-dd")`. */
  function DayKey(d: Instant): (s: string)
    ensures |s| >= 10
  {
    Padded(EraYear(d.year), 4) + "-" + Padded(d.month, 2) + "-" + Padded(d.day, 2)
  }

  /** For years 1 to 9999, two dates have the same key exactly when they fall on the same calendar day. */
  lemma DayKeySameDay(a: Instant, b: Instant)
    requires 1 <= a.year <= 9999 && 1 <= b.year <= 9999
    ensures DayKey(a) == DayKey(b) <==> a.year == b.year && a.month == b.month && a.day == b.day
  {
    if DayKey(a) == DayKey(b) {
      assert Pow10(1) == 10 && Pow10(2) == 100 && Pow10(3) == 1000 && Pow10(4) == 10000;
      var ya, ma, da := Padded(a.year, 4), Padded(a.month, 2), Padded(a.day, 2);
      var yb, mb, db := Padded(b.year, 4), Padded(b.month, 2), Padded(b.day, 2);
      PaddedRoundTrip(a.year, 4);
      PaddedRoundTrip(b.year, 4);
      PaddedRoundTrip(a.month, 2);
      PaddedRoundTrip(b.month, 2);
      PaddedRoundTrip(a.day, 2);
      PaddedRoundTrip(b.day, 2);
      FixedWidthSplit(ya, ma, da);
      FixedWidthSplit(yb, mb, db);
      assert ya == yb && ma == mb && da == db;
    }
  }

  lemma FixedWidthSplit(y: string, m: string, d: string)
    requires |y| == 4 && |m| == 2 && |d| == 2
    ensures var k := y + "-" + m + "-" + d; k[..4] == y && k[5..7] == m && k[8..] == d
  {
  }

  // ---------------------------------------------------------------------------
  // filteredRows
  // ---------------------------------------------------------------------------

  /** A row passes when each non-empty filter matches: the formatted date, and the categoryId by strict equality. */
  predicate KeepRow(row: TransactionRow, dateFilter: string, categoryFilter: string) {
    && (dateFilter == "" || DayKey(row.date) == dateFilter)
    && (categoryFilter == "" || row.categoryId == Some(categoryFilter))
  }

  /**
   * `rows.filter(...)`: exactly the rows that pass, each as often as in the
   * input, in their original order.
   */
  function FilterRows(rows: seq<TransactionRow>, dateFilter: string, categoryFilter: string): (r: seq<TransactionRow>)
    ensures |r| <= |rows|
    ensures forall x :: x in r ==> KeepRow(x, dateFilter, categoryFilter)
    ensures forall x :: KeepRow(x, dateFilter, categoryFilter) ==> multiset(r)[x] == multiset(rows)[x]
    ensures multiset(r) <= multiset(rows)
  {
    if rows == [] then []
    else
      assert rows == [rows[0]] + rows[1..];
      var rest := FilterRows(rows[1..], dateFilter, categoryFilter);
      if KeepRow(rows[0], dateFilter, categoryFilter) then [rows[0]] + rest else rest
  }

  /**
   * `Array.filter` keeps order: filtering a concatenation filters each part
   * and concatenates the results. With `FilterOne` this fixes the result row
   * by row, in order.
   */
  lemma {:induction false} FilterRowsAppend(a: seq<TransactionRow>, b: seq<TransactionRow>, dateFilter: string, categoryFilter: string)
    ensures FilterRows(a + b, dateFilter, categoryFilter) == FilterRows(a, dateFilter, categoryFilter) + FilterRows(b, dateFilter, categoryFilter)
  {
    if a == [] {
      assert a + b == b;
    } else {
      var ab := a + b;
      assert ab[0] == a[0];
      assert ab[1..] == a[1..] + b;
      FilterRowsAppend(a[1..], b, dateFilter, categoryFilter);
    }
  }

  /** A single row is shown exactly when it passes both filters. */
  lemma FilterOne(x: TransactionRow, dateFilter: string, categoryFilter: string)
    ensures FilterRows([x], dateFilter, categoryFilter) == if KeepRow(x, dateFilter, categoryFilter) then [x] else []
  {
    assert [x][1..] == [];
  }

  /** With both filters empty every row is shown. */
  lemma {:induction false} NoFilterKeepsAll(rows: seq<TransactionRow>)
    ensures FilterRows(rows, "", "") == rows
  {
    if rows != [] {
      NoFilterKeepsAll(rows[1..]);
      assert rows == [rows[0]] + rows[1..];
    }
  }

  /** Filtering by both filters is filtering by one, then by the other. */
  lemma {:induction false} FiltersCompose(rows: seq<TransactionRow>, dateFilter: string, categoryFilter: string)
    ensures FilterRows(rows, dateFilter, categoryFilter) == FilterRows(FilterRows(rows, dateFilter, ""), "", categoryFilter)
  {
    if rows != [] {
      FiltersCompose(rows[1..], dateFilter, categoryFilter);
    }
  }
}
