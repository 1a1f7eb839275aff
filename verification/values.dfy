/**
 * Values stored in documents: points in time (with the calendar accessors the
 * aggregation stages use), store identifiers and category references.
 */
module Values {
  import opened Wrappers

  // ---------------------------------------------------------------------------
  // Points in time
  // ---------------------------------------------------------------------------

  type Month = m: int | 1 <= m <= 12 witness 1
  type Day = d: int | 1 <= d <= 31 witness 1
  const MillisPerDay: int := 86_400_000
  type Millis = t: int | 0 <= t < MillisPerDay witness 0

  /**
   * A point in time, read through its calendar accessors (`$year`, `$month`,
   * `$dayOfMonth`, and the time within the day in milliseconds). Time zones are
   * abstracted: all instants are read in one calendar.
   */
  datatype Instant = Instant(year: int, month: Month, day: Day, millis: Millis)

  predicate IsLeapYear(y: int) {
    (y % 4 == 0 && y % 100 != 0) || y % 400 == 0
  }

  /** Number of days of month `m` of year `y` in the Gregorian calendar. */
  function DaysInMonth(y: int, m: Month): (n: Day)
    ensures 28 <= n <= 31
    ensures n == 31 <==> m in {1, 3, 5, 7, 8, 10, 12}
    ensures n == 29 <==> m == 2 && IsLeapYear(y)
  {
    if m == 2 then (if IsLeapYear(y) then 29 else 28)
    else if m in {4, 6, 9, 11} then 30
    else 31
  }

  /** `a` is strictly earlier than `b`: the order of `Date` values. */
  predicate Before(a: Instant, b: Instant) {
    a.year < b.year
    || (a.year == b.year && a.month < b.month)
    || (a.year == b.year && a.month == b.month && a.day < b.day)
    || (a.year == b.year && a.month == b.month && a.day == b.day && a.millis < b.millis)
  }

  /** `Before` is a strict total order on instants. */
  lemma BeforeIsStrictTotalOrder(a: Instant, b: Instant, c: Instant)
    ensures !Before(a, a)
    ensures Before(a, b) ==> !Before(b, a)
    ensures Before(a, b) && Before(b, c) ==> Before(a, c)
    ensures a == b || Before(a, b) || Before(b, a)
  {
  }

  // ---------------------------------------------------------------------------
  // Store identifiers
  // ---------------------------------------------------------------------------

  predicate IsHexDigit(c: char) {
    '0' <= c <= '9' || 'a' <= c <= 'f' || 'A' <= c <= 'F'
  }

  predicate IsLowerHexDigit(c: char) {
    '0' <= c <= '9' || 'a' <= c <= 'f'
  }

  predicate IsHexString(s: string) {
    forall i :: 0 <= i < |s| ==> IsHexDigit(s[i])
  }

  /**
   * A store-generated document identifier, represented by the 24 lower-case
   * hexadecimal digits it prints as.
   */
  type ObjectId = s: string | |s| == 24 && forall i :: 0 <= i < |s| ==> IsLowerHexDigit(s[i])
    witness "000000000000000000000000"

  function LowerHexDigit(c: char): (r: char)
    requires IsHexDigit(c)
    ensures IsLowerHexDigit(r)
    ensures IsLowerHexDigit(c) ==> r == c
  {
    if 'A' <= c <= 'F' then (c as int - 'A' as int + 'a' as int) as char else c
  }

  /**
   * `new ObjectId(s)`: 24 hexadecimal digits in either case name an identifier;
   * any other string makes the constructor throw (None).
   */
  function ParseObjectId(s: string): (r: Option<ObjectId>)
    ensures r.Some? <==> |s| == 24 && IsHexString(s)
    ensures r.Some? ==> forall i :: 0 <= i < 24 ==> r.value[i] == LowerHexDigit(s[i])
  {
    if |s| == 24 && IsHexString(s) then
      Some(seq(24, i requires 0 <= i < 24 => LowerHexDigit(s[i])))
    else
      None
  }

  /** `id.toString()`: the printed form, which parses back to the same identifier. */
  function IdToString(id: ObjectId): (s: string)
    ensures |s| == 24 && IsHexString(s)
    ensures ParseObjectId(s) == Some(id)
  {
    var p := seq(24, i requires 0 <= i < 24 => LowerHexDigit(id[i]));
    assert p == id;
    id
  }

  /** A string that is already in printed form parses to the identifier that prints as it. */
  lemma ParsePrintedForm(s: string)
    requires |s| == 24 && forall i :: 0 <= i < |s| ==> IsLowerHexDigit(s[i])
    ensures ParseObjectId(s).Some? && IdToString(ParseObjectId(s).value) == s
  {
    var o := ParseObjectId(s).value;
    assert forall i :: 0 <= i < 24 ==> o[i] == s[i];
  }

  // ---------------------------------------------------------------------------
  // Category references
  // ---------------------------------------------------------------------------

  /**
   * The value held by a document's categoryId field: either the raw string the
   * form sent, or an ObjectId built from it. Equality of these values is the
   * store's equality: a string never equals an ObjectId.
   */
  datatype CategoryRef = Str(s: string) | Oid(id: ObjectId)

  /** `$toString` of a categoryId field; a missing reference stays null (None). */
  function RefToString(ref: Option<CategoryRef>): (r: Option<string>)
    ensures r.None? <==> ref.None?
    ensures ref.Some? && ref.value.Str? ==> r == Some(ref.value.s)
    ensures ref.Some? && ref.value.Oid? ==> ParseObjectId(r.value) == Some(ref.value.id)
  {
    match ref
    case None => None
    case Some(Str(s)) => Some(s)
    case Some(Oid(id)) => Some(IdToString(id))
  }
}
