# Personal finance visualizer: a verified model of the data layer

The application records expenses (transactions), groups them under
categories, and keeps monthly budgets per category. Its server actions
validate form input, write to three MongoDB collections (`transactions`,
`categories`, `budgets`) and compute three reports:
- monthly totals for the bar chart;
- per-category totals for the pie chart;
- budget-versus-actual rows for the current month.

On the client, the dashboard shows a summary (lifetime total, top category,
transaction count). The transactions table resolves each row's category
through a map and filters rows by day and by category.

This project models that core in Dafny and proves what it promises:
- **Values** (`values.dfy`) covers calendar instants, 24-digit hexadecimal
  ObjectIds (parsing and printing, as `new ObjectId(s)` and `toString()`),
  and the category reference a transaction stores. That reference is either
  a plain string or an ObjectId, and the two never compare equal, as in BSON.
- **Collection** (`collection.dfy`) covers a collection as a sequence of
  documents with unique `_id`s, with `findOne`, `insertOne`, `updateOne`
  and `deleteOne` by `_id`.
- **Grouping** (`grouping.dfy`) covers a generic `$group` with `$sum`.
- **Models** (`models.dfy`) covers the stored records, the report rows, the
  `$lookup` join against categories, and a `Database` class holding the
  three collections. A flag in that class says whether the store answers;
  when it does not, an action takes its catch branch.
- **Transactions**, **Categories** and **Budgets** cover the server actions
  of `app/actions/*.ts`: validation with the first failing message,
  create/read/update/delete, the budget upsert, and the three reports.
- **Dashboard** covers `components/dashboard-summary.tsx`.
- **TransactionsTable** covers the category map, the category cell and
  `filteredRows` of `components/transactions/transactions-table.tsx`.

Amounts are whole paise (integers): `min(0.01)` becomes "at least 1".
Identifiers the store would generate are parameters (`newId`). The current
time is a parameter (`now`).

### Behaviour of the program worth knowing

- **Dangling references.** The category report groups by (categoryId, name,
  color). Transactions with different references that match no category
  therefore form separate "Uncategorized" rows: no reference, a plain
  string, or the ids of two deleted categories
  (`Categories.UncategorizedRowsSplit`).
- **Spending window.** The window for the current month ends at midnight
  *starting* the month's last day. Purchases later on that day are not
  counted (see Findings).
- **Budget join.** The budget report joins a budget's categoryId, a string,
  against the categories' ObjectId `_id`s. As written it never matches (see
  Findings).
- **Editing a transaction.** An edit stores the category reference as a
  plain string, whereas creation stores an ObjectId. After an edit, the
  transaction joins no category in the category report
  (`Transactions.UpdateSet`).

## Model

| member | source | states |
|---|---|---|
| Values.DaysInMonth | app/actions/budgets.ts:120 | The day before the first of next month has 28 to 31 days: 31 exactly in the seven long months, 29 exactly in a leap February. |
| Values.BeforeIsStrictTotalOrder | app/actions/transactions.ts:59 | Dates sort by a strict total order: irreflexive, asymmetric, transitive and total. |
| Values.ParseObjectId | app/actions/transactions.ts:75 | `new ObjectId(s)` succeeds exactly on 24 hexadecimal characters; the id is their lower-case form. |
| Values.IdToString | app/actions/transactions.ts:63 | `toString()` prints 24 hexadecimal characters that parse back to the same id. |
| Values.ParsePrintedForm | app/actions/transactions.ts:72-77 | A printed id (lower-case hex) parses and prints back unchanged, so ids round-trip through the client. |
| Values.RefToString | app/actions/budgets.ts:140 | `$toString` of a category reference: absent stays absent, a string is itself, an ObjectId prints to a string that parses back to it. |
| Collection.IndexOf | app/actions/transactions.ts:75 | The first document with the `_id`; none exactly when no document has it. |
| Collection.IndexOfOwnId | app/actions/transactions.ts:75 | With unique ids, looking up a document's own id finds that document. |
| Collection.FindOne | app/actions/transactions.ts:75-76 | `findOne({_id})` returns a stored document with that id exactly when one exists, else null. |
| Collection.InsertOne | app/actions/transactions.ts:41-42 | `insertOne` appends the new document and keeps ids unique; a taken `_id` is a duplicate-key error. |
| Collection.UpdateOne | app/actions/transactions.ts:95 | `updateOne({_id}, {$set})` replaces the fields of the document with that id, leaves every other document and every id alone, and is a no-op when none matches. |
| Collection.DeleteOne | app/actions/transactions.ts:111 | `deleteOne({_id})` removes the first document with that id and keeps every other one, in order (the result is the list with that one position cut out). It is a no-op when none matches. With unique ids, no document with the id remains. |
| Collection.RemoveAt | app/actions/transactions.ts:111 | Removing the first document with an id leaves one fewer, none with that id, and all others. |
| Grouping.Accumulate | app/actions/transactions.ts:131-139 | Adding one item to a group list adds its key and its amount to that key's total only, and keeps keys distinct. |
| Grouping.GroupSum | app/actions/transactions.ts:131-139 | `$group` with `$sum`: one group per distinct key occurring in the input, each total the sum of that key's amounts, and the grand total kept. |
| Grouping.GroupTotalIsSum | app/actions/categories.ts:132-139 | Every output group's total is the sum of its key's amounts, and its key occurs in the input. |
| Grouping.KeyTotalOfMember | app/actions/categories.ts:132-139 | With distinct keys, a key's total in the group list is that group's total. |
| Grouping.KeyTotalAbsent | app/actions/budgets.ts:157 | A key with no group totals 0. |
| Grouping.SumOfAbsent | app/actions/budgets.ts:157 | A key that no item carries sums to 0. |
| Grouping.KeysAre | app/actions/categories.ts:132-139 | Each group's key is among the keys, and each key belongs to some group. |
| Grouping.DistinctKeysAt | app/actions/categories.ts:132-139 | Distinct keys mean no two positions carry the same key. |
| Grouping.TotalAppend | app/actions/transactions.ts:137 | Summing two concatenated item lists adds their totals. |
| Grouping.SumOfAppend | app/actions/transactions.ts:137 | Per-key sums add over concatenation. |
| Models.TotalAmountAppend | components/dashboard-summary.tsx:12 | The total of transactions adds over concatenation. |
| Models.Lookup | app/actions/categories.ts:118-124 | `$lookup` on `_id` yields exactly the categories whose ObjectId equals the reference; a missing or string reference matches nothing. |
| Models.LookupAtMostOne | app/actions/categories.ts:118-124 | With unique `_id`s the lookup yields at most one category. |
| Models.LookupNone | app/actions/categories.ts:126-129 | When no category has the referenced id, the lookup is empty. |
| Transactions.ValidateTransaction | app/actions/transactions.ts:10-33 | Succeeds exactly on amount at least 0.01, a parsable date and a non-empty description. A failure reports the first failing rule in schema order. A blank date becomes now. An empty categoryId becomes absent. |
| Transactions.DocumentToInsert | app/actions/transactions.ts:35-39 | The insert document keeps the validated fields and converts a categoryId to an ObjectId; it fails exactly when that string is not a valid ObjectId. |
| Transactions.CreateKeepsPrintedId | app/actions/transactions.ts:36-39 | A category id in printed form is stored as an ObjectId whose string form is that id again. |
| Transactions.UpdateSet | app/actions/transactions.ts:88-95 | The `$set` document keeps the validated fields and stores the category as a plain string, which no category's ObjectId matches. |
| Transactions.CreateTransaction | app/actions/transactions.ts:25-53 | The validation message on invalid input. Otherwise it succeeds exactly when the reference converts, the store answers and the id is free, appending the converted document. Any failure leaves the collection as it was. |
| Transactions.GetTransactions | app/actions/transactions.ts:56-69 | Returns every stored transaction (same multiset), newest first; nothing when the store fails. |
| Transactions.NotBeforeTransitive | app/actions/transactions.ts:59 | "Not earlier than" is transitive, so newest-first order chains. |
| Transactions.NewestFirstCons | app/actions/transactions.ts:59 | A transaction not older than the head of a newest-first list can be put in front of it. |
| Transactions.InsertByDate | app/actions/transactions.ts:59 | Inserting into a newest-first list keeps it newest-first and adds exactly that transaction. |
| Transactions.NewestFirst | app/actions/transactions.ts:59 | `sort({date: -1})`: a newest-first permutation of the input. |
| Transactions.GetTransactionById | app/actions/transactions.ts:72-82 | Returns the stored transaction with that id exactly when the id parses, the store answers and such a transaction exists; otherwise null. |
| Transactions.UpdateTransaction | app/actions/transactions.ts:85-105 | The validation message on invalid input. Otherwise it succeeds exactly when the store answers and the id parses. Only the matched transaction's fields change, to the `$set` document. A failure changes nothing. |
| Transactions.DeleteTransaction | app/actions/transactions.ts:108-118 | Succeeds exactly when the store answers and the id parses. The collection then equals `deleteOne` applied to the old one: exactly the transaction with that id is gone and all others remain in order. |
| Transactions.MonthOf | app/actions/transactions.ts:133-136 | The `$group` key of a transaction: the year and month of its date. `Transactions.MonthlyTotals` states the grouping by it. |
| Transactions.MonthItems | app/actions/transactions.ts:127-137 | Each transaction contributes its (year, month) and its amount, in order. |
| Transactions.MonthItemsTotal | app/actions/transactions.ts:137 | The month items carry the transactions' total. |
| Transactions.MonthItemKeys | app/actions/transactions.ts:133-136 | The months occurring are exactly the months of some transaction. |
| Transactions.ChronologicalCons | app/actions/transactions.ts:140-142 | A group earlier than every group of a chronological list can lead it. |
| Transactions.InsertByMonth | app/actions/transactions.ts:140-142 | Inserting a group of a new month keeps the list chronological and adds exactly that group and its total. |
| Transactions.ChronologicalTail | app/actions/transactions.ts:140-142 | The tail of a chronological list is chronological. |
| Transactions.InsertInFront | app/actions/transactions.ts:140-142 | Inserting in front keeps chronological order and adds the group's total. |
| Transactions.InsertAfterFirst | app/actions/transactions.ts:140-142 | Inserting after the first group keeps order, contents and total. |
| Transactions.SortByMonth | app/actions/transactions.ts:140-142 | `$sort` by year then month: a chronological permutation of groups with distinct months. |
| Transactions.SplitFirst | app/actions/transactions.ts:140-142 | A group list is its head plus its tail, in contents and in total. |
| Transactions.FirstKeyIsNew | app/actions/transactions.ts:140-142 | With distinct months, the head's month occurs nowhere else. |
| Transactions.MonthlyTotals | app/actions/transactions.ts:124-144 | Chronological groups, one per month in which some transaction falls; each total is that month's sum; together they hold the grand total. |
| Transactions.MonthLabel | app/actions/transactions.ts:146-149 | A month's label is its own three-letter name, which no other month carries. |
| Transactions.Labelled | app/actions/transactions.ts:148-151 | One row per group, labelled with its month name and carrying its total. |
| Transactions.MonthlyExpenses | app/actions/transactions.ts:121-156 | The chart rows are the chronological monthly totals, labelled, summing to the grand total. |
| Transactions.GetMonthlyExpenses | app/actions/transactions.ts:121-156 | The monthly rows when the store answers, nothing otherwise; they sum to the total of all transactions. |
| Categories.ValidateCategory | app/actions/categories.ts:10-14 | Succeeds exactly when name, color and icon are non-empty; otherwise reports the first missing one. |
| Categories.CreateCategory | app/actions/categories.ts:24-44 | The validation message on invalid input. Otherwise it succeeds exactly when the store answers and the id is free, appending the category. A failure changes nothing. |
| Categories.GetCategories | app/actions/categories.ts:47-60 | All stored categories; nothing when the store fails. |
| Categories.GetCategoryById | app/actions/categories.ts:63-73 | The stored category with that id exactly when the id parses, the store answers and it exists; otherwise null. |
| Categories.UpdateCategory | app/actions/categories.ts:76-94 | Validation comes before the store. On success only the matched category's fields change. A failure changes nothing. |
| Categories.DeleteCategory | app/actions/categories.ts:97-106 | Removes exactly the category with that id and keeps the others. Transactions and budgets are untouched, so references dangle. |
| Categories.Unwound | app/actions/categories.ts:118-130 | The lookup plus `$unwind` with `preserveNullAndEmptyArrays`: one item per matching category, or one "Uncategorized" item with the fallback color when none matches. |
| Categories.ExpenseKeyOf | app/actions/categories.ts:132-137 | A transaction's group key keeps its categoryId. It carries "Uncategorized" and "#999999" when no category matches, and otherwise the matched category's name and color. |
| Categories.UnwoundUnique | app/actions/categories.ts:118-130 | With unique category ids every transaction unwinds to exactly one item under its group key. |
| Categories.KeyedItems | app/actions/categories.ts:132-138 | One (group key, amount) item per transaction, in order. |
| Categories.JoinItemsKeyed | app/actions/categories.ts:117-130 | With unique category ids the joined and unwound stream is exactly the keyed items. |
| Categories.KeyedItemsSnoc | app/actions/categories.ts:117-130 | The keyed items of a longer list extend those of its prefix by one item. |
| Categories.KeyedItemsTotal | app/actions/categories.ts:138 | The keyed items carry the transactions' total. |
| Categories.KeyedItemKeys | app/actions/categories.ts:133-137 | The keys occurring are exactly the group keys of some transaction. |
| Categories.CategoryGroups | app/actions/categories.ts:117-140 | Distinct group keys. With unique category ids: each key is some transaction's key, each total is that key's sum, and the grand total is kept. |
| Categories.JoinedGroups | app/actions/categories.ts:132-139 | With unique category ids, the groups over the joined stream have the keyed items' keys, sums and total. |
| Categories.Projected | app/actions/categories.ts:141-148 | `$project`: one {category, amount, color} row per group, in the group's order, total kept. |
| Categories.CategoryExpenses | app/actions/categories.ts:109-157 | One row per group, with its name, color and sum; with unique category ids the rows total all spending. |
| Categories.GetCategoryExpenses | app/actions/categories.ts:109-157 | The category rows when the store answers, nothing otherwise; they sum to the total of all transactions. |
| Categories.UncategorizedRowsSplit | app/actions/categories.ts:132-137 | Two transactions whose references differ and match no category appear as two separate "Uncategorized" rows. |
| Categories.JoinItems | app/actions/categories.ts:117-130 | The documents reaching `$group`, transaction by transaction; `Categories.JoinItemsKeyed` states that with unique ids they are exactly the keyed items. |
| Categories.DeletedCategoryUncategorized | app/actions/categories.ts:97-137 | After a category is deleted, a transaction pointing at it is grouped as "Uncategorized" with the fallback color. |
| Budgets.ValidateBudget | app/actions/budgets.ts:10-14 | Succeeds exactly on a non-empty categoryId, amount at least 0.01 and a non-empty period; otherwise reports the first failing rule. |
| Budgets.FindBudget | app/actions/budgets.ts:36-39 | The first budget with the (categoryId, period) key; none exactly when no budget has it. |
| Budgets.SaveBudget | app/actions/budgets.ts:35-47 | An existing key gets only its amount replaced. A new key is appended, failing only on a taken `_id`. The key then holds the new fields, and unique ids, the natural key and well-formedness are kept. |
| Budgets.SetAmountKeepsInvariants | app/actions/budgets.ts:43 | Setting an amount keeps ids and keys unique, and keeps records well-formed. |
| Budgets.AppendKeepsInvariants | app/actions/budgets.ts:46 | Inserting a budget whose key and id are new keeps the invariants, and the key is then found at the end. |
| Budgets.AppendFinds | app/actions/budgets.ts:46 | After inserting a budget with a new key, that key is found at the new budget. |
| Budgets.FindBudgetAppend | app/actions/budgets.ts:36-39 | Searching a list extended by one budget finds the earlier match, else the new budget when it has the key. |
| Budgets.AppendKeepsWellFormed | app/actions/budgets.ts:46 | Inserting a well-formed budget keeps every record well-formed. |
| Budgets.AppendKeepsIds | app/actions/budgets.ts:46 | Inserting under a free id keeps ids unique. |
| Budgets.AppendKeepsKeys | app/actions/budgets.ts:46 | Inserting a new key keeps natural keys unique. |
| Budgets.SaveBudgetIdempotent | app/actions/budgets.ts:35-47 | Saving the same budget twice leaves the collection as one save did. |
| Budgets.SaveTwiceKeepsOne | app/actions/budgets.ts:35-47 | Two saves of the same key leave exactly one budget with that key, holding the second save's amount. |
| Budgets.CreateBudget | app/actions/budgets.ts:24-58 | The validation message on invalid input. Otherwise it succeeds when the store answers and the upsert succeeds. Every budget with the key then holds the validated fields. A failure changes nothing. |
| Budgets.GetBudgets | app/actions/budgets.ts:61-74 | All stored budgets; nothing when the store fails. |
| Budgets.DeleteBudget | app/actions/budgets.ts:77-88 | Succeeds exactly when the store answers and the id parses. The collection then equals `deleteOne` applied to the old one: exactly the budget with that id is gone, the others remain in order, and keys stay unique. |
| Budgets.DeleteKeepsKeysUnique | app/actions/budgets.ts:80 | Deleting by id keeps natural keys unique. |
| Budgets.RemoveAtKeepsKeysUnique | app/actions/budgets.ts:80 | Removing any one budget keeps natural keys unique. |
| Budgets.MonthStart | app/actions/budgets.ts:119 | The first instant of the current month: no instant of the month precedes it. |
| Budgets.LastDayMidnight | app/actions/budgets.ts:120 | `new Date(y, m + 1, 0)`: midnight at the start of the month's last day. |
| Budgets.WindowAsWrittenMissesLastDay | app/actions/budgets.ts:118-136 | The `$gte`/`$lte` window holds exactly this month's instants before the last day, plus the last day's first millisecond. |
| Budgets.InWindowAsWritten | app/actions/budgets.ts:130-136 | The `$gte`/`$lte` test as written; `Budgets.WindowAsWrittenMissesLastDay` states which instants pass it. |
| Budgets.SpentAsWritten | app/actions/budgets.ts:122-143 | One category's spending as the window as written selects it; `Budgets.SpentAsWrittenMissesLastDay` compares it with the corrected spending. |
| Budgets.SpentAsWrittenMissesLastDay | app/actions/budgets.ts:118-143 | A purchase on the month's last day after midnight leaves the as-written spending unchanged, while the current month's spending grows by its amount. |
| Budgets.WindowAsWrittenExample | app/actions/budgets.ts:118-143 | With now 15 January 2024, a purchase at noon on 31 January 2024 is missing from the as-written spending but counted in January's. |
| Budgets.CurrentMonthExtendsWindow | app/actions/budgets.ts:117-136 | The current-month test compares only year and month. It is the as-written window together with the rest of the last day after midnight, plus any day number the month lacks. |
| Budgets.SpentCountsWholeMonth | app/actions/budgets.ts:118-143 | In the corrected window, a transaction at any time of any day of the current month adds its amount to its category's spending. |
| Budgets.SpendingItems | app/actions/budgets.ts:122-143 | The (stringified reference, amount) pairs of the current month that reach `$group`; `Budgets.SpendingItemsSum` states their per-category sums. |
| Budgets.SpendingItemsSum | app/actions/budgets.ts:138-143 | The `$sum` for a stringified category is the current month's spending on it. |
| Budgets.SpendingMap | app/actions/budgets.ts:147-151 | The `forEach` of `Map.set` over the groups; `Budgets.SpendingMapLastWins` states its keys and values. |
| Budgets.SpendingMapLastWins | app/actions/budgets.ts:147-151 | The spending map has exactly the group keys; each key maps to the last group's total. |
| Budgets.Actual | app/actions/budgets.ts:157 | `spendingMap.get(categoryId)`, defaulting to 0; `Budgets.ActualIsSpent` states its value. |
| Budgets.ActualIsSpent | app/actions/budgets.ts:157 | The map's value for the budget's categoryId, defaulting to 0, is that category's current-month spending. |
| Budgets.JoinAsWritten | app/actions/budgets.ts:100-113 | The budget pipeline as written (`$match`, `$lookup` on `_id`, `$unwind`); `Budgets.JoinAsWrittenIsEmpty` states its result. |
| Budgets.JoinAsWrittenIsEmpty | app/actions/budgets.ts:100-113 | The join as written (a string categoryId against an ObjectId `_id`) matches nothing, so the report is always empty. |
| Budgets.CategoriesWithId | app/actions/budgets.ts:104-110 | Exactly the categories whose printed `_id` equals the budget's categoryId. |
| Budgets.BudgetPairs | app/actions/budgets.ts:100-113 | One budget's pairs: exactly that budget with each category it names, when it is monthly. |
| Budgets.JoinById | app/actions/budgets.ts:100-113 | Exactly the pairs of a monthly budget and a category whose printed `_id` is the budget's categoryId. |
| Budgets.NoCategoryWithId | app/actions/budgets.ts:104-110 | When no category prints to the categoryId, the corrected lookup is empty. |
| Budgets.CategoriesWithIdAtMostOne | app/actions/budgets.ts:104-110 | With unique `_id`s, at most one category prints to a given categoryId. |
| Budgets.JoinByIdAppend | app/actions/budgets.ts:100-113 | The join keeps budget order: joining a concatenation concatenates the joins of the parts. |
| Budgets.JoinByIdOne | app/actions/budgets.ts:100-113 | With unique category ids one budget yields at most one pair, and it is the category it names when that exists. |
| Budgets.ComparisonRows | app/actions/budgets.ts:154-159 | One row per joined pair: category name, budgeted amount, spending looked up by categoryId, category color. |
| Budgets.RowsAreRowOf | app/actions/budgets.ts:154-159 | Each row carries its budget's amount and its category's current-month spending. |
| Budgets.Comparison | app/actions/budgets.ts:91-159 | One row per joined (budget, category) pair, in the join's budget order, showing the category, the budgeted amount and this month's spending. Every row belongs to a monthly budget and the category it names, and every such pair has a row. |
| Budgets.GetBudgetComparison | app/actions/budgets.ts:91-164 | The corrected comparison when the store answers; nothing otherwise. |
| Dashboard.SumFrom | components/dashboard-summary.tsx:12 | The left-fold `reduce` from a starting sum yields that sum plus the transactions' total. |
| Dashboard.TotalExpenses | components/dashboard-summary.tsx:12 | The lifetime total is the sum of all amounts, at least 0.01 per transaction. |
| Dashboard.AtLeastMinimum | components/dashboard-summary.tsx:12 | Amounts of at least 0.01 each total at least 0.01 per transaction. |
| Dashboard.TopIndexFrom | components/dashboard-summary.tsx:17-20 | The strict `>` reduce ends at a largest amount, and at the first row with it. |
| Dashboard.TopCategory | components/dashboard-summary.tsx:15-21 | "None" with 0 when there are no rows; otherwise the first row with the largest amount. |
| Dashboard.Summarize | components/dashboard-summary.tsx:10-24 | The summary holds the total, the top category and the number of transactions. |
| TransactionsTable.LastWith | components/transactions/transactions-table.tsx:62-67 | The last category with a given `_id`; none exactly when no category has it. |
| TransactionsTable.BuildCategoryMap | components/transactions/transactions-table.tsx:62-67 | Maps each non-empty `_id` to the last category carrying it, and nothing else. |
| TransactionsTable.Cell | components/transactions/transactions-table.tsx:149-158 | The category cell: the mapped category's name and color, or "Uncategorized"; `TransactionsTable.CellShowsCategory` states when each shows. |
| TransactionsTable.CellShowsCategory | components/transactions/transactions-table.tsx:149-160 | A row shows a category exactly when a category has its non-empty categoryId, and then shows the last such category's name and color; otherwise "Uncategorized". |
| TransactionsTable.DigitsValue | components/transactions/transactions-table.tsx:229 | A number's printed digits read back as the number. |
| TransactionsTable.DigitsLength | components/transactions/transactions-table.tsx:229 | A number below 10^w prints in at most w digits. |
| TransactionsTable.LeadingZeros | components/transactions/transactions-table.tsx:229 | Leading zeros do not change a number's value. |
| TransactionsTable.ZerosValue | components/transactions/transactions-table.tsx:229 | A string of zeros is worth 0. |
| TransactionsTable.PaddedRoundTrip | components/transactions/transactions-table.tsx:229 | A zero-padded field below 10^w is exactly w digits and reads back as the number. |
| TransactionsTable.DayKey | components/transactions/transactions-table.tsx:229 | `format(date, "yyyy-MM-dd")`: at least ten characters; `TransactionsTable.DayKeySameDay` states what it identifies. |
| TransactionsTable.DayKeySameDay | components/transactions/transactions-table.tsx:229-230 | For years 1 to 9999, two dates give the same "yyyy-MM-dd" key exactly when they fall on the same calendar day. |
| TransactionsTable.FixedWidthSplit | components/transactions/transactions-table.tsx:229 | The key's year, month and day fields sit at fixed positions. |
| TransactionsTable.KeepRow | components/transactions/transactions-table.tsx:226-235 | The `filter` predicate: each non-empty filter must match, the day key by equality and the categoryId by strict equality. |
| TransactionsTable.FilterRows | components/transactions/transactions-table.tsx:225-236 | Keeps exactly the rows passing both non-empty filters, each as often as in the input, and nothing else. |
| TransactionsTable.FilterRowsAppend | components/transactions/transactions-table.tsx:225-236 | `Array.filter` keeps order: filtering a concatenation concatenates the filtered parts. |
| TransactionsTable.FilterOne | components/transactions/transactions-table.tsx:225-236 | A single row is kept exactly when it passes both filters; with `TransactionsTable.FilterRowsAppend` this fixes the result row by row, in order. |
| TransactionsTable.NoFilterKeepsAll | components/transactions/transactions-table.tsx:225-236 | With both filters empty every row is shown, in order. |
| TransactionsTable.FiltersCompose | components/transactions/transactions-table.tsx:225-236 | Filtering by both is filtering by date, then by category. |

## Left out

- Connecting to the store (`clientPromise`, `getCollection`) is reduced to one flag, `Database.reachable`. When it is false, every action takes its catch branch. The `console.error` logging in those branches is not modelled.
- `revalidatePath` cache invalidation, routing, toasts, dialogs, charts and currency formatting (`Intl.NumberFormat`) are user-interface effects, outside the data model.
- Asynchrony and concurrency are not modelled: actions run one at a time. Two concurrent `createBudget` calls can both miss the `findOne` and insert duplicates, and the sequential model cannot show that race.
- Floating-point amounts are not modelled. Amounts are whole paise, so sums are exact, and `z.coerce.number()` of non-numeric text (NaN) is not modelled. `form.amount` is the already-coerced number.
- zod's messages for absent or non-string fields ("Required", "Expected string") are not modelled, because form fields are always strings here.
- `new Date(string)` parsing and time zones are not modelled. Dates arrive as instants or as "unparsable", and every instant is read in one calendar, so server-local time and UTC coincide.
- Values.ParseObjectId: only the 24-character hexadecimal form is accepted. The 12-byte-string form that the ObjectId constructor also takes is not modelled.
- `Instant` admits day numbers a month does not have, such as 31 February. A JavaScript `Date` never holds one, because it normalises such dates. The contracts hold for these instants too, and `Budgets.WindowAsWrittenMissesLastDay` places them past the month's last day.
- `$addFields: {$toDate}` is not modelled, because dates are stored as instants.
- The order in which `$group` emits groups is unspecified by the store. The model emits them in order of first appearance, so the category chart's row order, and the top category among equal amounts, are only as in the model.
- Transactions.NewestFirst: its contract leaves the order of transactions with equal dates open, as the store does.
- Converting `_id` to a string in the get* actions and sending documents to the client are not modelled. Ids are already in printed form, and the table receives `TransactionRow`/`CategoryView` values.
- TanStack table sorting and pagination are not modelled. `filteredRows` is applied to the rows it is given.

## Findings

| source | as written | input that shows it | evidently intended | confidence | as-written member | corrected member |
|---|---|---|---|---|---|---|
| app/actions/budgets.ts:104-110 | `$lookup` joins the budget's `categoryId`, stored as a string, against the category's `_id`, an ObjectId; a string never equals an ObjectId | any budget whose categoryId is a category's printed `_id`, e.g. "65a1…" against ObjectId("65a1…"); the comparison report is empty | join a budget to the category whose printed `_id` equals its categoryId: the stage is commented "get all budgets with category info" (budgets.ts:96) and the rows read `budget.category.name` and `.color` (budgets.ts:155, 158) | high, not executed | Budgets.JoinAsWrittenIsEmpty | Budgets.JoinById |
| app/actions/budgets.ts:120-134 | the window ends with `$lte` midnight at the start of the month's last day | now = 15 January 2024, a transaction at noon on 31 January 2024 is not counted | count every transaction dated in the current calendar month: the stage is commented "Get current month spending by category" (budgets.ts:117) and the bound is named `endOfMonth` (budgets.ts:120) | high, not executed | Budgets.SpentAsWrittenMissesLastDay | Budgets.SpentCountsWholeMonth |
