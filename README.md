# Budget manager: entries, reports, budgets and JSON reading

This project models the data core of a personal budget manager in Dafny and proves
properties about it:

- An **entry** (`Entry.java`, with subclasses `Expense` and `Income`) holds a description,
  an amount and a date. The constructor and the setters validate what they store.
- A **report** (`Report.java`) is an ordered list of entries. You can add entries, delete
  one, ask whether one is contained, filter by an inclusive date range and sum the amounts.
- A **budget** (`Budget.java`) owns one expense report and one income report, and compares
  their totals.
- The **JSON reader** (`JsonReader.java`) rebuilds a budget from the object tree that
  `toJson` produces.

How the model is laid out:

- `results.dfy` (`Results`): the `Result` and `Outcome` types. They stand in for the Java
  exceptions. `EmptyStringException` and `NegativeInputException` become `EntryError`.
  JSON lookup failures and bad casts become `ReadError`.
- `dates.dfy` (`Dates`): a `Calendar` is modelled by the triple `(year, month, day)`. The
  month is 0-based, as in `Calendar.MONTH`. `Before` is `Calendar.before` on whole days.
- `json.dfy` (`JsonValues`): JSON values as an in-memory tree (object, array, string,
  number). A `JSONObject` is a `map<string, Json>`.
- `entry.dfy` (`Entries`):
  - `Entry` is a class whose `description`, `amount` and `date` fields the setters update in
    place.
  - The two subclasses become one `kind` constant.
  - The subset types `Description` (never `""`) and `Amount` (never negative) make the
    entry invariant hold after construction and after any sequence of setter calls.
- `report.dfy` (`Reports`):
  - `Report` is a class with a `seq<Entry>` field. Entries are compared by reference, since
    `Entry` does not override `equals`.
  - The loops of `sum` and `getEntriesInRange` are proved against the functions
    `TotalAmount` and `EntriesInRange`, and lemmas about those functions state what the
    loops compute.
- `budget.dfy` (`Budgets`): `Budget` has its two reports as constant references, and
  `getDifference`, `isSurplus` and `isDeficit` are stated over the totals.
- `json_reader.dfy` (`JsonReading`):
  - The reader is a set of methods that fill a new budget step by step, as the Java code
    does. Each method is proved against a pure decoder (`DecodeEntry`, `DecodeEntries`,
    `DecodeReport`, `DecodeBudget`).
  - Round-trip lemmas connect the decoders with the encoders.
- `scenarios.dfy` (`Scenarios`): client code in the shape of the repository's unit tests.
  Each test's expected outcome is a postcondition.

Two details of the code that the model keeps as written:

- A description made of spaces only is accepted. `Entry.java:26` and `Entry.java:39` test
  `isEmpty()`, not a trimmed string.
- `getEntriesInRange` includes both ends of the range (`Report.java:44`).

## Model

| member | source | states |
|---|---|---|
| Dates.Before | src/main/model/Report.java:44 | `Calendar.before` (and `after`, with the arguments swapped) on whole-day dates: a date never lies before itself |
| Dates.BeforeTrichotomy | src/main/model/Report.java:44 | two dates are equal or one lies before the other, and never each before the other |
| Dates.BeforeTransitive | src/main/model/Report.java:44 | lying before is transitive |
| JsonValues.TruncateToInt | src/main/persistence/JsonReader.java:104-106 | `getInt` on a number keeps its integer part, rounding toward zero: the result is within one of the number, on the zero side |
| Entries.Validate | src/main/model/Entry.java:25-30 | validation passes exactly when the description is non-empty and the amount is at least 0; an empty description gives EmptyString even when the amount is also negative; otherwise a negative amount gives NegativeInput |
| Entries.EncodeDate | src/main/model/Entry.java:104-110 | `dateToJson` gives an object with exactly the keys year, month and day |
| Entries.EncodeEntry | src/main/model/Entry.java:95-101 | `toJson` gives an object with exactly the keys description, amount and date |
| Entries.Entry.constructor | src/main/model/Entry.java:31-33 | after validation, the kind, description, amount and date are stored as given |
| Entries.Entry.Fields | src/main/model/Entry.java:66-76 | what the three getters return at one moment: the stored description, amount and date; the description is never empty and the amount never negative |
| Entries.Entry.GetDescription | src/main/model/Entry.java:66-68 | `getDescription` returns the stored description, which is never empty |
| Entries.Entry.GetAmount | src/main/model/Entry.java:70-72 | `getAmount` returns the stored amount, which is never negative |
| Entries.Entry.GetDate | src/main/model/Entry.java:74-76 | `getDate` returns the stored date |
| Entries.Entry.GetEntry | src/main/model/Entry.java:62-64 | `getEntry` returns the entry object itself |
| Entries.Entry.SetDescription | src/main/model/Entry.java:38-43 | `""` fails with EmptyString and leaves the description unchanged; any other string is stored verbatim; amount and date are unchanged |
| Entries.Entry.SetAmount | src/main/model/Entry.java:45-50 | a negative amount fails with NegativeInput and leaves the amount unchanged; an amount of 0 or more is stored; description and date are unchanged |
| Entries.Entry.SetDate | src/main/model/Entry.java:52-54 | the date becomes the given one, with no check; the other fields are unchanged |
| Entries.Entry.SetDateFields | src/main/model/Entry.java:56-58 | for a Gregorian date from 1583 on, with a 0-based month and a day within the month, the date's fields become exactly those; the other fields are unchanged |
| Entries.Entry.ToJson | src/main/model/Entry.java:95-110 | the object holds the entry's description, amount and a date object whose year, month and day are the entry's, and no other keys |
| Entries.Construct | src/main/model/Entry.java:25-34 | construction succeeds exactly when validation passes; on failure the error is the one validation reports; on success the new object holds the given kind, description, amount and date |
| Entries.NewExpense | src/main/model/Expense.java:14-17 | `new Expense`: an empty description is rejected with EmptyString first, then a negative amount with NegativeInput; valid arguments, amount 0 included, give a fresh Expense holding them unchanged |
| Entries.NewIncome | src/main/model/Income.java:14-17 | `new Income`: the same validation and order as Expense; valid arguments give a fresh Income holding them unchanged |
| Reports.IndexOf | src/main/model/Report.java:25-27 | the position `List.remove(Object)` removes: -1 exactly when the entry is absent, otherwise a position holding it with no earlier occurrence |
| Reports.TotalAmount | src/main/model/Report.java:57-64 | the total of a sequence of entries is never negative, and is 0 for no entries |
| Reports.TotalAmountAppend | src/main/model/Report.java:57-64 | appending an entry adds exactly its amount to the total |
| Reports.SnapshotsAt | src/main/model/Entry.java:66-76 | position i of a report's field snapshot holds what the getters of the entry at position i return |
| Reports.SnapshotsOf | src/main/model/Entry.java:66-76 | a sequence of fields that matches the entries position by position is their snapshot |
| Reports.EntriesInRange | src/main/model/Report.java:40-49 | the reference filter the loop is proved against: never longer than the report, and every entry it holds is in range |
| Reports.EntriesInRangeCount | src/main/model/Report.java:43-47 | every copy of an in-range entry object is kept, and no copy of an out-of-range one |
| Reports.EntriesInRangeAppend | src/main/model/Report.java:43-47 | one more entry joins the range result, at its end, exactly when its date is neither before start nor after end |
| Reports.EntriesInRangeMembers | src/main/model/Report.java:40-49 | an entry is in the range result exactly when it is in the report and start ≤ its date ≤ end, both ends inclusive |
| Reports.EntriesInRangeOrdered | src/main/model/Report.java:40-49 | the range result is a subsequence of the report: report order is kept |
| Reports.EntriesInRangeAll | src/test/model/ReportTest.java:153-165 | when every entry is in range the result is the whole report, in order |
| Reports.EntriesInRangeNone | src/test/model/ReportTest.java:121-136 | when no entry is in range the result is empty |
| Reports.RemoveAt | src/main/model/Report.java:25-27 | closing the gap at one position shortens the list by one and removes exactly one copy of that element |
| Reports.Report.constructor | src/main/model/Report.java:12-14 | a new report holds no entries |
| Reports.Report.AddEntry | src/main/model/Report.java:18-20 | the entries become the old entries followed by e |
| Reports.Report.DeleteEntry | src/main/model/Report.java:25-27 | an absent entry changes nothing; otherwise the first occurrence of e is removed, the entries before and after it keep their order, the size drops by one and exactly one copy of e leaves the multiset |
| Reports.Report.Size | src/main/model/Report.java:30-32 | the number of entries |
| Reports.Report.Contains | src/main/model/Report.java:35-37 | true exactly when this very entry object is in the report |
| Reports.Report.GetEntriesInRange | src/main/model/Report.java:40-49 | the loop's result is the in-range entries in report order; an entry is in it exactly when it is in the report and dated from start to end inclusive |
| Reports.Report.GetAllEntries | src/main/model/Report.java:52-54 | the entries in insertion order |
| Reports.Report.Sum | src/main/model/Report.java:57-64 | the loop's result is the total of all amounts, 0 for an empty report and never negative |
| Reports.Report.IsEmpty | src/main/model/Report.java:67-69 | true exactly when the size is 0 |
| Budgets.EncodeReport | src/main/persistence/JsonReader.java:57-61 | (inferred encoder) a report becomes an object whose only key, entries, holds one toJson object per entry, in order |
| Budgets.EncodeBudget | src/main/persistence/JsonReader.java:47-52 | (inferred encoder) a budget becomes an object with exactly the keys expenseReport and incomeReport, each holding its report's encoding |
| Budgets.Budget.Data | src/main/model/Entry.java:66-76 | the budget's contents as values: one field snapshot per entry of each report, position by position, as the getters return them |
| Budgets.Budget.ToJson | src/main/persistence/JsonWriter.java:30 | (inferred encoder) the `budget.toJson()` the writer calls: exactly the keys expenseReport and incomeReport, each a report object whose entries array holds the toJson object of each entry of that report, in report order |
| Budgets.Budget.constructor | src/main/model/Budget.java:11-14 | a new budget owns two distinct, fresh, empty reports |
| Budgets.Budget.AddExpense | src/main/model/Budget.java:17-19 | e is appended to the expense report, and the income report is unchanged |
| Budgets.Budget.AddIncome | src/main/model/Budget.java:22-24 | i is appended to the income report, and the expense report is unchanged |
| Budgets.Budget.GetDifference | src/main/model/Budget.java:27-29 | the income total minus the expense total |
| Budgets.Budget.IsSurplus | src/main/model/Budget.java:32-34 | true exactly when the income total exceeds the expense total (so never together with a deficit, and false on equal totals) |
| Budgets.Budget.IsDeficit | src/main/model/Budget.java:37-39 | true exactly when the expense total exceeds the income total |
| Budgets.Budget.GetIncomeReport | src/main/model/Budget.java:42-44 | the owned income report object itself, so later additions show through it |
| Budgets.Budget.GetExpenseReport | src/main/model/Budget.java:47-49 | the owned expense report object itself |
| JsonReading.GetJsonObject | src/main/persistence/JsonReader.java:57 | a missing key fails with NotFound and a non-object value with WrongType; it succeeds exactly when the key holds an object, and returns that object |
| JsonReading.GetJsonArray | src/main/persistence/JsonReader.java:58 | the same for an array value |
| JsonReading.GetString | src/main/persistence/JsonReader.java:81 | the same for a string value |
| JsonReading.GetDouble | src/main/persistence/JsonReader.java:82 | the same for a number value |
| JsonReading.GetInt | src/main/persistence/JsonReader.java:104-106 | a missing key or a non-number fails; a number gives its truncation toward zero |
| JsonReading.GetDate | src/main/persistence/JsonReader.java:101-111 | a missing date fails with NotFound; it succeeds exactly when date, year, month and day are all present and numeric, and then gives year, 0-based month and day as read |
| JsonReading.DecodeEntry | src/main/persistence/JsonReader.java:80-86 | a missing or mistyped key fails with a lookup error, never a validation error; a well-formed object fails exactly as the Entry constructor would on its description and amount; on success the fields are the JSON's description, amount and date |
| JsonReading.DecodeElement | src/main/persistence/JsonReader.java:60-62 | an array element that is not an object fails the cast; an object is decoded as an entry |
| JsonReading.DecodeEntries | src/main/persistence/JsonReader.java:60-63 | the reference decoding the entries loops are proved against: an empty array gives no entries, and a success has exactly one entry per element |
| JsonReading.DecodeReport | src/main/persistence/JsonReader.java:56-64 | a missing report key or entries key fails with NotFound; on success the report object holds an entries array, and the result is its decoding |
| JsonReading.DecodeBudget | src/main/persistence/JsonReader.java:47-52 | the expense report is read first and its error wins; then the income report; it succeeds exactly when both do, with their decodings as expenses and incomes |
| JsonReading.DecodeEntriesStep | src/main/persistence/JsonReader.java:60-63 | one loop iteration: the decoding of the next prefix extends the previous one by one element, or carries the first error |
| JsonReading.DecodeEntriesPrefixError | src/main/persistence/JsonReader.java:60-63 | once a prefix of the array fails, the whole array fails with that same error |
| JsonReading.DecodeEntriesAll | src/main/persistence/JsonReader.java:60-63 | an array whose elements each decode gives exactly those decodings, in array order |
| JsonReading.DecodeEntriesPointwise | src/main/persistence/JsonReader.java:60-63 | a successful decoding has one entry per array element, in order, each the decoding of its element |
| JsonReading.DecodeEntriesFirstError | src/main/persistence/JsonReader.java:60-63 | a failed decoding carries the error of the first element that does not decode; all earlier elements decode |
| JsonReading.DecodeEntriesOkIff | src/main/persistence/JsonReader.java:60-63 | the array decodes exactly when every element does |
| JsonReading.EntryRoundTrip | src/main/model/Entry.java:95-110 | decoding an entry's toJson object gives back the same description, amount and date |
| JsonReading.ReportRoundTrip | src/main/persistence/JsonReader.java:56-64 | decoding a report's encoding gives back the same entries in the same order, whatever else the enclosing object holds |
| JsonReading.BudgetRoundTrip | src/test/persistence/JsonWriterTest.java:55-81 | decoding a budget's encoding gives back the same expenses and incomes, field for field and in order |
| JsonReading.AddExpense | src/main/persistence/JsonReader.java:80-87 | when the object does not decode, the error is returned and the expense report is unchanged; otherwise one fresh Expense holding the decoded fields is appended; the income report is never touched |
| JsonReading.AddIncome | src/main/persistence/JsonReader.java:91-98 | the same for a fresh Income appended to the income report |
| JsonReading.AddExpenseEntries | src/main/persistence/JsonReader.java:60-63 | the loop fails exactly when the array does not decode, with the first element's error; on success the expense report gained exactly one fresh Expense per element at its end, with the decoded fields in array order, and its old entries are kept |
| JsonReading.AddIncomeEntries | src/main/persistence/JsonReader.java:72-75 | the same for Incomes and the income report |
| JsonReading.AddExpenseReport | src/main/persistence/JsonReader.java:56-64 | fails exactly when expenseReport does not decode, with its error; on success one fresh Expense per array element is appended in order; the income report is unchanged |
| JsonReading.AddIncomeReport | src/main/persistence/JsonReader.java:68-76 | the same for incomeReport; the expense report is unchanged |
| JsonReading.ParseBudget | src/main/persistence/JsonReader.java:47-52 | fails exactly when the budget object does not decode, with the same error, and then no budget is returned; otherwise a fresh budget whose report contents are the decoding, all expenses of kind Expense and all incomes of kind Income |
| JsonReading.ReadAfterWrite | src/test/persistence/JsonWriterTest.java:55-81 | parsing a budget's toJson always succeeds, with a different budget holding the same entries, field for field and in order |
| Scenarios.DeleteMany | src/test/model/ReportTest.java:96-119 | deleting the middle entry, then the first, of three gives sizes 3, 2, 1 and leaves only the last |
| Scenarios.RangeNone | src/test/model/ReportTest.java:121-136 | a range that ends before the first entry gives nothing |
| Scenarios.RangeOne | src/test/model/ReportTest.java:138-151 | a range from the second entry's own date to January 2018 gives exactly the second entry |
| Scenarios.RangeAll | src/test/model/ReportTest.java:153-165 | a range from the first date to the last gives all three entries in order |
| Scenarios.SumOfThree | src/test/model/ReportTest.java:196-204 | entries of 100, 65 and 134 sum to 299 |
| Scenarios.AddExpenseSeen | src/test/model/BudgetTest.java:47-65 | an added expense is seen through report references taken earlier: it is in the expense report only |
| Scenarios.AddIncomeSeen | src/test/model/BudgetTest.java:67-85 | an added income is in the income report only |
| Scenarios.SurplusCase | src/test/model/BudgetTest.java:87-99 | income 100.00 against expense 65.58 is a surplus and not a deficit |
| Scenarios.DeficitCase | src/test/model/BudgetTest.java:115-127 | the swapped amounts give a deficit and not a surplus |
| Scenarios.BalancedBudget | src/test/model/BudgetTest.java:101-113 | equal totals are neither a surplus nor a deficit |
| Scenarios.ReadEmptyBudget | src/test/persistence/JsonReaderTest.java:28-38 | two empty entries arrays give two empty reports |
| Scenarios.WriteThenRead | src/test/persistence/JsonWriterTest.java:55-81 | an expense written and read back keeps its description, amount and date |
| Scenarios.ReadEmptyDescription | src/main/persistence/JsonReader.java:85 | an entry with an empty description (and a negative amount) aborts the parse with EmptyString |
| Scenarios.ReadWithoutExpenses | src/main/persistence/JsonReader.java:57 | a budget object without expenseReport aborts the parse with NotFound |

## Left out

- The user interface (`src/main/ui/`): Swing widgets, console menus and drawing.
- `JsonWriter`, `JsonReader.read` and `JsonReader.readFile`: file I/O. JSON is modelled as a value tree, with no text parsing or pretty-printing.
- org.json's coercions are not modelled: `getDouble` and `getInt` also accept numeric strings. In the model every accessor accepts only its own JSON type, as `getString` does in org.json.
- IEEE-754 doubles: amounts are exact reals, so `sum` has no rounding.
- `getInt` on values outside int range is not modelled. `Double.intValue` saturates there, and org.json reads such an integer as a `Long`, whose `intValue` wraps around. The model truncates without any bound.
- Entries.Entry.SetDateFields: years before 1583 are not modelled. Before then `GregorianCalendar` follows Julian rules, skips 5 to 14 October 1582 and counts years in eras. The precondition admits only Gregorian dates from 1583 on. Years past `GregorianCalendar`'s maximum are not modelled either.
- `java.util.Calendar`: time of day, time zones, and roll-over of out-of-range fields are not modelled. `SetDateFields` requires an in-range date. `JsonReading.GetDate` keeps the triple as read, without `GregorianCalendar`'s normalisation.
- The aliasing of the `Calendar` object that `setDate(int, int, int)` mutates, and that callers may share: dates are values.
- `Entry.toString`: locale-dependent formatting.
- `getDate` hands out the entry's own `Calendar`, which the caller can then mutate. The model returns the date as a value.
- `ExpenseReport` and `IncomeReport` are modelled as plain `Report`.
- `Writable`: an interface with no logic.
- `Report.GetAllEntries`: returns the sequence value. Java's live list would also let callers mutate the report.
- `Budgets.Budget.ToJson`, `Budgets.EncodeBudget` and `Budgets.EncodeReport` are inferred. `JsonWriter.java:30` calls `budget.toJson()`, but `Budget.java` and `Report.java` define no `toJson`. All three members follow the key layout the reader expects.
- JsonReading.AddExpenseReport, JsonReading.AddIncomeReport, JsonReading.AddExpenseEntries and JsonReading.AddIncomeEntries: on failure the contract gives the error but not which entries the loop appended before the failing element. `ParseBudget` discards that budget in any case.
