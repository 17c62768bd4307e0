/**
 * Client code in the shape of the repository's unit tests: concrete budgets, reports and JSON
 * objects, with the outcome each test expects stated as a postcondition.
 */
module Scenarios {
  import opened Results
  import opened Dates
  import opened JsonValues
  import opened Entries
  import opened Reports
  import opened Budgets
  import opened JsonReading

  /** ReportTest: three entries dated April 3 2004, November 20 2008 and August 7 2018. */
  method ThreeEntryReport() returns (report: Report, e1: Entry, e2: Entry, e3: Entry)
    ensures fresh(report) && report.entries == [e1, e2, e3]
    ensures e1.date == Date(2004, 3, 3) && e2.date == Date(2008, 10, 20) && e3.date == Date(2018, 7, 7)
    ensures e1.amount == 100.0 && e2.amount == 65.0 && e3.amount == 134.0
    ensures e1 != e2 && e2 != e3 && e1 != e3
  {
    var r1 := NewExpense("Entry 1", 100.0, Date(2004, 3, 3));
    var r2 := NewExpense("Entry 2", 65.0, Date(2008, 10, 20));
    var r3 := NewExpense("Entry 3", 134.0, Date(2018, 7, 7));
    e1, e2, e3 := r1.value, r2.value, r3.value;
    report := new Report();
    report.AddEntry(e1);
    report.AddEntry(e2);
    report.AddEntry(e3);
  }

  /** ReportTest.testDeleteEntryMany: deleting the middle entry, then the first. */
  method DeleteMany() returns (sizes: seq<int>, left: seq<Entry>, e3: Entry)
    ensures sizes == [3, 2, 1]
    ensures left == [e3]
  {
    var report, e1, e2, e := ThreeEntryReport();
    e3 := e;
    var n0 := report.Size();
    assert IndexOf(report.entries, e2) == 1;
    report.DeleteEntry(e2);
    assert report.entries == [e1, e3];
    var n1 := report.Size();
    assert IndexOf(report.entries, e1) == 0;
    report.DeleteEntry(e1);
    var n2 := report.Size();
    sizes := [n0, n1, n2];
    left := report.GetAllEntries();
  }

  /** ReportTest.testGetEntriesInRangeNoneInRange: a range ending before the first entry. */
  method RangeNone() returns (r: seq<Entry>)
    ensures r == []
  {
    var report, e1, e2, e3 := ThreeEntryReport();
    r := report.GetEntriesInRange(Date(2003, 11, 3), Date(2004, 3, 2));
    EntriesInRangeNone(report.entries, Date(2003, 11, 3), Date(2004, 3, 2));
  }

  /** ReportTest.testGetEntriesInRangeOneInRange: from the second entry's own date to January 2018. */
  method RangeOne() returns (r: seq<Entry>, e2: Entry)
    ensures r == [e2]
  {
    var report, e1, e, e3 := ThreeEntryReport();
    e2 := e;
    var start, end := Date(2008, 10, 20), Date(2018, 0, 20);
    r := report.GetEntriesInRange(start, end);
    assert !InRange(e1, start, end) && InRange(e2, start, end) && !InRange(e3, start, end);
    EntriesInRangeAppend([], e1, start, end);
    assert [] + [e1] == [e1];
    assert EntriesInRange([e1], start, end) == [];
    EntriesInRangeAppend([e1], e2, start, end);
    assert [e1] + [e2] == [e1, e2];
    assert EntriesInRange([e1, e2], start, end) == [e2];
    EntriesInRangeAppend([e1, e2], e3, start, end);
    assert [e1, e2] + [e3] == report.entries;
  }

  /** ReportTest.testGetEntriesInRangeAllInRange: both ends inclusive, from the first date to the last. */
  method RangeAll() returns (r: seq<Entry>, e1: Entry, e2: Entry, e3: Entry)
    ensures r == [e1, e2, e3]
  {
    var report;
    report, e1, e2, e3 := ThreeEntryReport();
    r := report.GetEntriesInRange(Date(2004, 3, 3), Date(2018, 7, 7));
    EntriesInRangeAll(report.entries, Date(2004, 3, 3), Date(2018, 7, 7));
  }

  /** ReportTest.testSumEntriesMany: the sum is the total of the three amounts. */
  method SumOfThree() returns (total: real)
    ensures total == 299.0
  {
    var report, e1, e2, e3 := ThreeEntryReport();
    total := report.Sum();
    TotalAmountAppend([], e1);
    TotalAmountAppend([e1], e2);
    TotalAmountAppend([e1, e2], e3);
    assert [] + [e1] == [e1] && [e1] + [e2] == [e1, e2] && [e1, e2] + [e3] == report.entries;
  }

  /** BudgetTest.testAddExpense: the expense shows through the report references fetched before. */
  method AddExpenseSeen() returns (expenses: int, incomes: int, inExpenses: bool, inIncomes: bool)
    ensures expenses == 1 && incomes == 0
    ensures inExpenses && !inIncomes
  {
    var budget := new Budget();
    var r := NewExpense("Entry 2", 65.58, Date(2008, 3, 19));
    var expense := r.value;
    var expenseReport := budget.GetExpenseReport();
    var incomeReport := budget.GetIncomeReport();
    budget.AddExpense(expense);
    expenses := expenseReport.Size();
    incomes := incomeReport.Size();
    inExpenses := expenseReport.Contains(expense);
    inIncomes := incomeReport.Contains(expense);
  }

  /** BudgetTest.testAddIncome: the income shows in the income report only. */
  method AddIncomeSeen() returns (expenses: int, incomes: int, inExpenses: bool, inIncomes: bool)
    ensures expenses == 0 && incomes == 1
    ensures !inExpenses && inIncomes
  {
    var budget := new Budget();
    var r := NewIncome("Entry 1", 100.0, Date(2008, 3, 3));
    var income := r.value;
    var expenseReport := budget.GetExpenseReport();
    var incomeReport := budget.GetIncomeReport();
    budget.AddIncome(income);
    expenses := expenseReport.Size();
    incomes := incomeReport.Size();
    inExpenses := expenseReport.Contains(income);
    inIncomes := incomeReport.Contains(income);
  }

  /** A budget holding one expense and one income of the given amounts. */
  method OneOfEach(expense: real, income: real) returns (budget: Budget)
    requires expense >= 0.0 && income >= 0.0
    ensures budget.Valid()
    ensures TotalAmount(budget.expenseReport.entries) == expense
    ensures TotalAmount(budget.incomeReport.entries) == income
  {
    budget := new Budget();
    var e := NewExpense("Entry 2", expense, Date(2008, 3, 19));
    var i := NewIncome("Entry 1", income, Date(2008, 3, 3));
    budget.AddExpense(e.value);
    budget.AddIncome(i.value);
  }

  /** BudgetTest.testIsSurplus: income 100.00 against an expense of 65.58. */
  method SurplusCase() returns (surplus: bool, deficit: bool)
    ensures surplus && !deficit
  {
    var b := OneOfEach(65.58, 100.0);
    surplus := b.IsSurplus();
    deficit := b.IsDeficit();
  }

  /** BudgetTest.testIsDeficit: the same amounts the other way round. */
  method DeficitCase() returns (surplus: bool, deficit: bool)
    ensures !surplus && deficit
  {
    var b := OneOfEach(100.0, 65.58);
    surplus := b.IsSurplus();
    deficit := b.IsDeficit();
  }

  /** BudgetTest zero cases: equal totals are neither a surplus nor a deficit. */
  method BalancedBudget() returns (surplus: bool, deficit: bool)
    ensures !surplus && !deficit
  {
    var b := OneOfEach(100.0, 100.0);
    surplus := b.IsSurplus();
    deficit := b.IsDeficit();
  }

  /** A report object holding the given entry objects. */
  function ReportOf(items: seq<Json>): Json {
    JObject(map["entries" := JArray(items)])
  }

  /** JsonReaderTest.testReaderEmptyBudget: two empty entries arrays give two empty reports. */
  method ReadEmptyBudget() returns (expensesEmpty: bool, incomesEmpty: bool)
    ensures expensesEmpty && incomesEmpty
  {
    var o := map["expenseReport" := ReportOf([]), "incomeReport" := ReportOf([])];
    var r := ParseBudget(o);
    var budget := r.value;
    var expenseReport := budget.GetExpenseReport();
    var incomeReport := budget.GetIncomeReport();
    expensesEmpty := expenseReport.IsEmpty();
    incomesEmpty := incomeReport.IsEmpty();
  }

  /** JsonWriterTest: a budget written by toJson and read back holds the same fields in the same order. */
  method WriteThenRead() returns (f: EntryFields, incomes: int)
    ensures f == EntryFields("test expense 1", 100.0, Date(2020, 10, 25))
    ensures incomes == 0
  {
    var written := new Budget();
    var e := NewExpense("test expense 1", 100.0, Date(2020, 10, 25));
    written.AddExpense(e.value);
    assert written.Data() == BudgetData([e.value.Fields()], []);
    var r := ReadAfterWrite(written);
    var read := r.value;
    var expenses := read.expenseReport.GetAllEntries();
    SnapshotsAt(expenses, 0);
    f := expenses[0].Fields();
    incomes := read.incomeReport.Size();
  }

  /** An entry object with an empty description aborts the parse with EmptyStringException. */
  method ReadEmptyDescription() returns (r: Result<Budget, ReadError>)
    ensures r == Err(InvalidEntry(EmptyString))
  {
    var entry := map["description" := JString(""), "amount" := JNumber(-1.0),
                     "date" := JObject(EncodeDate(Date(2020, 10, 25)))];
    var o := map["expenseReport" := ReportOf([JObject(entry)]), "incomeReport" := ReportOf([])];
    assert DecodeEntry(entry) == Err(InvalidEntry(EmptyString));
    assert [JObject(entry)][..0] == [];
    assert DecodeEntries([JObject(entry)]) == Err(InvalidEntry(EmptyString));
    assert DecodeReport(o, "expenseReport") == Err(InvalidEntry(EmptyString));
    r := ParseBudget(o);
  }

  /** A budget object without an expense report aborts the parse before anything is read. */
  method ReadWithoutExpenses() returns (r: Result<Budget, ReadError>)
    ensures r == Err(NotFound("expenseReport"))
  {
    var o := map["incomeReport" := ReportOf([])];
    r := ParseBudget(o);
  }
}
