/** Budget.java: one expense report and one income report, and the balance between them. */
module Budgets {
  import opened Entries
  import opened Reports
  import opened JsonValues

  /** The contents of a budget as values: the fields of its expenses and of its incomes, in order. */
  datatype BudgetData = BudgetData(expenses: seq<EntryFields>, incomes: seq<EntryFields>)

  /**
   * An inferred encoder for a report: an object whose key entries holds the entries' toJson
   * objects, in order, as the reader expects.
   */
  function EncodeReport(fs: seq<EntryFields>): (j: JsonObject)
    ensures j.Keys == {"entries"} && j["entries"].JArray? && |j["entries"].items| == |fs|
    ensures forall i :: 0 <= i < |fs| ==> j["entries"].items[i] == JObject(EncodeEntry(fs[i]))
  {
    map["entries" := JArray(seq(|fs|, i requires 0 <= i < |fs| => JObject(EncodeEntry(fs[i]))))]
  }

  /**
   * An inferred encoder for a whole budget: the writer calls a toJson of Budget that Budget.java
   * does not define, so the layout is the one the reader expects, keys expenseReport and
   * incomeReport, each holding a report object.
   */
  function EncodeBudget(d: BudgetData): (j: JsonObject)
    ensures j.Keys == {"expenseReport", "incomeReport"}
    ensures j["expenseReport"] == JObject(EncodeReport(d.expenses))
    ensures j["incomeReport"] == JObject(EncodeReport(d.incomes))
  {
    map["expenseReport" := JObject(EncodeReport(d.expenses)), "incomeReport" := JObject(EncodeReport(d.incomes))]
  }

  /** j is a report object whose entries array holds the toJson object of each of es, in order. */
  ghost predicate ReportJson(j: Json, es: seq<Entry>)
    reads es
  {
    && j.JObject? && j.fields.Keys == {"entries"} && j.fields["entries"].JArray?
    && |j.fields["entries"].items| == |es|
    && forall i :: 0 <= i < |es| ==> j.fields["entries"].items[i] == JObject(es[i].ToJson())
  }

  class Budget {
    const expenseReport: Report
    const incomeReport: Report

    /** The two reports are distinct objects, so adding to one leaves the other alone. */
    ghost predicate Valid() {
      expenseReport != incomeReport
    }

    /** A new budget owns a fresh, empty expense report and a fresh, empty income report. */
    constructor ()
      ensures Valid()
      ensures fresh(expenseReport) && fresh(incomeReport)
      ensures expenseReport.entries == [] && incomeReport.entries == []
    {
      expenseReport := new Report();
      incomeReport := new Report();
    }

    /** The fields of every entry of both reports. */
    function Data(): (d: BudgetData)
      reads expenseReport, incomeReport, expenseReport.entries, incomeReport.entries
      ensures |d.expenses| == |expenseReport.entries| && |d.incomes| == |incomeReport.entries|
      ensures forall i :: 0 <= i < |expenseReport.entries| ==> d.expenses[i] == expenseReport.entries[i].Fields()
      ensures forall i :: 0 <= i < |incomeReport.entries| ==> d.incomes[i] == incomeReport.entries[i].Fields()
    {
      forall i | 0 <= i < |expenseReport.entries| ensures Snapshots(expenseReport.entries)[i] == expenseReport.entries[i].Fields() {
        SnapshotsAt(expenseReport.entries, i);
      }
      forall i | 0 <= i < |incomeReport.entries| ensures Snapshots(incomeReport.entries)[i] == incomeReport.entries[i].Fields() {
        SnapshotsAt(incomeReport.entries, i);
      }
      BudgetData(Snapshots(expenseReport.entries), Snapshots(incomeReport.entries))
    }

    /**
     * toJson of the whole budget, as the writer calls it; inferred, like EncodeBudget. Each
     * report's entries array holds each entry's own toJson object, in report order.
     */
    function ToJson(): (j: JsonObject)
      reads expenseReport, incomeReport, expenseReport.entries, incomeReport.entries
      ensures j.Keys == {"expenseReport", "incomeReport"}
      ensures ReportJson(j["expenseReport"], expenseReport.entries)
      ensures ReportJson(j["incomeReport"], incomeReport.entries)
    {
      EncodeBudget(Data())
    }

    /** addExpense: appends e to the expense report only. */
    method AddExpense(e: Entry)
      requires Valid()
      requires e.kind == Expense
      modifies expenseReport
      ensures expenseReport.entries == old(expenseReport.entries) + [e]
      ensures incomeReport.entries == old(incomeReport.entries)
    {
      expenseReport.AddEntry(e);
    }

    /** addIncome: appends i to the income report only. */
    method AddIncome(i: Entry)
      requires Valid()
      requires i.kind == Income
      modifies incomeReport
      ensures incomeReport.entries == old(incomeReport.entries) + [i]
      ensures expenseReport.entries == old(expenseReport.entries)
    {
      incomeReport.AddEntry(i);
    }

    /** getDifference: total income minus total expenses. */
    method GetDifference() returns (d: real)
      ensures d == TotalAmount(incomeReport.entries) - TotalAmount(expenseReport.entries)
    {
      var income := incomeReport.Sum();
      var expenses := expenseReport.Sum();
      d := income - expenses;
    }

    /** isSurplus: the income exceeds the expenses. */
    method IsSurplus() returns (b: bool)
      ensures b <==> TotalAmount(incomeReport.entries) > TotalAmount(expenseReport.entries)
    {
      var d := GetDifference();
      b := d > 0.0;
    }

    /** isDeficit: the expenses exceed the income. */
    method IsDeficit() returns (b: bool)
      ensures b <==> TotalAmount(incomeReport.entries) < TotalAmount(expenseReport.entries)
    {
      var d := GetDifference();
      b := d < 0.0;
    }

    /** getIncomeReport: the owned income report itself, not a copy. */
    method GetIncomeReport() returns (r: Report)
      ensures r == incomeReport
    {
      r := incomeReport;
    }

    /** getExpenseReport: the owned expense report itself, not a copy. */
    method GetExpenseReport() returns (r: Report)
      ensures r == expenseReport
    {
      r := expenseReport;
    }
  }
}
