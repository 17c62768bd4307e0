/** JsonReader.java: rebuilding a budget from the JSON object tree the writer produces. */
module JsonReading {
  import opened Results
  import opened Dates
  import opened JsonValues
  import opened Entries
  import opened Reports
  import opened Budgets

  /** What parsing can throw. */
  datatype ReadError =
    | NotFound(key: string)           // JSONException: the key is missing
    | WrongType(key: string)          // JSONException: the value under the key has another type
    | NotAnObject                     // ClassCastException from the (JSONObject) cast of an array element
    | InvalidEntry(cause: EntryError) // EmptyStringException or NegativeInputException from the constructor

  // The JSONObject accessors the reader calls.

  /** getJSONObject */
  function GetJsonObject(o: JsonObject, key: string): (r: Result<JsonObject, ReadError>)
    ensures key !in o ==> r == Err(NotFound(key))
    ensures key in o && !o[key].JObject? ==> r == Err(WrongType(key))
    ensures r.Ok? <==> key in o && o[key].JObject?
    ensures r.Ok? ==> o[key] == JObject(r.value)
  {
    if key !in o then Err(NotFound(key))
    else if o[key].JObject? then Ok(o[key].fields)
    else Err(WrongType(key))
  }

  /** getJSONArray */
  function GetJsonArray(o: JsonObject, key: string): (r: Result<seq<Json>, ReadError>)
    ensures key !in o ==> r == Err(NotFound(key))
    ensures key in o && !o[key].JArray? ==> r == Err(WrongType(key))
    ensures r.Ok? <==> key in o && o[key].JArray?
    ensures r.Ok? ==> o[key] == JArray(r.value)
  {
    if key !in o then Err(NotFound(key))
    else if o[key].JArray? then Ok(o[key].items)
    else Err(WrongType(key))
  }

  /** getString */
  function GetString(o: JsonObject, key: string): (r: Result<string, ReadError>)
    ensures key !in o ==> r == Err(NotFound(key))
    ensures key in o && !o[key].JString? ==> r == Err(WrongType(key))
    ensures r.Ok? <==> key in o && o[key].JString?
    ensures r.Ok? ==> o[key] == JString(r.value)
  {
    if key !in o then Err(NotFound(key))
    else if o[key].JString? then Ok(o[key].s)
    else Err(WrongType(key))
  }

  /** getDouble */
  function GetDouble(o: JsonObject, key: string): (r: Result<real, ReadError>)
    ensures key !in o ==> r == Err(NotFound(key))
    ensures key in o && !o[key].JNumber? ==> r == Err(WrongType(key))
    ensures r.Ok? <==> key in o && o[key].JNumber?
    ensures r.Ok? ==> o[key] == JNumber(r.value)
  {
    if key !in o then Err(NotFound(key))
    else if o[key].JNumber? then Ok(o[key].n)
    else Err(WrongType(key))
  }

  /** getInt: a number's integer part, rounding toward zero */
  function GetInt(o: JsonObject, key: string): (r: Result<int, ReadError>)
    ensures key !in o ==> r == Err(NotFound(key))
    ensures key in o && !o[key].JNumber? ==> r == Err(WrongType(key))
    ensures r.Ok? <==> key in o && o[key].JNumber?
    ensures r.Ok? ==> r.value == TruncateToInt(o[key].n)
  {
    if key !in o then Err(NotFound(key))
    else if o[key].JNumber? then Ok(TruncateToInt(o[key].n))
    else Err(WrongType(key))
  }

  /** The date object holds numbers under year, month and day. */
  predicate WellFormedDate(o: JsonObject) {
    && "date" in o && o["date"].JObject?
    && "year" in o["date"].fields && o["date"].fields["year"].JNumber?
    && "month" in o["date"].fields && o["date"].fields["month"].JNumber?
    && "day" in o["date"].fields && o["date"].fields["day"].JNumber?
  }

  /** An entry object holds a string description, a number amount and a well-formed date. */
  predicate WellFormedEntry(o: JsonObject) {
    && "description" in o && o["description"].JString?
    && "amount" in o && o["amount"].JNumber?
    && WellFormedDate(o)
  }

  /** getDate: the date of an entry object, read through year, month (0-based) and day. */
  function GetDate(o: JsonObject): (r: Result<Date, ReadError>)
    ensures "date" !in o ==> r == Err(NotFound("date"))
    ensures r.Ok? <==> WellFormedDate(o)
    ensures r.Ok? ==>
      && r.value.year == TruncateToInt(o["date"].fields["year"].n)
      && r.value.month == TruncateToInt(o["date"].fields["month"].n)
      && r.value.day == TruncateToInt(o["date"].fields["day"].n)
  {
    var date :- GetJsonObject(o, "date");
    var year :- GetInt(date, "year");
    var month :- GetInt(date, "month");
    var day :- GetInt(date, "day");
    Ok(Date(year, month, day))
  }

  /**
   * What addExpense and addIncome read before they add: description, amount and date in
   * that order, then the entry constructor's validation.
   */
  function DecodeEntry(o: JsonObject): (r: Result<EntryFields, ReadError>)
    ensures "description" !in o ==> r == Err(NotFound("description"))
    ensures !WellFormedEntry(o) ==> r.Err? && !r.error.InvalidEntry?
    ensures WellFormedEntry(o) ==>
      match Validate(o["description"].s, o["amount"].n)
      case Fail(e) => r == Err(InvalidEntry(e))
      case Pass => r.Ok?
    ensures r.Ok? ==>
      && WellFormedEntry(o)
      && o["description"] == JString(r.value.description)
      && o["amount"] == JNumber(r.value.amount)
      && GetDate(o) == Ok(r.value.date)
  {
    var description :- GetString(o, "description");
    var amount :- GetDouble(o, "amount");
    var date :- GetDate(o);
    match Validate(description, amount)
    case Fail(e) => Err(InvalidEntry(e))
    case Pass => Ok(EntryFields(description, amount, date))
  }

  /** One element of an entries array: the (JSONObject) cast, then DecodeEntry. */
  function DecodeElement(j: Json): (r: Result<EntryFields, ReadError>)
    ensures !j.JObject? ==> r == Err(NotAnObject)
    ensures j.JObject? ==> r == DecodeEntry(j.fields)
  {
    if j.JObject? then DecodeEntry(j.fields) else Err(NotAnObject)
  }

  /** The entries loop: every element in order, stopping at the first one that throws. */
  function DecodeEntries(items: seq<Json>): (r: Result<seq<EntryFields>, ReadError>)
    ensures items == [] ==> r == Ok([])
    ensures r.Ok? ==> |r.value| == |items|
  {
    if items == [] then Ok([])
    else
      match DecodeEntries(items[..|items| - 1])
      case Err(e) => Err(e)
      case Ok(prefix) =>
        match DecodeElement(items[|items| - 1])
        case Err(e) => Err(e)
        case Ok(f) => Ok(prefix + [f])
  }

  /** addExpenseReport / addIncomeReport without the additions: the report object, its array, its entries. */
  function DecodeReport(o: JsonObject, key: string): (r: Result<seq<EntryFields>, ReadError>)
    ensures key !in o ==> r == Err(NotFound(key))
    ensures key in o && o[key].JObject? && "entries" !in o[key].fields ==> r == Err(NotFound("entries"))
    ensures r.Ok? ==> key in o && o[key].JObject? && "entries" in o[key].fields
                      && o[key].fields["entries"].JArray?
                      && DecodeEntries(o[key].fields["entries"].items) == r
  {
    var report :- GetJsonObject(o, key);
    var items :- GetJsonArray(report, "entries");
    DecodeEntries(items)
  }

  /** parseBudget as a function: the expense report is read in full before the income report. */
  function DecodeBudget(o: JsonObject): (r: Result<BudgetData, ReadError>)
    ensures DecodeReport(o, "expenseReport").Err? ==> r == Err(DecodeReport(o, "expenseReport").error)
    ensures DecodeReport(o, "expenseReport").Ok? && DecodeReport(o, "incomeReport").Err? ==>
      r == Err(DecodeReport(o, "incomeReport").error)
    ensures r.Ok? <==> DecodeReport(o, "expenseReport").Ok? && DecodeReport(o, "incomeReport").Ok?
    ensures r.Ok? ==> r.value.expenses == DecodeReport(o, "expenseReport").value
                      && r.value.incomes == DecodeReport(o, "incomeReport").value
  {
    var expenses :- DecodeReport(o, "expenseReport");
    var incomes :- DecodeReport(o, "incomeReport");
    Ok(BudgetData(expenses, incomes))
  }

  /** The step of the entries loop: one more element decoded, or the first error. */
  lemma DecodeEntriesStep(items: seq<Json>, i: nat)
    requires i < |items|
    ensures DecodeEntries(items[..i + 1]) ==
      match DecodeEntries(items[..i])
      case Err(e) => Err(e)
      case Ok(prefix) =>
        match DecodeElement(items[i])
        case Err(e) => Err(e)
        case Ok(f) => Ok(prefix + [f])
  {
    assert items[..i + 1][..i] == items[..i];
  }

  /** Once a prefix of the array fails, the whole array fails with the same error. */
  lemma {:induction false} DecodeEntriesPrefixError(items: seq<Json>, i: nat)
    requires i <= |items|
    requires DecodeEntries(items[..i]).Err?
    ensures DecodeEntries(items) == DecodeEntries(items[..i])
  {
    if i < |items| {
      assert items[..|items| - 1][..i] == items[..i];
      DecodeEntriesPrefixError(items[..|items| - 1], i);
    } else {
      assert items[..i] == items;
    }
  }

  /** An array whose elements decode one by one decodes as a whole. */
  lemma {:induction false} DecodeEntriesAll(items: seq<Json>, fs: seq<EntryFields>)
    requires |items| == |fs|
    requires forall i :: 0 <= i < |items| ==> DecodeElement(items[i]) == Ok(fs[i])
    ensures DecodeEntries(items) == Ok(fs)
  {
    if items != [] {
      var n := |items| - 1;
      DecodeEntriesAll(items[..n], fs[..n]);
      assert fs == fs[..n] + [fs[n]];
    }
  }

  /** A successful decode holds one entry per element, each the decoding of that element. */
  lemma {:induction false} DecodeEntriesPointwise(items: seq<Json>)
    requires DecodeEntries(items).Ok?
    ensures |DecodeEntries(items).value| == |items|
    ensures forall i :: 0 <= i < |items| ==> DecodeElement(items[i]) == Ok(DecodeEntries(items).value[i])
  {
    if items != [] {
      var n := |items| - 1;
      var init := items[..n];
      DecodeEntriesPointwise(init);
      assert DecodeEntries(items).value == DecodeEntries(init).value + [DecodeElement(items[n]).value];
      assert forall i :: 0 <= i < n ==> init[i] == items[i];
    }
  }

  /** A failed decode carries the error of the first element that does not decode. */
  lemma {:induction false} DecodeEntriesFirstError(items: seq<Json>)
    requires DecodeEntries(items).Err?
    ensures exists i :: 0 <= i < |items| && DecodeElement(items[i]) == Err(DecodeEntries(items).error)
                        && forall k :: 0 <= k < i ==> DecodeElement(items[k]).Ok?
  {
    var n := |items| - 1;
    var init := items[..n];
    assert forall k :: 0 <= k < n ==> init[k] == items[k];
    if DecodeEntries(init).Err? {
      DecodeEntriesFirstError(init);
      var i :| 0 <= i < n && DecodeElement(init[i]) == Err(DecodeEntries(init).error)
               && forall k :: 0 <= k < i ==> DecodeElement(init[k]).Ok?;
      assert DecodeElement(items[i]) == Err(DecodeEntries(items).error);
    } else {
      DecodeEntriesPointwise(init);
      assert DecodeElement(items[n]) == Err(DecodeEntries(items).error);
    }
  }

  /** The entries array decodes exactly when every one of its elements does. */
  lemma DecodeEntriesOkIff(items: seq<Json>)
    ensures DecodeEntries(items).Ok? <==> forall i :: 0 <= i < |items| ==> DecodeElement(items[i]).Ok?
  {
    if DecodeEntries(items).Ok? {
      DecodeEntriesPointwise(items);
    } else {
      DecodeEntriesFirstError(items);
    }
  }

  /** Reading an entry back from its toJson object gives the same fields. */
  lemma EntryRoundTrip(f: EntryFields)
    ensures DecodeElement(JObject(EncodeEntry(f))) == Ok(f)
  {
    TruncateIntegral(f.date.year);
    TruncateIntegral(f.date.month);
    TruncateIntegral(f.date.day);
  }

  /** Reading a report back from its JSON gives the same entries in the same order. */
  lemma ReportRoundTrip(fs: seq<EntryFields>, key: string, other: JsonObject)
    ensures DecodeReport(other[key := JObject(EncodeReport(fs))], key) == Ok(fs)
  {
    var items := EncodeReport(fs)["entries"].items;
    forall i | 0 <= i < |items|
      ensures DecodeElement(items[i]) == Ok(fs[i])
    {
      EntryRoundTrip(fs[i]);
    }
    DecodeEntriesAll(items, fs);
  }

  /** Reading a budget back from its JSON gives the same expenses and incomes, field for field. */
  lemma BudgetRoundTrip(d: BudgetData)
    ensures DecodeBudget(EncodeBudget(d)) == Ok(d)
  {
    var j := EncodeBudget(d);
    ReportRoundTrip(d.expenses, "expenseReport", j);
    assert j["expenseReport" := JObject(EncodeReport(d.expenses))] == j;
    ReportRoundTrip(d.incomes, "incomeReport", j);
    assert j["incomeReport" := JObject(EncodeReport(d.incomes))] == j;
  }

  // The reader's methods, which fill a budget step by step.

  /** addExpense: decode one entry object, construct an Expense and append it to the expense report. */
  method AddExpense(budget: Budget, o: JsonObject) returns (r: Outcome<ReadError>, ghost e: Entry?)
    requires budget.Valid()
    modifies budget.expenseReport
    ensures DecodeEntry(o).Err? ==>
      r == Fail(DecodeEntry(o).error) && budget.expenseReport.entries == old(budget.expenseReport.entries)
    ensures DecodeEntry(o).Ok? ==>
      && r == Pass && e != null
      && budget.expenseReport.entries == old(budget.expenseReport.entries) + [e]
      && fresh(e) && e.kind == Expense && e.Fields() == DecodeEntry(o).value
    ensures budget.incomeReport.entries == old(budget.incomeReport.entries)
  {
    var description := GetString(o, "description");
    if description.Err? {
      return Fail(description.error), null;
    }
    var amount := GetDouble(o, "amount");
    if amount.Err? {
      return Fail(amount.error), null;
    }
    var date := GetDate(o);
    if date.Err? {
      return Fail(date.error), null;
    }
    var expense := NewExpense(description.value, amount.value, date.value);
    if expense.Err? {
      return Fail(InvalidEntry(expense.error)), null;
    }
    budget.AddExpense(expense.value);
    return Pass, expense.value;
  }

  /** addIncome: decode one entry object, construct an Income and append it to the income report. */
  method AddIncome(budget: Budget, o: JsonObject) returns (r: Outcome<ReadError>, ghost e: Entry?)
    requires budget.Valid()
    modifies budget.incomeReport
    ensures DecodeEntry(o).Err? ==>
      r == Fail(DecodeEntry(o).error) && budget.incomeReport.entries == old(budget.incomeReport.entries)
    ensures DecodeEntry(o).Ok? ==>
      && r == Pass && e != null
      && budget.incomeReport.entries == old(budget.incomeReport.entries) + [e]
      && fresh(e) && e.kind == Income && e.Fields() == DecodeEntry(o).value
    ensures budget.expenseReport.entries == old(budget.expenseReport.entries)
  {
    var description := GetString(o, "description");
    if description.Err? {
      return Fail(description.error), null;
    }
    var amount := GetDouble(o, "amount");
    if amount.Err? {
      return Fail(amount.error), null;
    }
    var date := GetDate(o);
    if date.Err? {
      return Fail(date.error), null;
    }
    var income := NewIncome(description.value, amount.value, date.value);
    if income.Err? {
      return Fail(InvalidEntry(income.error)), null;
    }
    budget.AddIncome(income.value);
    return Pass, income.value;
  }

  /**
   * Since the pre-state, report gained new entries at its end, of kind k, whose fields are
   * decoded in order; the entries it held before are still there, in place.
   */
  twostate predicate Appended(report: Report, decoded: seq<EntryFields>, k: Kind)
    reads report, report.entries
  {
    && |old(report.entries)| <= |report.entries|
    && report.entries[..|old(report.entries)|] == old(report.entries)
    && var added := report.entries[|old(report.entries)|..];
       && Snapshots(added) == decoded
       && AllOfKind(added, k)
       && forall e :: e in added ==> fresh(e)
  }

  /**
   * addExpenseReport: one Expense per element of expenseReport.entries, appended in array order.
   * On success the expense report gained exactly the decoded entries, each a new Expense.
   */
  method AddExpenseReport(budget: Budget, o: JsonObject) returns (r: Outcome<ReadError>)
    requires budget.Valid()
    modifies budget.expenseReport
    ensures DecodeReport(o, "expenseReport").Err? ==> r == Fail(DecodeReport(o, "expenseReport").error)
    ensures DecodeReport(o, "expenseReport").Ok? ==>
      r == Pass && Appended(budget.expenseReport, DecodeReport(o, "expenseReport").value, Expense)
    ensures budget.incomeReport.entries == old(budget.incomeReport.entries)
  {
    var report := GetJsonObject(o, "expenseReport");
    if report.Err? {
      return Fail(report.error);
    }
    var items := GetJsonArray(report.value, "entries");
    if items.Err? {
      return Fail(items.error);
    }
    r := AddExpenseEntries(budget, items.value);
  }

  /**
   * The for-each loop of addExpenseReport: cast each element to an object and addExpense it, in
   * array order; the first exception leaves the loop, keeping the expenses added before it.
   */
  method AddExpenseEntries(budget: Budget, arr: seq<Json>) returns (r: Outcome<ReadError>)
    requires budget.Valid()
    modifies budget.expenseReport
    ensures DecodeEntries(arr).Err? ==> r == Fail(DecodeEntries(arr).error)
    ensures DecodeEntries(arr).Ok? ==>
      r == Pass && Appended(budget.expenseReport, DecodeEntries(arr).value, Expense)
    ensures budget.incomeReport.entries == old(budget.incomeReport.entries)
  {
    ghost var added: seq<Entry> := [];
    ghost var decoded: seq<EntryFields> := [];
    for i := 0 to |arr|
      invariant DecodeEntries(arr[..i]) == Ok(decoded)
      invariant budget.expenseReport.entries == old(budget.expenseReport.entries) + added
      invariant |added| == |decoded| && forall j :: 0 <= j < |added| ==> added[j].Fields() == decoded[j]
      invariant AllOfKind(added, Expense)
      invariant forall e :: e in added ==> fresh(e)
      invariant budget.incomeReport.entries == old(budget.incomeReport.entries)
    {
      DecodeEntriesStep(arr, i);
      var json := arr[i];
      if !json.JObject? {
        DecodeEntriesPrefixError(arr, i + 1);
        return Fail(NotAnObject);
      }
      var next, e := AddExpense(budget, json.fields);
      if next.Fail? {
        DecodeEntriesPrefixError(arr, i + 1);
        return next;
      }
      AllOfKindAppend(added, e, Expense);
      assert budget.expenseReport.entries == old(budget.expenseReport.entries) + (added + [e]);
      added := added + [e];
      decoded := decoded + [DecodeEntry(json.fields).value];
    }
    assert arr[..|arr|] == arr;
    assert budget.expenseReport.entries[|old(budget.expenseReport.entries)|..] == added;
    SnapshotsOf(added, decoded);
    return Pass;
  }

  /**
   * addIncomeReport: one Income per element of incomeReport.entries, appended in array order.
   * On success the income report gained exactly the decoded entries, each a new Income.
   */
  method AddIncomeReport(budget: Budget, o: JsonObject) returns (r: Outcome<ReadError>)
    requires budget.Valid()
    modifies budget.incomeReport
    ensures DecodeReport(o, "incomeReport").Err? ==> r == Fail(DecodeReport(o, "incomeReport").error)
    ensures DecodeReport(o, "incomeReport").Ok? ==>
      r == Pass && Appended(budget.incomeReport, DecodeReport(o, "incomeReport").value, Income)
    ensures budget.expenseReport.entries == old(budget.expenseReport.entries)
  {
    var report := GetJsonObject(o, "incomeReport");
    if report.Err? {
      return Fail(report.error);
    }
    var items := GetJsonArray(report.value, "entries");
    if items.Err? {
      return Fail(items.error);
    }
    r := AddIncomeEntries(budget, items.value);
  }

  /**
   * The for-each loop of addIncomeReport: cast each element to an object and addIncome it, in
   * array order; the first exception leaves the loop, keeping the incomes added before it.
   */
  method AddIncomeEntries(budget: Budget, arr: seq<Json>) returns (r: Outcome<ReadError>)
    requires budget.Valid()
    modifies budget.incomeReport
    ensures DecodeEntries(arr).Err? ==> r == Fail(DecodeEntries(arr).error)
    ensures DecodeEntries(arr).Ok? ==>
      r == Pass && Appended(budget.incomeReport, DecodeEntries(arr).value, Income)
    ensures budget.expenseReport.entries == old(budget.expenseReport.entries)
  {
    ghost var added: seq<Entry> := [];
    ghost var decoded: seq<EntryFields> := [];
    for i := 0 to |arr|
      invariant DecodeEntries(arr[..i]) == Ok(decoded)
      invariant budget.incomeReport.entries == old(budget.incomeReport.entries) + added
      invariant |added| == |decoded| && forall j :: 0 <= j < |added| ==> added[j].Fields() == decoded[j]
      invariant AllOfKind(added, Income)
      invariant forall e :: e in added ==> fresh(e)
      invariant budget.expenseReport.entries == old(budget.expenseReport.entries)
    {
      DecodeEntriesStep(arr, i);
      var json := arr[i];
      if !json.JObject? {
        DecodeEntriesPrefixError(arr, i + 1);
        return Fail(NotAnObject);
      }
      var next, e := AddIncome(budget, json.fields);
      if next.Fail? {
        DecodeEntriesPrefixError(arr, i + 1);
        return next;
      }
      AllOfKindAppend(added, e, Income);
      assert budget.incomeReport.entries == old(budget.incomeReport.entries) + (added + [e]);
      added := added + [e];
      decoded := decoded + [DecodeEntry(json.fields).value];
    }
    assert arr[..|arr|] == arr;
    assert budget.incomeReport.entries[|old(budget.incomeReport.entries)|..] == added;
    SnapshotsOf(added, decoded);
    return Pass;
  }

  /**
   * parseBudget: a new budget filled from the expense report, then from the income report.
   * Any exception aborts the whole parse, and no budget is returned.
   */
  method ParseBudget(o: JsonObject) returns (r: Result<Budget, ReadError>)
    ensures r.Err? <==> DecodeBudget(o).Err?
    ensures r.Err? ==> r.error == DecodeBudget(o).error
    ensures r.Ok? ==> fresh(r.value) && fresh(r.value.expenseReport) && fresh(r.value.incomeReport)
    ensures r.Ok? ==> r.value.Valid() && r.value.Data() == DecodeBudget(o).value
    ensures r.Ok? ==> AllOfKind(r.value.expenseReport.entries, Expense) && AllOfKind(r.value.incomeReport.entries, Income)
  {
    var budget := new Budget();
    var expenses := AddExpenseReport(budget, o);
    if expenses.Fail? {
      return Err(expenses.error);
    }
    var incomes := AddIncomeReport(budget, o);
    if incomes.Fail? {
      return Err(incomes.error);
    }
    return Ok(budget);
  }

  /** Writing a budget with toJson and parsing the result gives a budget with the same entries. */
  method ReadAfterWrite(b: Budget) returns (r: Result<Budget, ReadError>)
    ensures r.Ok?
    ensures r.value.Data() == b.Data()
    ensures r.value != b
  {
    BudgetRoundTrip(b.Data());
    r := ParseBudget(b.ToJson());
  }
}
