/** Entries of a report (Entry.java) and their two kinds (Expense.java, Income.java). */
module Entries {
  import opened Results
  import opened Dates
  import opened JsonValues

  /** Which subclass of Entry an object was created as. */
  datatype Kind = Expense | Income

  /** The two validation exceptions: EmptyStringException and NegativeInputException. */
  datatype EntryError = EmptyString | NegativeInput

  /** A description an entry may hold: any string but the empty one (spaces alone are allowed). */
  type Description = s: string | s != "" witness " "

  /** An amount an entry may hold, in dollars. */
  type Amount = x: real | x >= 0.0 witness 0.0

  /** The fields of an entry, as a value: what its getters return at one moment. */
  datatype EntryFields = EntryFields(description: Description, amount: Amount, date: Date)

  /**
   * The validation shared by the constructor and the setters: the description is
   * checked first, so an empty description is reported even when the amount is negative too.
   */
  function Validate(description: string, amount: real): (r: Outcome<EntryError>)
    ensures r == Pass <==> description != "" && amount >= 0.0
    ensures description == "" ==> r == Fail(EmptyString)
    ensures description != "" && amount < 0.0 ==> r == Fail(NegativeInput)
  {
    if description == "" then Fail(EmptyString)
    else if amount < 0.0 then Fail(NegativeInput)
    else Pass
  }

  /** Entry.dateToJson: the date as an object with keys year, month (0-based) and day. */
  function EncodeDate(d: Date): (j: JsonObject)
    ensures j.Keys == {"year", "month", "day"}
  {
    map["year" := JNumber(d.year as real), "month" := JNumber(d.month as real), "day" := JNumber(d.day as real)]
  }

  /** Entry.toJson on the fields of an entry. */
  function EncodeEntry(f: EntryFields): (j: JsonObject)
    ensures j.Keys == {"description", "amount", "date"}
  {
    map["description" := JString(f.description), "amount" := JNumber(f.amount), "date" := JObject(EncodeDate(f.date))]
  }

  /**
   * An entry. Its description and amount can only ever hold valid values, since
   * every assignment to them is checked by their types; the kind never changes.
   */
  class Entry {
    const kind: Kind
    var description: Description
    var amount: Amount
    var date: Date

    /** The field assignments of Entry's constructor, once validation has passed. */
    constructor (kind: Kind, description: Description, amount: Amount, date: Date)
      ensures this.kind == kind
      ensures this.description == description && this.amount == amount && this.date == date
    {
      this.kind := kind;
      this.description := description;
      this.amount := amount;
      this.date := date;
    }

    /**
     * The values the getters return, at one moment: never an empty description and never a
     * negative amount.
     */
    function Fields(): (f: EntryFields)
      reads this
      ensures f.description == description && f.amount == amount && f.date == date
      ensures f.description != "" && f.amount >= 0.0
    {
      EntryFields(description, amount, date)
    }

    /** getEntry: the entry itself. */
    method GetEntry() returns (e: Entry)
      ensures e == this
    {
      e := this;
    }

    /** getDescription: the stored description, which is never empty. */
    method GetDescription() returns (s: string)
      ensures s == Fields().description && s != ""
    {
      s := description;
    }

    /** getAmount: the stored amount, which is never negative. */
    method GetAmount() returns (a: real)
      ensures a == Fields().amount && a >= 0.0
    {
      a := amount;
    }

    /** getDate: the stored date, as a value. */
    method GetDate() returns (d: Date)
      ensures d == Fields().date
    {
      d := date;
    }

    /** setDescription: rejects the empty string and then leaves the entry as it was. */
    method SetDescription(s: string) returns (r: Outcome<EntryError>)
      modifies this
      ensures s == "" ==> r == Fail(EmptyString) && description == old(description)
      ensures s != "" ==> r == Pass && description == s
      ensures amount == old(amount) && date == old(date)
    {
      if s == "" {
        return Fail(EmptyString);
      }
      description := s;
      return Pass;
    }

    /** setAmount: rejects a negative amount and then leaves the entry as it was; 0 is accepted. */
    method SetAmount(a: real) returns (r: Outcome<EntryError>)
      modifies this
      ensures a < 0.0 ==> r == Fail(NegativeInput) && amount == old(amount)
      ensures a >= 0.0 ==> r == Pass && amount == a
      ensures description == old(description) && date == old(date)
    {
      if a < 0.0 {
        return Fail(NegativeInput);
      }
      amount := a;
      return Pass;
    }

    /** setDate(Calendar): no validation. */
    method SetDate(d: Date)
      modifies this
      ensures date == d
      ensures description == old(description) && amount == old(amount)
    {
      date := d;
    }

    /** setDate(year, month, day) with in-range fields; month is 0-based. */
    method SetDateFields(year: int, month: int, day: int)
      requires ValidDate(Date(year, month, day))
      modifies this
      ensures date.year == year && date.month == month && date.day == day
      ensures description == old(description) && amount == old(amount)
    {
      date := Date(year, month, day);
    }

    /** toJson: an object holding the description, the amount and the date of the entry. */
    function ToJson(): (j: JsonObject)
      reads this
      ensures j.Keys == {"description", "amount", "date"}
      ensures j["description"] == JString(description) && j["amount"] == JNumber(amount)
      ensures j["date"].JObject? && j["date"].fields.Keys == {"year", "month", "day"}
      ensures j["date"].fields["year"] == JNumber(date.year as real)
      ensures j["date"].fields["month"] == JNumber(date.month as real)
      ensures j["date"].fields["day"] == JNumber(date.day as real)
    {
      EncodeEntry(Fields())
    }
  }

  /**
   * The Entry constructor: an empty description throws EmptyStringException, otherwise
   * a negative amount throws NegativeInputException, otherwise the fields are stored as given.
   */
  method Construct(kind: Kind, description: string, amount: real, date: Date) returns (r: Result<Entry, EntryError>)
    ensures r.Ok? <==> Validate(description, amount) == Pass
    ensures r.Err? ==> Validate(description, amount) == Fail(r.error)
    ensures r.Ok? ==> fresh(r.value) && r.value.kind == kind
    ensures r.Ok? ==> r.value.description == description && r.value.amount == amount && r.value.date == date
  {
    var v := Validate(description, amount);
    if v.Fail? {
      return Err(v.error);
    }
    var e := new Entry(kind, description, amount, date);
    return Ok(e);
  }

  /** new Expense(...): Entry's validation, then an entry of kind Expense. */
  method NewExpense(description: string, amount: real, date: Date) returns (r: Result<Entry, EntryError>)
    ensures description == "" ==> r == Err(EmptyString)
    ensures description != "" && amount < 0.0 ==> r == Err(NegativeInput)
    ensures r.Ok? <==> description != "" && amount >= 0.0
    ensures r.Ok? ==> fresh(r.value) && r.value.kind == Expense
    ensures r.Ok? ==> r.value.Fields() == EntryFields(description, amount, date)
  {
    r := Construct(Expense, description, amount, date);
  }

  /** new Income(...): Entry's validation, then an entry of kind Income. */
  method NewIncome(description: string, amount: real, date: Date) returns (r: Result<Entry, EntryError>)
    ensures description == "" ==> r == Err(EmptyString)
    ensures description != "" && amount < 0.0 ==> r == Err(NegativeInput)
    ensures r.Ok? <==> description != "" && amount >= 0.0
    ensures r.Ok? ==> fresh(r.value) && r.value.kind == Income
    ensures r.Ok? ==> r.value.Fields() == EntryFields(description, amount, date)
  {
    r := Construct(Income, description, amount, date);
  }
}
