/** The expense schema: the category enumeration, the field constraints on
    created and updated expenses, the stored record, and the shapes of the
    daily, weekly and monthly reports. */
module Schemas {
  import opened Wrappers
  import opened Calendar

  /** `ExpenseType`: exactly seven categories. */
  datatype Category = FOOD | TRANSPORT | ENTERTAINMENT | UTILITIES | HEALTHCARE | SHOPPING | OTHER

  const AllCategories: seq<Category> :=
    [FOOD, TRANSPORT, ENTERTAINMENT, UTILITIES, HEALTHCARE, SHOPPING, OTHER]

  /** The enumeration's string value, which is what the store keeps. */
  function CategoryName(c: Category): string {
    match c
    case FOOD => "FOOD"
    case TRANSPORT => "TRANSPORT"
    case ENTERTAINMENT => "ENTERTAINMENT"
    case UTILITIES => "UTILITIES"
    case HEALTHCARE => "HEALTHCARE"
    case SHOPPING => "SHOPPING"
    case OTHER => "OTHER"
  }

  /** Validation of a category string against the enumeration. */
  function ParseCategory(s: string): (r: Option<Category>)
    ensures r.Some? ==> CategoryName(r.value) == s
  {
    if s == "FOOD" then Some(FOOD)
    else if s == "TRANSPORT" then Some(TRANSPORT)
    else if s == "ENTERTAINMENT" then Some(ENTERTAINMENT)
    else if s == "UTILITIES" then Some(UTILITIES)
    else if s == "HEALTHCARE" then Some(HEALTHCARE)
    else if s == "SHOPPING" then Some(SHOPPING)
    else if s == "OTHER" then Some(OTHER)
    else None
  }

  /** The seven values are all listed, once each, and each one's string reads back as itself. */
  lemma CategoriesEnumerated(c: Category)
    ensures |AllCategories| == 7 && c in AllCategories
    ensures forall i, j :: 0 <= i < j < |AllCategories| ==> AllCategories[i] != AllCategories[j]
    ensures ParseCategory(CategoryName(c)) == Some(c)
  {
  }

  /** Distinct categories are stored under distinct strings. */
  lemma CategoryNameInjective(a: Category, b: Category)
    requires CategoryName(a) == CategoryName(b)
    ensures a == b
  {
    CategoriesEnumerated(a);
    CategoriesEnumerated(b);
  }

  predicate ValidAmount(amount: real) {
    amount > 0.0
  }

  predicate ValidDescription(description: string) {
    1 <= |description| <= 500
  }

  /** `ExpenseBase` (and `ExpenseCreate`): the fields a client supplies. */
  datatype ExpenseBase = ExpenseBase(amount: real, category: Category, description: string, date: Instant)

  predicate ValidExpenseBase(e: ExpenseBase) {
    ValidAmount(e.amount) && ValidDescription(e.description)
  }

  /** Field-by-field validation of a create request. A failure lists the
      offending fields in declaration order. */
  function ValidateExpense(amount: real, category: string, description: string, date: Instant)
    : (r: Result<ExpenseBase, seq<string>>)
    ensures r.Success? <==> ValidAmount(amount) && ParseCategory(category).Some? && ValidDescription(description)
    ensures r.Success? ==>
              && ValidExpenseBase(r.value) && r.value.amount == amount
              && CategoryName(r.value.category) == category
              && r.value.description == description && r.value.date == date
    ensures r.Failure? ==>
              && |r.error| >= 1
              && ("amount" in r.error <==> !ValidAmount(amount))
              && ("category" in r.error <==> ParseCategory(category).None?)
              && ("description" in r.error <==> !ValidDescription(description))
  {
    var errors := (if ValidAmount(amount) then [] else ["amount"])
      + (if ParseCategory(category).Some? then [] else ["category"])
      + (if ValidDescription(description) then [] else ["description"]);
    if errors == [] then Success(ExpenseBase(amount, ParseCategory(category).value, description, date))
    else Failure(errors)
  }

  /** `ExpenseUpdate`: every field optional. */
  datatype ExpenseUpdate = ExpenseUpdate(
    amount: Option<real>, category: Option<Category>, description: Option<string>, date: Option<Instant>)

  predicate ValidExpenseUpdate(u: ExpenseUpdate) {
    (u.amount.Some? ==> ValidAmount(u.amount.value))
    && (u.description.Some? ==> ValidDescription(u.description.value))
  }

  /** Field-by-field validation of an update request; absent fields are
      not checked. */
  function ValidateUpdate(amount: Option<real>, category: Option<string>, description: Option<string>, date: Option<Instant>)
    : (r: Result<ExpenseUpdate, seq<string>>)
    ensures r.Success? <==>
              (amount.Some? ==> ValidAmount(amount.value))
              && (category.Some? ==> ParseCategory(category.value).Some?)
              && (description.Some? ==> ValidDescription(description.value))
    ensures r.Success? ==>
              && ValidExpenseUpdate(r.value)
              && r.value.amount == amount && r.value.description == description && r.value.date == date
              && (r.value.category.Some? <==> category.Some?)
              && (category.Some? ==> CategoryName(r.value.category.value) == category.value)
  {
    var amountOk := amount.None? || ValidAmount(amount.value);
    var categoryOk := category.None? || ParseCategory(category.value).Some?;
    var descriptionOk := description.None? || ValidDescription(description.value);
    var errors := (if amountOk then [] else ["amount"])
      + (if categoryOk then [] else ["category"])
      + (if descriptionOk then [] else ["description"]);
    if errors != [] then Failure(errors)
    else
      var c := if category.Some? then Some(ParseCategory(category.value).value) else None;
      Success(ExpenseUpdate(amount, c, description, date))
  }

  /** A stored expense as the API returns it (`ExpenseResponse`): the
      client's fields plus its id, owner and timestamps. */
  datatype ExpenseRecord = ExpenseRecord(
    id: string, userId: string,
    amount: real, category: Category, description: string, date: Instant,
    createdAt: Instant, updatedAt: Option<Instant>)

  predicate ValidRecord(r: ExpenseRecord) {
    ValidAmount(r.amount) && ValidDescription(r.description)
  }

  /** `ExpenseList`: one page of expenses and a total count. */
  datatype ExpenseList = ExpenseList(expenses: seq<ExpenseRecord>, total: nat)

  /** `DailyReport`. */
  datatype DailyReport = DailyReport(
    date: string, totalAmount: real, expensesCount: nat, categories: map<Category, real>)

  /** `WeeklyReport`: a list of daily entries alongside the week's totals. */
  datatype WeeklyReport = WeeklyReport(
    weekStart: string, weekEnd: string, totalAmount: real, expensesCount: nat,
    dailyBreakdown: seq<DailyReport>, categories: map<Category, real>)

  /** `MonthlyReport`: the month's totals and its daily average. */
  datatype MonthlyReport = MonthlyReport(
    month: string, year: int, totalAmount: real, expensesCount: nat,
    categories: map<Category, real>, dailyAverage: real)
}
