/** The expense ledger of an order: expenses are added from a draft whose cost
    type decides which date (a day, a month, a period or none) the expense
    carries, removed by id, and displayed with one date chosen by a fixed
    precedence. */
module Expenses {
  import opened Common
  import opened Activities

  /** A JavaScript `Date`, as its time value in milliseconds. */
  datatype Date = Date(epochMillis: int)

  const OneTime := "Einmalige Kosten"
  const PerDay := "Pro Tag"
  const PerMonth := "Pro Monat"
  const AnyPeriod := "Beliebiger Zeitraum"
  const PerWeek := "Pro Woche"

  datatype DateRange = DateRange(from: string, to: string)

  datatype Expense = Expense(
    id: string,
    description: string,
    costType: string,
    cost: string,
    specificDate: Option<string>,
    dateRange: Option<DateRange>,
    month: Option<string>,
    isPerEmployee: bool,
    activityId: Option<string>,
    category: string,
    supplier: string,
    priority: string,
    approvalStatus: string)

  datatype RangeDraft = RangeDraft(from: Option<Date>, to: Option<Date>)

  /** The add-expense form (`newExpense`). */
  datatype ExpenseDraft = ExpenseDraft(
    description: string,
    costType: string,
    cost: string,
    specificDate: Option<Date>,
    dateRange: RangeDraft,
    month: Option<Date>,
    isPerEmployee: bool,
    activityId: string,
    category: string,
    supplier: string,
    priority: string,
    approvalStatus: string)

  /** The form's contents when it opens and after every successful add. */
  const DefaultDraft := ExpenseDraft("", OneTime, "", None, RangeDraft(None, None), None,
                                     false, "", "Material", "", "Mittel", "Offen")

  /** The date fields `addExpense` collects in `dateInfo` before building the expense. */
  datatype DateInfo = DateInfo(specificDate: Option<string>, month: Option<string>, dateRange: Option<DateRange>)

  const NoDateInfo := DateInfo(None, None, None)

  /** The guard of `addExpense`: a description and a cost string were entered (any non-empty cost, "0" included). */
  predicate Accepts(d: ExpenseDraft)
  {
    d.description != "" && d.cost != ""
  }

  /** What the cost type demands of the date fields. `formatDay` and `formatMonth`
      stand for date-fns `format` with 'yyyy-MM-dd' and 'yyyy-MM'; `now` is `new Date()`. */
  ghost predicate PayloadFits(d: ExpenseDraft, now: Date, formatDay: Date -> string, formatMonth: Date -> string, info: DateInfo)
  {
    if d.costType == PerDay then
      info == DateInfo(Some(formatDay(if d.specificDate.Some? then d.specificDate.value else now)), None, None)
    else if d.costType == PerMonth then
      info == DateInfo(None, Some(formatMonth(if d.month.Some? then d.month.value else now)), None)
    else if d.costType == AnyPeriod then
      info.specificDate.None? && info.month.None? &&
      if d.dateRange.from.Some? && d.dateRange.to.Some?
      then info.dateRange == Some(DateRange(formatDay(d.dateRange.from.value), formatDay(d.dateRange.to.value)))
      else info.dateRange.None?
    else
      info == NoDateInfo
  }

  /** The cost type selects at most one date field: a day exactly for 'Pro Tag', a month
      exactly for 'Pro Monat', a period exactly for 'Beliebiger Zeitraum' with both ends set. */
  lemma PayloadSpec(d: ExpenseDraft, now: Date, formatDay: Date -> string, formatMonth: Date -> string, info: DateInfo)
    requires PayloadFits(d, now, formatDay, formatMonth, info)
    ensures info.specificDate.Some? <==> d.costType == PerDay
    ensures info.month.Some? <==> d.costType == PerMonth
    ensures info.dateRange.Some? <==> d.costType == AnyPeriod && d.dateRange.from.Some? && d.dateRange.to.Some?
    ensures d.costType == PerDay && d.specificDate.None? ==> info.specificDate == Some(formatDay(now))
    ensures d.costType == PerMonth && d.month.None? ==> info.month == Some(formatMonth(now))
    ensures d.costType == OneTime || d.costType == PerWeek ==> info == NoDateInfo
  {
  }

  /** The `switch` of `addExpense`, filling `dateInfo` case by case. */
  method DeriveDateInfo(d: ExpenseDraft, now: Date, formatDay: Date -> string, formatMonth: Date -> string)
    returns (info: DateInfo)
    ensures PayloadFits(d, now, formatDay, formatMonth, info)
  {
    info := NoDateInfo;
    if d.costType == PerDay {
      var day := if d.specificDate.Some? then d.specificDate.value else now;
      info := info.(specificDate := Some(formatDay(day)));
    } else if d.costType == PerMonth {
      var month := if d.month.Some? then d.month.value else now;
      info := info.(month := Some(formatMonth(month)));
    } else if d.costType == AnyPeriod {
      if d.dateRange.from.Some? && d.dateRange.to.Some? {
        info := info.(dateRange := Some(DateRange(formatDay(d.dateRange.from.value), formatDay(d.dateRange.to.value))));
      }
    }
  }

  /** The expense object `addExpense` builds from the draft and the date fields. */
  function BuildExpense(d: ExpenseDraft, id: string, info: DateInfo): Expense
  {
    Expense(id, d.description, d.costType, d.cost, info.specificDate, info.dateRange, info.month,
            d.isPerEmployee, if d.isPerEmployee then Some(d.activityId) else None,
            d.category, d.supplier, d.priority, d.approvalStatus)
  }

  function InfoOf(e: Expense): DateInfo
  {
    DateInfo(e.specificDate, e.month, e.dateRange)
  }

  /** A built expense carries the draft's activity exactly when it is a per-employee cost,
      and exactly the date fields it was given. */
  lemma BuildExpenseSpec(d: ExpenseDraft, id: string, info: DateInfo)
    ensures BuildExpense(d, id, info).activityId.Some? <==> d.isPerEmployee
    ensures d.isPerEmployee ==> BuildExpense(d, id, info).activityId == Some(d.activityId)
    ensures InfoOf(BuildExpense(d, id, info)) == info
  {
  }

  function WithoutExpense(es: seq<Expense>, id: string): seq<Expense>
  {
    Filter(es, (e: Expense) => e.id != id)
  }

  /** Removing an expense drops every expense with that id and keeps every occurrence
      of the others, in order; an unknown id changes nothing. */
  lemma WithoutExpenseSpec(es: seq<Expense>, id: string, more: seq<Expense>)
    ensures forall e :: multiset(WithoutExpense(es, id))[e] == if e.id != id then multiset(es)[e] else 0
    ensures WithoutExpense(es + more, id) == WithoutExpense(es, id) + WithoutExpense(more, id)
    ensures (forall i :: 0 <= i < |es| ==> es[i].id != id) ==> WithoutExpense(es, id) == es
  {
    FilterSpec(es, more, (e: Expense) => e.id != id);
  }

  /** `formatDisplayDate`: a day, else a month, else a period, else the cost type's name.
      `showDay` and `showMonth` stand for parsing the stored string and formatting it. */
  function DisplayDate(e: Expense, showDay: string -> string, showMonth: string -> string): string
  {
    if Truthy(e.specificDate) then showDay(e.specificDate.value)
    else if Truthy(e.month) then showMonth(e.month.value + "-01")
    else if e.dateRange.Some? then showDay(e.dateRange.value.from) + " - " + showDay(e.dateRange.value.to)
    else e.costType
  }

  /** A day wins over every other date field, a month over a period, and a period over
      the cost type's name. */
  lemma DisplayPrecedence(e: Expense, showDay: string -> string, showMonth: string -> string)
    ensures Truthy(e.specificDate) ==> DisplayDate(e, showDay, showMonth) == showDay(e.specificDate.value)
    ensures !Truthy(e.specificDate) && Truthy(e.month) ==> DisplayDate(e, showDay, showMonth) == showMonth(e.month.value + "-01")
    ensures !Truthy(e.specificDate) && !Truthy(e.month) && e.dateRange.Some? ==>
              DisplayDate(e, showDay, showMonth) == showDay(e.dateRange.value.from) + " - " + showDay(e.dateRange.value.to)
    ensures !Truthy(e.specificDate) && !Truthy(e.month) && e.dateRange.None? ==> DisplayDate(e, showDay, showMonth) == e.costType
  {
  }

  /** An expense added under each cost type is displayed with the date its cost type
      selected, and with the cost type's name when it has none. */
  lemma DisplayOfAddedExpense(d: ExpenseDraft, id: string, now: Date, formatDay: Date -> string,
                              formatMonth: Date -> string, info: DateInfo,
                              showDay: string -> string, showMonth: string -> string)
    requires PayloadFits(d, now, formatDay, formatMonth, info)
    requires forall x :: formatDay(x) != ""
    requires forall x :: formatMonth(x) != ""
    ensures var shown := DisplayDate(BuildExpense(d, id, info), showDay, showMonth);
      && (d.costType == PerDay ==> shown == showDay(info.specificDate.value))
      && (d.costType == PerMonth ==> shown == showMonth(info.month.value + "-01"))
      && (info.dateRange.Some? ==> shown == showDay(info.dateRange.value.from) + " - " + showDay(info.dateRange.value.to))
      && (info == NoDateInfo ==> shown == d.costType)
  {
    PayloadSpec(d, now, formatDay, formatMonth, info);
  }

  /** `getActivityName`: the name of the first activity with the id, "" when there is none. */
  function ActivityName(acts: seq<Activity>, activityId: string): string
  {
    match Find(acts, (a: Activity) => a.id == activityId)
    case Some(a) => a.name
    case None => ""
  }

  lemma ActivityNameSpec(acts: seq<Activity>, activityId: string, i: nat)
    requires i < |acts| && acts[i].id == activityId
    requires forall j :: 0 <= j < i ==> acts[j].id != activityId
    ensures ActivityName(acts, activityId) == acts[i].name
  {
    var r := FindIndex(acts, (a: Activity) => a.id == activityId);
    assert r.Some? && r.value == i;
  }

  lemma ActivityNameMissing(acts: seq<Activity>, activityId: string)
    requires forall j :: 0 <= j < |acts| ==> acts[j].id != activityId
    ensures ActivityName(acts, activityId) == ""
  {
  }

  /** The expense section: the expense list it replaces through its callback and the add form. */
  class ExpenseLedger {
    var expenses: seq<Expense>
    var draft: ExpenseDraft

    constructor (expenses: seq<Expense>)
      ensures this.expenses == expenses && draft == DefaultDraft
    {
      this.expenses := expenses;
      draft := DefaultDraft;
    }

    /** `addExpense`: appends one expense built from the draft and resets the form;
        a draft without description or cost changes nothing. */
    method AddExpense(freshId: string, now: Date, formatDay: Date -> string, formatMonth: Date -> string)
      modifies this
      ensures !Accepts(old(draft)) ==> expenses == old(expenses) && draft == old(draft)
      ensures Accepts(old(draft)) ==>
                && |expenses| == |old(expenses)| + 1
                && expenses[..|old(expenses)|] == old(expenses)
                && var added := expenses[|old(expenses)|];
                && added == BuildExpense(old(draft), freshId, InfoOf(added))
                && PayloadFits(old(draft), now, formatDay, formatMonth, InfoOf(added))
                && draft == DefaultDraft
    {
      if !Accepts(draft) {
        return;
      }
      var info := DeriveDateInfo(draft, now, formatDay, formatMonth);
      var expense := BuildExpense(draft, freshId, info);
      expenses := expenses + [expense];
      draft := DefaultDraft;
    }

    method RemoveExpense(id: string)
      modifies this`expenses
      ensures expenses == WithoutExpense(old(expenses), id)
    {
      expenses := WithoutExpense(expenses, id);
    }
  }
}
