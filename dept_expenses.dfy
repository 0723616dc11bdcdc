/** The department-expenses view: the seed status rule, the search box, the
    four dashboard figures and the "new expense" form that prepends a Pending
    expense. */
module DeptExpensesView {
  import opened Common

  datatype ExpenseStatus = Pending | Approved | Rejected

  /** An expense. Department and category are `None` on a row added through
      the form when the user never touched its drop-down: the `<select>`
      shows its first option but stores a value only on change. */
  datatype DeptExpense = DeptExpense(
    id: string,
    date: string,
    department: Option<string>,
    category: Option<string>,
    description: string,
    amount: int,
    approver: string,
    status: ExpenseStatus)

  /** The inputs of the reimbursement form; the two drop-downs are `None`
      until changed. */
  datatype ExpenseForm = ExpenseForm(
    description: string,
    department: Option<string>,
    category: Option<string>,
    amount: int,
    approver: string)

  /** The four dashboard figures. */
  datatype Stats = Stats(total: int, pending: nat, highValue: nat, rejected: nat)

  /** Seed status of expense `i`: Rejected is tested before Pending. */
  function SeedStatus(i: nat): ExpenseStatus {
    if i % 10 == 0 then Rejected else if i % 4 == 0 then Pending else Approved
  }

  /** Seed amount; `r` stands for `Math.floor(Math.random() * 12000)`. */
  function SeedAmount(r: nat): int
    requires r < 12000
  {
    500 + r
  }

  const Departments: seq<string> := ["Procurement", "Quality", "Warehouse", "Admin", "R&D"]
  const Categories: seq<string> := ["Office", "Travel", "Maintenance", "Training", "Logistics", "R&D Material"]
  const Approvers: seq<string> := ["王经理", "李主任", "张工", "赵总", "陈总监"]

  /** Seed expense `i` of `generateInitialExpenses`; `r`, `month` and `day`
      stand for its three random draws (amount offset, month 1..2, day 1..28). */
  function SeedExpense(i: nat, r: nat, month: nat, day: nat): DeptExpense
    requires r < 12000
  {
    var mm := PadStart(NatToString(month), 2, '0');
    var dd := PadStart(NatToString(day), 2, '0');
    var cat := Categories[i % |Categories|];
    DeptExpense(
      "EXP-26" + mm + "-" + NatToString(100 + i),
      "2026-" + mm + "-" + dd,
      Some(Departments[i % |Departments|]),
      Some(cat),
      cat + " related expense item - " + NatToString(i + 1),
      SeedAmount(r),
      Approvers[i % |Approvers|],
      SeedStatus(i))
  }

  /** The 25 seeded expenses. */
  function SeedExpenses(rs: seq<nat>, months: seq<nat>, days: seq<nat>): (es: seq<DeptExpense>)
    requires |rs| == 25 && |months| == 25 && |days| == 25
    requires forall i :: 0 <= i < 25 ==> rs[i] < 12000
  {
    seq(25, i requires 0 <= i < 25 => SeedExpense(i, rs[i], months[i], days[i]))
  }

  /** Every seeded expense has the status of the seed rule, an amount in
      [500, 12499] and a department. */
  lemma SeedExpensesShape(rs: seq<nat>, months: seq<nat>, days: seq<nat>)
    requires |rs| == 25 && |months| == 25 && |days| == 25
    requires forall i :: 0 <= i < 25 ==> rs[i] < 12000
    ensures forall i :: 0 <= i < 25 ==>
              && SeedExpenses(rs, months, days)[i].status == SeedStatus(i)
              && 500 <= SeedExpenses(rs, months, days)[i].amount <= 12499
    ensures AllDepartmentsSet(SeedExpenses(rs, months, days))
  {
  }

  /** Rejected iff 10 divides i; Pending iff 4 divides i but 10 does not;
      so expense 20 is Rejected, not Pending. */
  lemma SeedStatusCases(i: nat)
    ensures SeedStatus(i) == Rejected <==> i % 10 == 0
    ensures SeedStatus(i) == Pending <==> i % 10 != 0 && i % 4 == 0
    ensures SeedStatus(i) == Approved <==> i % 10 != 0 && i % 4 != 0
    ensures SeedStatus(20) == Rejected
  {
  }

  lemma SeedAmountRange(r: nat)
    requires r < 12000
    ensures 500 <= SeedAmount(r) <= 12499
  {
  }

  predicate AllDepartmentsSet(es: seq<DeptExpense>) {
    forall k :: 0 <= k < |es| ==> es[k].department.Some?
  }

  /** A row matches the search term when its department contains it, its
      lower-cased description contains the lower-cased term, or its id
      contains it. */
  predicate Matches(e: DeptExpense, term: string) {
    || (e.department.Some? && Contains(e.department.value, term))
    || Contains(Lower(e.description), Lower(term))
    || Contains(e.id, term)
  }

  /** `filteredExpenses`. The department test comes first and runs on every
      row, so one row without a department makes `e.department.includes`
      throw a TypeError, whatever the term: that outcome is `None`. */
  function Filtered(es: seq<DeptExpense>, term: string): Option<seq<DeptExpense>> {
    if AllDepartmentsSet(es) then Some(Filter(es, (e: DeptExpense) => Matches(e, term))) else None
  }

  /** The search throws exactly when some row has no department. Otherwise
      the filtered table is an order-preserving subsequence holding exactly
      the matching rows, and an empty term keeps every row. */
  lemma FilteredSpec(es: seq<DeptExpense>, term: string)
    ensures Filtered(es, term).Some? <==> AllDepartmentsSet(es)
    ensures Filtered(es, term).Some? ==> IsSubsequence(Filtered(es, term).value, es)
    ensures Filtered(es, term).Some? ==>
              forall k :: 0 <= k < |Filtered(es, term).value| ==> Matches(Filtered(es, term).value[k], term)
    ensures Filtered(es, term).Some? ==>
              forall k :: 0 <= k < |es| && Matches(es[k], term) ==> es[k] in Filtered(es, term).value
    ensures AllDepartmentsSet(es) && term == "" ==> Filtered(es, term) == Some(es)
  {
    FilterIsSubsequence(es, (e: DeptExpense) => Matches(e, term));
    if AllDepartmentsSet(es) && term == "" {
      forall k | 0 <= k < |es| ensures Matches(es[k], term) {
        ContainsEmpty(es[k].department.value);
      }
      FilterKeepsAll(es, (e: DeptExpense) => Matches(e, term));
    }
  }

  function Amounts(es: seq<DeptExpense>): (xs: seq<int>)
  {
    seq(|es|, k requires 0 <= k < |es| => es[k].amount)
  }

  predicate IsPending(e: DeptExpense) {
    e.status == Pending
  }

  predicate IsRejected(e: DeptExpense) {
    e.status == Rejected
  }

  /** The count behind "high value" expenses. */
  predicate IsHighValue(e: DeptExpense) {
    e.amount > 5000
  }

  /** The red "High Value" marker under a row's amount. */
  predicate ShowsHighValueMarker(e: DeptExpense) {
    e.amount > 5000
  }

  /** `stats`. */
  function ComputeStats(es: seq<DeptExpense>): Stats {
    Stats(Sum(Amounts(es)), |Filter(es, IsPending)|, |Filter(es, IsHighValue)|, |Filter(es, IsRejected)|)
  }

  /** The total is the sum of the amounts; every counter is at most the
      number of expenses, and pending and rejected together too. */
  lemma {:induction false} StatsBounds(es: seq<DeptExpense>)
    ensures ComputeStats(es).pending + ComputeStats(es).rejected <= |es|
    ensures ComputeStats(es).highValue <= |es|
    ensures (forall k :: 0 <= k < |es| ==> es[k].amount >= 0) ==> ComputeStats(es).total >= 0
  {
    if es != [] {
      StatsBounds(es[1..]);
      assert Amounts(es) == [es[0].amount] + Amounts(es[1..]);
      assert forall k :: 0 <= k < |es[1..]| ==> es[1..][k] == es[k + 1];
    }
  }

  /** The rows carrying the marker are exactly the rows the high-value
      counter counts. */
  lemma MarkerMatchesCounter(es: seq<DeptExpense>)
    ensures Filter(es, ShowsHighValueMarker) == Filter(es, IsHighValue)
  {
    FilterAgreeing(es, ShowsHighValueMarker, IsHighValue);
  }

  /** The value the department drop-down shows before any change. */
  const DefaultDepartment: string := "采购部"

  /** The value the category drop-down shows before any change. */
  const DefaultCategory: string := "办公用品"

  function OrDefault(o: Option<string>, d: string): string {
    if o.Some? then o.value else d
  }

  /** The expense `handleAdd` prepends, as written: the form's fields (an
      untouched drop-down stays unset), id "EXP-2602-M" followed by `stamp`,
      the current date and status Pending. `stamp` and `today` stand for the
      last three digits of `Date.now()` and the date part of `new Date()`. */
  function NewExpenseAsWritten(form: ExpenseForm, stamp: string, today: string): DeptExpense {
    DeptExpense("EXP-2602-M" + stamp, today, form.department, form.category,
                form.description, form.amount, form.approver, Pending)
  }

  /** Confirming the form without touching the department drop-down stores
      an expense without a department, and from then on the search throws,
      even for the empty term the view starts with. */
  lemma UntouchedDepartmentBreaksSearch(es: seq<DeptExpense>, form: ExpenseForm, stamp: string, today: string, term: string)
    requires form.department.None?
    ensures NewExpenseAsWritten(form, stamp, today).department.None?
    ensures Filtered([NewExpenseAsWritten(form, stamp, today)] + es, term).None?
  {
    assert ([NewExpenseAsWritten(form, stamp, today)] + es)[0].department.None?;
  }

  /** The expense the evidently intended form stores: an untouched drop-down
      contributes the option it shows. Otherwise as `NewExpenseAsWritten`. */
  function NewExpense(form: ExpenseForm, stamp: string, today: string): DeptExpense {
    DeptExpense("EXP-2602-M" + stamp, today,
                Some(OrDefault(form.department, DefaultDepartment)),
                Some(OrDefault(form.category, DefaultCategory)),
                form.description, form.amount, form.approver, Pending)
  }

  /** With the drop-downs defaulted, every added expense has the department
      the form showed, so the search never throws and an empty term lists
      the new expense first. */
  lemma DefaultedDepartmentKeepsSearch(es: seq<DeptExpense>, form: ExpenseForm, stamp: string, today: string, term: string)
    requires AllDepartmentsSet(es)
    ensures NewExpense(form, stamp, today).department ==
              Some(if form.department.Some? then form.department.value else DefaultDepartment)
    ensures AllDepartmentsSet([NewExpense(form, stamp, today)] + es)
    ensures Filtered([NewExpense(form, stamp, today)] + es, term).Some?
    ensures term == "" ==> Filtered([NewExpense(form, stamp, today)] + es, term) == Some([NewExpense(form, stamp, today)] + es)
  {
    var all := [NewExpense(form, stamp, today)] + es;
    assert forall k :: 1 <= k < |all| ==> all[k] == es[k - 1];
    FilteredSpec(all, term);
  }

  /** Adding an expense raises the pending count by one and the total by its
      amount; the rejected count is unchanged. */
  lemma AddedExpenseStats(es: seq<DeptExpense>, form: ExpenseForm, stamp: string, today: string)
    ensures var e := NewExpense(form, stamp, today);
            var before := ComputeStats(es);
            var after := ComputeStats([e] + es);
            && after.pending == before.pending + 1
            && after.total == before.total + form.amount
            && after.rejected == before.rejected
            && after.highValue == before.highValue + (if form.amount > 5000 then 1 else 0)
  {
    var e := NewExpense(form, stamp, today);
    FilterPrependLength(e, es, IsPending);
    FilterPrependLength(e, es, IsRejected);
    FilterPrependLength(e, es, IsHighValue);
    assert Amounts([e] + es) == [e.amount] + Amounts(es);
    SumAppend([e.amount], Amounts(es));
  }

  /** The `expenses` state of the view. */
  class ExpenseStore {
    var expenses: seq<DeptExpense>

    constructor (rs: seq<nat>, months: seq<nat>, days: seq<nat>)
      requires |rs| == 25 && |months| == 25 && |days| == 25
      requires forall i :: 0 <= i < 25 ==> rs[i] < 12000
      ensures expenses == SeedExpenses(rs, months, days)
    {
      expenses := SeedExpenses(rs, months, days);
    }

    /** `handleAdd`, with the drop-downs defaulted: prepend one Pending
        expense. */
    method Add(form: ExpenseForm, stamp: string, today: string)
      modifies this
      ensures expenses == [NewExpense(form, stamp, today)] + old(expenses)
      ensures expenses[0].status == Pending && expenses[1..] == old(expenses)
      ensures AllDepartmentsSet(old(expenses)) ==> AllDepartmentsSet(expenses)
    {
      if AllDepartmentsSet(expenses) {
        DefaultedDepartmentKeepsSearch(expenses, form, stamp, today, "");
      }
      expenses := [NewExpense(form, stamp, today)] + expenses;
    }
  }
}
