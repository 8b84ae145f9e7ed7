/** The expense page's in-memory ledger (the `expenses`, `recurringExpenses`
    and `categories` state arrays, the selected category of the add form and
    the two list filters) and the handlers that replace it after their
    database call. The database calls are not modelled: their outcomes (the
    ids of inserted rows, a failed insert, a missing user) are parameters. */
module LedgerState {

  import opened Common
  import opened Text
  import opened Types
  import opened LedgerMemos

  // ---------------------------------------------------------------------------
  // Recurring expenses

  /** `x.id === id ? { ...x, isActive: !x.isActive } : x`. */
  function ToggleOne(x: RecurringExpense, id: string): RecurringExpense {
    if x.id == id then x.(isActive := !x.isActive) else x
  }

  /** The list after `handleToggleRecurring(id)`: the entries with that id
      have `isActive` flipped and nothing else changes. */
  function Toggled(rs: seq<RecurringExpense>, id: string): (r: seq<RecurringExpense>)
    ensures |r| == |rs|
    ensures forall i :: 0 <= i < |rs| ==> r[i].(isActive := rs[i].isActive) == rs[i]
    ensures forall i :: 0 <= i < |rs| ==> (r[i].isActive <==> (rs[i].isActive != (rs[i].id == id)))
  {
    seq(|rs|, i requires 0 <= i < |rs| => ToggleOne(rs[i], id))
  }

  /** Toggling the same id twice restores the list. */
  lemma ToggledTwice(rs: seq<RecurringExpense>, id: string)
    ensures Toggled(Toggled(rs, id), id) == rs
  {
    var r := Toggled(Toggled(rs, id), id);
    forall i | 0 <= i < |rs| ensures r[i] == rs[i] {
      assert r[i].(isActive := rs[i].isActive) == rs[i];
    }
  }

  /** When no entry has the id, the map is the identity, so the early return
      of the handler leaves the same list as the map would. */
  lemma ToggledAbsent(rs: seq<RecurringExpense>, id: string)
    requires forall x :: x in rs ==> x.id != id
    ensures Toggled(rs, id) == rs
  {
    var r := Toggled(rs, id);
    forall i | 0 <= i < |rs| ensures r[i] == rs[i] {
      assert rs[i] in rs;
      assert r[i].(isActive := rs[i].isActive) == rs[i];
    }
  }

  predicate DistinctIds(rs: seq<RecurringExpense>) {
    forall i, j :: 0 <= i < j < |rs| ==> rs[i].id != rs[j].id
  }

  lemma ToggledSnoc(rs: seq<RecurringExpense>, id: string)
    requires rs != []
    ensures Toggled(rs, id) == Toggled(rs[..|rs| - 1], id) + [ToggleOne(rs[|rs| - 1], id)]
  {
  }

  /** The entries before the one holding a distinct id do not hold it. */
  lemma OthersLackId(rs: seq<RecurringExpense>, id: string, i: int)
    requires DistinctIds(rs) && 0 <= i < |rs| && rs[i].id == id
    ensures forall x :: x in rs[..i] ==> x.id != id
    ensures forall x :: x in rs[i + 1..] ==> x.id != id
  {
  }

  lemma {:induction false} ToggledActiveSum(rs: seq<RecurringExpense>, id: string, i: int)
    requires DistinctIds(rs) && 0 <= i < |rs| && rs[i].id == id
    ensures SumWhere(Toggled(rs, id), IsActive, RecurringAmount)
         == SumWhere(rs, IsActive, RecurringAmount) + (if rs[i].isActive then -rs[i].amount else rs[i].amount)
  {
    var n := |rs| - 1;
    var init := rs[..n];
    var t := Toggled(rs, id);
    ToggledSnoc(rs, id);
    assert t[..n] == Toggled(init, id);
    if i == n {
      OthersLackId(rs, id, i);
      ToggledAbsent(init, id);
    } else {
      assert DistinctIds(init) && init[i] == rs[i];
      ToggledActiveSum(init, id, i);
      assert ToggleOne(rs[n], id) == rs[n];
    }
  }

  /** With distinct ids, toggling an active entry takes its amount off the
      monthly recurring total and toggling a paused one adds it. */
  lemma ToggledRecurringTotal(rs: seq<RecurringExpense>, id: string, i: int)
    requires DistinctIds(rs) && 0 <= i < |rs| && rs[i].id == id
    ensures MonthlyRecurringTotal(Toggled(rs, id))
         == MonthlyRecurringTotal(rs) + (if rs[i].isActive then -rs[i].amount else rs[i].amount)
  {
    SumOfFilter(rs, IsActive, RecurringAmount);
    SumOfFilter(Toggled(rs, id), IsActive, RecurringAmount);
    ToggledActiveSum(rs, id, i);
  }

  /** `prev.filter(r => r.id !== id)`. */
  function RemoveRecurring(rs: seq<RecurringExpense>, id: string): (r: seq<RecurringExpense>)
    ensures forall x :: x in r <==> x in rs && x.id != id
  {
    Filter(rs, (x: RecurringExpense) => x.id != id)
  }

  /** `e.recurringId === id ? { ...e, recurringId: undefined } : e`. */
  function UnlinkOne(e: Expense, id: string): Expense {
    if e.recurringId == Some(id) then e.(recurringId := None) else e
  }

  /** The expenses after `handleDeleteRecurring`: the link to the deleted
      entry is cleared and nothing else changes. */
  function Unlink(es: seq<Expense>, id: string): (r: seq<Expense>)
    ensures |r| == |es|
    ensures forall i :: 0 <= i < |es| ==> r[i].(recurringId := es[i].recurringId) == es[i]
    ensures forall i :: 0 <= i < |es| ==>
      r[i].recurringId == (if es[i].recurringId == Some(id) then None else es[i].recurringId)
  {
    seq(|es|, i requires 0 <= i < |es| => UnlinkOne(es[i], id))
  }

  /** `handleSaveRecurring`'s map: the entries with that id get the edited
      amount, description, category and day; id, state and creation time stay. */
  function EditRecurring(rs: seq<RecurringExpense>, id: string, amount: int, description: string,
                         category: string, day: int): (r: seq<RecurringExpense>)
    ensures |r| == |rs|
    ensures forall i :: 0 <= i < |rs| ==>
      && r[i].id == rs[i].id && r[i].isActive == rs[i].isActive && r[i].createdAt == rs[i].createdAt
      && (rs[i].id != id ==> r[i] == rs[i])
      && (rs[i].id == id ==> r[i].amount == amount && r[i].description == description
                             && r[i].category == category && r[i].dayOfMonth == day)
  {
    seq(|rs|, i requires 0 <= i < |rs| =>
      if rs[i].id == id
      then rs[i].(amount := amount, description := description, category := category, dayOfMonth := day)
      else rs[i])
  }

  // ---------------------------------------------------------------------------
  // Expenses

  /** `handleSaveExpense`'s map: the expenses with that id get the edited
      amount, description, category and date; id and recurring link stay. */
  function EditExpense(es: seq<Expense>, id: string, amount: int, description: string,
                       category: string, date: string): (r: seq<Expense>)
    ensures |r| == |es|
    ensures forall i :: 0 <= i < |es| ==>
      && r[i].id == es[i].id && r[i].recurringId == es[i].recurringId
      && (es[i].id != id ==> r[i] == es[i])
      && (es[i].id == id ==> r[i].amount == amount && r[i].description == description
                             && r[i].category == category && r[i].date == date)
  {
    seq(|es|, i requires 0 <= i < |es| =>
      if es[i].id == id
      then es[i].(amount := amount, description := description, category := category, date := date)
      else es[i])
  }

  /** `prev.filter(e => e.id !== id)`. */
  function RemoveExpense(es: seq<Expense>, id: string): (r: seq<Expense>)
    ensures forall x :: x in r <==> x in es && x.id != id
  {
    Filter(es, (x: Expense) => x.id != id)
  }

  /** The expenses `handleDeleteExpense` removes. */
  function ExpensesWithId(es: seq<Expense>, id: string): (r: seq<Expense>)
    ensures forall x :: x in r <==> x in es && x.id == id
  {
    Filter(es, (x: Expense) => x.id == id)
  }

  /** Deleting takes exactly the amounts of the removed expenses off the total. */
  lemma {:induction false} RemoveExpenseTotal(es: seq<Expense>, id: string)
    ensures SumOf(es, ExpenseAmount) == SumOf(RemoveExpense(es, id), ExpenseAmount) + SumOf(ExpensesWithId(es, id), ExpenseAmount)
  {
    if es != [] {
      var n := |es| - 1;
      var last := es[n];
      RemoveExpenseTotal(es[..n], id);
      SumOfAppend(RemoveExpense(es[..n], id), if last.id != id then [last] else [], ExpenseAmount);
      SumOfAppend(ExpensesWithId(es[..n], id), if last.id == id then [last] else [], ExpenseAmount);
      assert [last][..0] == [];
    }
  }

  /** Two lists of expenses with the same amounts, dates and categories
      position by position. */
  predicate SameBookkeeping(a: seq<Expense>, b: seq<Expense>) {
    |a| == |b| && forall i :: 0 <= i < |a| ==> a[i].amount == b[i].amount && a[i].date == b[i].date && a[i].category == b[i].category
  }

  /** Lists with the same bookkeeping have the same total in every month. */
  lemma {:induction false} SameBookkeepingMonthTotal(a: seq<Expense>, b: seq<Expense>, month: string)
    requires SameBookkeeping(a, b)
    ensures MonthTotalOf(a, month) == MonthTotalOf(b, month)
  {
    if a != [] {
      var n := |a| - 1;
      assert SameBookkeeping(a[..n], b[..n]);
      SameBookkeepingMonthTotal(a[..n], b[..n], month);
      var ta := if ExpenseMonth(a[n]) == month then [a[n]] else [];
      var tb := if ExpenseMonth(b[n]) == month then [b[n]] else [];
      SumOfAppend(KeyFilter(a[..n], ExpenseMonth, month), ta, ExpenseAmount);
      SumOfAppend(KeyFilter(b[..n], ExpenseMonth, month), tb, ExpenseAmount);
      assert [a[n]][..0] == [] && [b[n]][..0] == [];
    }
  }

  /** Clearing the link of deleted recurring entries changes no month's total. */
  lemma UnlinkKeepsMonthTotals(es: seq<Expense>, id: string, month: string)
    ensures MonthTotalOf(Unlink(es, id), month) == MonthTotalOf(es, month)
  {
    SameBookkeepingMonthTotal(Unlink(es, id), es, month);
  }

  /** Every expense that names a recurring entry names one that exists. */
  predicate LinksResolve(es: seq<Expense>, rs: seq<RecurringExpense>) {
    forall e :: e in es && e.recurringId.Some? ==> exists r :: r in rs && r.id == e.recurringId.value
  }

  lemma LinksResolveOfSameIds(es: seq<Expense>, es': seq<Expense>, rs: seq<RecurringExpense>, rs': seq<RecurringExpense>)
    requires LinksResolve(es, rs)
    requires forall e :: e in es' && e.recurringId.Some? ==> exists x :: x in es && x.recurringId == e.recurringId
    requires forall r :: r in rs ==> exists x :: x in rs' && x.id == r.id
    ensures LinksResolve(es', rs')
  {
    forall e | e in es' && e.recurringId.Some? ensures exists r :: r in rs' && r.id == e.recurringId.value {
      var x :| x in es && x.recurringId == e.recurringId;
      var r :| r in rs && r.id == x.recurringId.value;
      var y :| y in rs' && y.id == r.id;
    }
  }

  /** Deleting a recurring entry and clearing the links to it leaves no
      dangling link. */
  lemma DeleteRecurringKeepsLinks(es: seq<Expense>, rs: seq<RecurringExpense>, id: string)
    requires LinksResolve(es, rs)
    ensures LinksResolve(Unlink(es, id), RemoveRecurring(rs, id))
    ensures forall e :: e in Unlink(es, id) ==> e.recurringId != Some(id)
  {
    var u := Unlink(es, id);
    forall e | e in u && e.recurringId.Some? ensures exists r :: r in RemoveRecurring(rs, id) && r.id == e.recurringId.value {
      var i :| 0 <= i < |u| && u[i] == e;
      assert es[i] in es;
      var r :| r in rs && r.id == es[i].recurringId.value;
      assert r in RemoveRecurring(rs, id);
    }
  }

  /** Toggling or editing a recurring entry keeps every id, so it leaves no
      dangling link. */
  lemma RecurringEditsKeepLinks(es: seq<Expense>, rs: seq<RecurringExpense>, id: string, amount: int,
                                description: string, category: string, day: int)
    requires LinksResolve(es, rs)
    ensures LinksResolve(es, Toggled(rs, id))
    ensures LinksResolve(es, EditRecurring(rs, id, amount, description, category, day))
  {
    var t := Toggled(rs, id);
    var er := EditRecurring(rs, id, amount, description, category, day);
    forall r | r in rs ensures (exists x :: x in t && x.id == r.id) && (exists x :: x in er && x.id == r.id) {
      var j :| 0 <= j < |rs| && rs[j] == r;
      assert t[j].id == r.id && er[j].id == r.id;
      assert t[j] in t && er[j] in er;
    }
    LinksResolveOfSameIds(es, es, rs, t);
    LinksResolveOfSameIds(es, es, rs, er);
  }

  /** Editing or deleting an expense leaves no dangling link. */
  lemma ExpenseEditsKeepLinks(es: seq<Expense>, rs: seq<RecurringExpense>, id: string, amount: int,
                              description: string, category: string, date: string)
    requires LinksResolve(es, rs)
    ensures LinksResolve(EditExpense(es, id, amount, description, category, date), rs)
    ensures LinksResolve(RemoveExpense(es, id), rs)
  {
    var ee := EditExpense(es, id, amount, description, category, date);
    forall e | e in ee && e.recurringId.Some? ensures exists x :: x in es && x.recurringId == e.recurringId {
      var i :| 0 <= i < |ee| && ee[i] == e;
      assert es[i] in es;
    }
    LinksResolveOfSameIds(es, ee, rs, rs);
  }

  // ---------------------------------------------------------------------------
  // Filters and categories

  /** `setFilter(prev => prev === x ? null : x)`. */
  function Click(filter: Option<string>, x: string): (r: Option<string>)
    ensures r == Some(x) <==> filter != Some(x)
    ensures r != Some(x) ==> r == None
  {
    if filter == Some(x) then None else Some(x)
  }

  /** Clicking the same chip twice clears the filter, unless it was already
      set to that chip, in which case it is set again. */
  lemma ClickTwice(filter: Option<string>, x: string)
    ensures Click(Click(filter, x), x) == (if filter == Some(x) then Some(x) else None)
    ensures Click(Click(None, x), x) == None
  {
  }

  /** `prev.filter(c => c.id !== categoryId)`. */
  function RemoveCategory(cs: seq<Category>, id: string): (r: seq<Category>)
    ensures forall c :: c in r <==> c in cs && c.id != id
  {
    Filter(cs, (c: Category) => c.id != id)
  }

  /** `name.toLowerCase().replace(/\s+/g, '-')`. */
  function Slug(name: string): (r: string)
    ensures NoJsSpace(r)
  {
    DashRuns(ToLower(name))
  }

  /** No character of `s` is white space in JavaScript's sense. */
  predicate NoJsSpace(s: string) {
    forall i :: 0 <= i < |s| ==> !IsJsSpace(s[i])
  }

  lemma NoJsSpaceCons(c: char, t: string)
    requires !IsJsSpace(c) && NoJsSpace(t)
    ensures NoJsSpace([c] + t)
  {
    assert forall i :: 1 <= i < |[c] + t| ==> ([c] + t)[i] == t[i - 1];
  }

  /** Each maximal run of white space replaced by a single dash. */
  function DashRuns(s: string): (r: string)
    ensures NoJsSpace(r)
    ensures |r| <= |s|
    decreases |s|
  {
    if s == [] then []
    else if IsJsSpace(s[0]) then
      var rest := DashRuns(TrimStart(s[1..]));
      NoJsSpaceCons('-', rest);
      ['-'] + rest
    else
      var rest := DashRuns(s[1..]);
      NoJsSpaceCons(s[0], rest);
      [s[0]] + rest
  }

  /** The id `handleAddCategory` makes from the name and `Date.now()`. */
  function NewCategoryId(name: string, stamp: string): string {
    Slug(name) + "-" + stamp
  }

  /** A new category's id contains a dash, so it is never the default "food"
      that deleting a category falls back to. */
  lemma NewCategoryIdIsNotFood(name: string, stamp: string)
    ensures NewCategoryId(name, stamp) != "food"
    ensures '-' in NewCategoryId(name, stamp)
  {
    var id := NewCategoryId(name, stamp);
    assert id[|Slug(name)|] == '-';
    assert '-' !in "food";
  }

  // ---------------------------------------------------------------------------
  // The ledger

  class Ledger {
    var expenses: seq<Expense>
    var recurringExpenses: seq<RecurringExpense>
    var categories: seq<Category>
    /** The category of the add form. */
    var selectedCategory: string
    var categoryFilter: Option<string>
    var monthFilter: Option<string>

    /** The state after the page has loaded its rows. */
    constructor (expenses: seq<Expense>, recurringExpenses: seq<RecurringExpense>, categories: seq<Category>)
      ensures this.expenses == expenses && this.recurringExpenses == recurringExpenses && this.categories == categories
      ensures selectedCategory == "food" && categoryFilter == None && monthFilter == None
    {
      this.expenses := expenses;
      this.recurringExpenses := recurringExpenses;
      this.categories := categories;
      selectedCategory := "food";
      categoryFilter := None;
      monthFilter := None;
    }

    /** `recurringExpenses.find(x => x.id === id)`. */
    function FindRecurring(id: string): (r: Option<RecurringExpense>)
      reads this
      ensures r.Some? ==> r.value in recurringExpenses && r.value.id == id
      ensures r.None? ==> forall x :: x in recurringExpenses ==> x.id != id
    {
      FindRecurringIn(recurringExpenses, id)
    }

    /** `handleToggleRecurring`. */
    method ToggleRecurring(id: string)
      modifies this
      ensures recurringExpenses == Toggled(old(recurringExpenses), id)
      ensures expenses == old(expenses) && categories == old(categories)
      ensures selectedCategory == old(selectedCategory)
      ensures categoryFilter == old(categoryFilter) && monthFilter == old(monthFilter)
    {
      var r := FindRecurring(id);
      if r.None? {
        ToggledAbsent(recurringExpenses, id);
        return;
      }
      recurringExpenses := Toggled(recurringExpenses, id);
    }

    /** `handleDeleteRecurring` for the entry of the confirmation dialog, if any. */
    method DeleteRecurring(deleting: Option<string>)
      modifies this
      ensures deleting.None? ==> expenses == old(expenses) && recurringExpenses == old(recurringExpenses)
      ensures deleting.Some? ==> recurringExpenses == RemoveRecurring(old(recurringExpenses), deleting.value)
      ensures deleting.Some? ==> expenses == Unlink(old(expenses), deleting.value)
      ensures categories == old(categories) && selectedCategory == old(selectedCategory)
      ensures categoryFilter == old(categoryFilter) && monthFilter == old(monthFilter)
    {
      if deleting.None? {
        return;
      }
      var id := deleting.value;
      recurringExpenses := RemoveRecurring(recurringExpenses, id);
      expenses := Unlink(expenses, id);
    }

    /** `handleSaveRecurring` for the entry being edited, if any. */
    method SaveRecurring(editing: Option<string>, amount: int, description: string, category: string, day: int)
      modifies this
      ensures recurringExpenses == if editing.None? then old(recurringExpenses)
        else EditRecurring(old(recurringExpenses), editing.value, amount, description, category, day)
      ensures expenses == old(expenses) && categories == old(categories) && selectedCategory == old(selectedCategory)
      ensures categoryFilter == old(categoryFilter) && monthFilter == old(monthFilter)
    {
      if editing.None? {
        return;
      }
      recurringExpenses := EditRecurring(recurringExpenses, editing.value, amount, description, category, day);
    }

    /** `handleSaveExpense` for the expense being edited, if any. */
    method SaveExpense(editing: Option<string>, amount: int, description: string, category: string, date: string)
      modifies this
      ensures expenses == if editing.None? then old(expenses)
        else EditExpense(old(expenses), editing.value, amount, description, category, date)
      ensures recurringExpenses == old(recurringExpenses) && categories == old(categories)
      ensures selectedCategory == old(selectedCategory)
      ensures categoryFilter == old(categoryFilter) && monthFilter == old(monthFilter)
    {
      if editing.None? {
        return;
      }
      expenses := EditExpense(expenses, editing.value, amount, description, category, date);
    }

    /** `handleDeleteExpense`. */
    method DeleteExpense(id: string)
      modifies this
      ensures expenses == RemoveExpense(old(expenses), id)
      ensures recurringExpenses == old(recurringExpenses) && categories == old(categories)
      ensures selectedCategory == old(selectedCategory)
      ensures categoryFilter == old(categoryFilter) && monthFilter == old(monthFilter)
    {
      expenses := RemoveExpense(expenses, id);
    }

    /** `handleAddExpense`: nothing happens without an amount text, a
        description or a signed-in user, or when an insert fails (`recId` or
        `expId` is None); otherwise the new expense goes first, a recurring
        entry is appended when asked for, and the form's category resets. */
    method AddExpense(amountText: string, amount: int, description: string, date: string,
                      isRecurring: bool, recurringDay: int, signedIn: bool,
                      recId: Option<string>, expId: Option<string>, createdAt: string)
      modifies this
      ensures var added := amountText != "" && description != "" && signedIn && expId.Some? && (isRecurring ==> recId.Some?);
        && (!added ==> expenses == old(expenses) && recurringExpenses == old(recurringExpenses)
                       && selectedCategory == old(selectedCategory))
        && (added ==> selectedCategory == "food")
        && (added && !isRecurring ==>
              && recurringExpenses == old(recurringExpenses)
              && expenses == [Expense(expId.value, amount, description, old(selectedCategory), date, None)] + old(expenses))
        && (added && isRecurring ==>
              && recurringExpenses == old(recurringExpenses)
                   + [RecurringExpense(recId.value, amount, description, old(selectedCategory), recurringDay, true, createdAt)]
              && expenses == [Expense(expId.value, amount, description, old(selectedCategory), date, recId)] + old(expenses))
      ensures categories == old(categories) && categoryFilter == old(categoryFilter) && monthFilter == old(monthFilter)
    {
      if amountText == "" || description == "" {
        return;
      }
      if !signedIn {
        return;
      }
      if isRecurring {
        if recId.None? {
          return;
        }
        if expId.None? {
          return;
        }
        recurringExpenses := recurringExpenses
          + [RecurringExpense(recId.value, amount, description, selectedCategory, recurringDay, true, createdAt)];
        expenses := [Expense(expId.value, amount, description, selectedCategory, date, recId)] + expenses;
      } else {
        if expId.None? {
          return;
        }
        expenses := [Expense(expId.value, amount, description, selectedCategory, date, None)] + expenses;
      }
      selectedCategory := "food";
    }

    /** `handleAddCategory`: nothing happens for a blank name or without a
        user; otherwise the category is appended under its new id and becomes
        the form's category. */
    method AddCategory(name: string, color: string, signedIn: bool, stamp: string)
      modifies this
      ensures Trim(name) == [] || !signedIn ==> categories == old(categories) && selectedCategory == old(selectedCategory)
      ensures Trim(name) != [] && signedIn ==>
        && categories == old(categories) + [Category(NewCategoryId(name, stamp), Trim(name), color, Some(true))]
        && selectedCategory == NewCategoryId(name, stamp)
      ensures expenses == old(expenses) && recurringExpenses == old(recurringExpenses)
      ensures categoryFilter == old(categoryFilter) && monthFilter == old(monthFilter)
    {
      if Trim(name) == [] {
        return;
      }
      if !signedIn {
        return;
      }
      var id := NewCategoryId(name, stamp);
      categories := categories + [Category(id, Trim(name), color, Some(true))];
      selectedCategory := id;
    }

    /** `handleDeleteCategory`. */
    method DeleteCategory(categoryId: string)
      modifies this
      ensures categories == RemoveCategory(old(categories), categoryId)
      ensures selectedCategory == if old(selectedCategory) == categoryId then "food" else old(selectedCategory)
      ensures categoryFilter == if old(categoryFilter) == Some(categoryId) then None else old(categoryFilter)
      ensures expenses == old(expenses) && recurringExpenses == old(recurringExpenses) && monthFilter == old(monthFilter)
    {
      categories := RemoveCategory(categories, categoryId);
      if selectedCategory == categoryId {
        selectedCategory := "food";
      }
      if categoryFilter == Some(categoryId) {
        categoryFilter := None;
      }
    }

    /** `handleCategoryClick`. */
    method CategoryClick(categoryId: string)
      modifies this
      ensures categoryFilter == Click(old(categoryFilter), categoryId)
      ensures expenses == old(expenses) && recurringExpenses == old(recurringExpenses) && categories == old(categories)
      ensures selectedCategory == old(selectedCategory) && monthFilter == old(monthFilter)
    {
      categoryFilter := Click(categoryFilter, categoryId);
    }

    /** `handleMonthClick`. */
    method MonthClick(month: string)
      modifies this
      ensures monthFilter == Click(old(monthFilter), month)
      ensures expenses == old(expenses) && recurringExpenses == old(recurringExpenses) && categories == old(categories)
      ensures selectedCategory == old(selectedCategory) && categoryFilter == old(categoryFilter)
    {
      monthFilter := Click(monthFilter, month);
    }
  }

  /** `rs.find(x => x.id === id)`: the first entry with that id. */
  function FindRecurringIn(rs: seq<RecurringExpense>, id: string): (r: Option<RecurringExpense>)
    ensures r.Some? ==> r.value in rs && r.value.id == id
    ensures r.None? ==> forall x :: x in rs ==> x.id != id
  {
    if rs == [] then None
    else if rs[0].id == id then Some(rs[0])
    else FindRecurringIn(rs[1..], id)
  }

  /** Adding an expense (with its recurring entry when it is recurring) leaves
      no dangling link, and adds its amount to the total of its month. */
  lemma AddExpenseEffect(es: seq<Expense>, rs: seq<RecurringExpense>, e: Expense, r: Option<RecurringExpense>)
    requires LinksResolve(es, rs)
    requires e.recurringId.Some? ==> r.Some? && r.value.id == e.recurringId.value
    ensures LinksResolve([e] + es, if r.Some? then rs + [r.value] else rs)
    ensures MonthTotalOf([e] + es, ExpenseMonth(e)) == MonthTotalOf(es, ExpenseMonth(e)) + e.amount
  {
    var rs' := if r.Some? then rs + [r.value] else rs;
    forall x | x in [e] + es && x.recurringId.Some? ensures exists y :: y in rs' && y.id == x.recurringId.value {
      if x == e {
        assert r.value in rs';
      } else {
        var y :| y in rs && y.id == x.recurringId.value;
        assert y in rs';
      }
    }
    KeyFilterCons(e, es, ExpenseMonth(e));
    SumOfCons(e, KeyFilter(es, ExpenseMonth, ExpenseMonth(e)), ExpenseAmount);
  }

  lemma {:induction false} KeyFilterCons(e: Expense, es: seq<Expense>, month: string)
    ensures KeyFilter([e] + es, ExpenseMonth, month)
         == (if ExpenseMonth(e) == month then [e] else []) + KeyFilter(es, ExpenseMonth, month)
  {
    if es != [] {
      var n := |es| - 1;
      assert ([e] + es)[..n + 1] == [e] + es[..n];
      KeyFilterCons(e, es[..n], month);
    } else {
      assert [e] + es == [e];
      assert [e][..0] == [];
    }
  }
}
