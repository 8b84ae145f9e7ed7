/** lib/expense-utils.ts: rent classification, transaction sorting and the
    day-of-month options of a recurring expense. */
module ExpenseUtils {

  import opened Common
  import opened Types
  import opened Text
  import opened Sorting
  import Format

  /** `categories.find(c => c.id === id)`. */
  function FindCategory(categories: seq<Category>, id: string): (r: Option<Category>)
    ensures r.None? <==> forall c :: c in categories ==> c.id != id
    ensures r.Some? ==> r.value in categories && r.value.id == id
  {
    if categories == [] then None
    else if categories[0].id == id then Some(categories[0])
    else FindCategory(categories[1..], id)
  }

  const RentLabelWords: seq<string> := ["rent", "alquiler", "housing", "hipoteca", "mortgage"]
  const RentIdWords: seq<string> := ["rent", "housing"]

  /** isRentCategory: the category must exist; then its lower-cased label or
      the lower-cased id must mention one of the rent words. */
  predicate IsRentCategory(catId: string, categories: seq<Category>) {
    match FindCategory(categories, catId)
    case None => false
    case Some(cat) =>
      var labelText := ToLower(cat.labelText);
      var id := ToLower(catId);
      Contains(labelText, "rent") || Contains(labelText, "alquiler") || Contains(labelText, "housing")
      || Contains(labelText, "hipoteca") || Contains(labelText, "mortgage")
      || Contains(id, "rent") || Contains(id, "housing")
  }

  /** `w` occurs somewhere in `s`, for some `w` among `words`. */
  ghost predicate MentionsOneOf(s: string, words: seq<string>) {
    exists w, i :: w in words && OccursAt(s, w, i)
  }

  lemma ContainsAnyIffMentions(s: string, words: seq<string>)
    ensures (exists w :: w in words && Contains(s, w)) <==> MentionsOneOf(s, words)
  {
    forall w | w in words {
      ContainsIffOccurs(s, w);
    }
  }

  lemma LabelWordsIff(s: string)
    ensures MentionsOneOf(s, RentLabelWords) <==>
      Contains(s, "rent") || Contains(s, "alquiler") || Contains(s, "housing")
      || Contains(s, "hipoteca") || Contains(s, "mortgage")
  {
    ContainsAnyIffMentions(s, RentLabelWords);
    assert (exists w :: w in RentLabelWords && Contains(s, w)) <==>
      Contains(s, "rent") || Contains(s, "alquiler") || Contains(s, "housing")
      || Contains(s, "hipoteca") || Contains(s, "mortgage");
  }

  lemma IdWordsIff(s: string)
    ensures MentionsOneOf(s, RentIdWords) <==> Contains(s, "rent") || Contains(s, "housing")
  {
    ContainsAnyIffMentions(s, RentIdWords);
    assert (exists w :: w in RentIdWords && Contains(s, w)) <==> Contains(s, "rent") || Contains(s, "housing");
  }

  /** isRentCategory is false for an unknown id, and otherwise true exactly
      when a rent word occurs in the label or a rent/housing word in the id. */
  lemma IsRentCategoryIff(catId: string, categories: seq<Category>)
    ensures (forall c :: c in categories ==> c.id != catId) ==> !IsRentCategory(catId, categories)
    ensures IsRentCategory(catId, categories) <==>
      FindCategory(categories, catId).Some? &&
      (MentionsOneOf(ToLower(FindCategory(categories, catId).value.labelText), RentLabelWords)
       || MentionsOneOf(ToLower(catId), RentIdWords))
  {
    var found := FindCategory(categories, catId);
    if found.Some? {
      LabelWordsIff(ToLower(found.value.labelText));
      IdWordsIff(ToLower(catId));
    }
  }

  function SampleCategories(): seq<Category> {
    [Category("rent", "Rent", "#333", None), Category("food", "Food", "#333", None),
     Category("housing", "Housing", "#333", None), Category("alquiler", "Alquiler", "#333", None)]
  }

  lemma IsRentCategoryOfRent()
    ensures IsRentCategory("rent", SampleCategories())
  {
    assert FindCategory(SampleCategories(), "rent") == Some(SampleCategories()[0]);
    assert Contains(ToLower("rent"), "rent") by {
      assert ToLower("rent") == "rent";
    }
  }

  lemma IsRentCategoryOfFood()
    ensures !IsRentCategory("food", SampleCategories())
  {
    var cats := SampleCategories();
    assert FindCategory(cats, "food") == Some(cats[1]);
    assert ToLower("Food") == "food";
    assert ToLower("food") == "food";
    IsRentCategoryIff("food", cats);
    forall w, i | w in RentLabelWords + RentIdWords ensures !OccursAt("food", w, i) {
    }
  }

  lemma IsRentCategoryOfUnknown()
    ensures !IsRentCategory("unknown", SampleCategories())
  {
    IsRentCategoryIff("unknown", SampleCategories());
  }

  /** The comparator of sortExpenses for sort key `sort`, read as "cmp(a, b) <= 0";
      `categoryLabel` is the label lookup the caller passes in. */
  predicate Before(sort: string, categoryLabel: string -> string, a: Expense, b: Expense) {
    if sort == "date-desc" then LexLe(b.date, a.date)
    else if sort == "date-asc" then LexLe(a.date, b.date)
    else if sort == "amount-desc" then b.amount - a.amount <= 0
    else if sort == "amount-asc" then a.amount - b.amount <= 0
    else if sort == "category-asc" then LexLe(categoryLabel(a.category), categoryLabel(b.category))
    else if sort == "category-desc" then LexLe(categoryLabel(b.category), categoryLabel(a.category))
    else LexLe(b.date, a.date)
  }

  lemma BeforeTransitive(sort: string, categoryLabel: string -> string, a: Expense, b: Expense, c: Expense)
    requires Before(sort, categoryLabel, a, b) && Before(sort, categoryLabel, b, c)
    ensures Before(sort, categoryLabel, a, c)
  {
    var la, lb, lc := categoryLabel(a.category), categoryLabel(b.category), categoryLabel(c.category);
    if sort == "date-asc" {
      LexLeTransitive(a.date, b.date, c.date);
    } else if sort == "amount-desc" || sort == "amount-asc" {
    } else if sort == "category-asc" {
      LexLeTransitive(la, lb, lc);
    } else if sort == "category-desc" {
      LexLeTransitive(lc, lb, la);
    } else {
      LexLeTransitive(c.date, b.date, a.date);
    }
  }

  lemma BeforeIsTotalPreorder(sort: string, categoryLabel: string -> string)
    ensures TotalPreorder((a: Expense, b: Expense) => Before(sort, categoryLabel, a, b))
  {
    var le := (a: Expense, b: Expense) => Before(sort, categoryLabel, a, b);
    forall a: Expense, b: Expense ensures le(a, b) || le(b, a) {
      LexLeTotal(a.date, b.date);
      LexLeTotal(categoryLabel(a.category), categoryLabel(b.category));
    }
    forall a: Expense, b: Expense, c: Expense | le(a, b) && le(b, c) ensures le(a, c) {
      BeforeTransitive(sort, categoryLabel, a, b, c);
    }
  }

  /** sortExpenses: a stable sort of a copy of the list by the selected key. */
  function SortExpenses(expenses: seq<Expense>, sort: string, categoryLabel: string -> string): (r: seq<Expense>)
    ensures multiset(r) == multiset(expenses)
    ensures SortedBy(r, (a: Expense, b: Expense) => Before(sort, categoryLabel, a, b))
  {
    BeforeIsTotalPreorder(sort, categoryLabel);
    SortBy(expenses, (a: Expense, b: Expense) => Before(sort, categoryLabel, a, b))
  }

  /** What the order of sortExpenses means for each key; any unknown key
      sorts exactly as "date-desc". */
  lemma SortExpensesOrder(expenses: seq<Expense>, sort: string, categoryLabel: string -> string, i: int, j: int)
    requires 0 <= i < j < |expenses|
    ensures var r := SortExpenses(expenses, sort, categoryLabel);
      && (sort == "date-asc" ==> LexLe(r[i].date, r[j].date))
      && (sort == "amount-desc" ==> r[i].amount >= r[j].amount)
      && (sort == "amount-asc" ==> r[i].amount <= r[j].amount)
      && (sort == "category-asc" ==> LexLe(categoryLabel(r[i].category), categoryLabel(r[j].category)))
      && (sort == "category-desc" ==> LexLe(categoryLabel(r[j].category), categoryLabel(r[i].category)))
      && (sort !in {"date-asc", "amount-desc", "amount-asc", "category-asc", "category-desc"}
          ==> LexLe(r[j].date, r[i].date))
  {
    var r := SortExpenses(expenses, sort, categoryLabel);
    assert Before(sort, categoryLabel, r[i], r[j]);
  }

  lemma SortExpensesFallback(expenses: seq<Expense>, sort: string, categoryLabel: string -> string)
    requires sort !in {"date-desc", "date-asc", "amount-desc", "amount-asc", "category-asc", "category-desc"}
    ensures SortExpenses(expenses, sort, categoryLabel) == SortExpenses(expenses, "date-desc", categoryLabel)
  {
    SortByRespectsEqualRelations(expenses,
      (a: Expense, b: Expense) => Before(sort, categoryLabel, a, b),
      (a: Expense, b: Expense) => Before("date-desc", categoryLabel, a, b));
  }

  datatype DayOption = DayOption(value: string, labelText: string)

  /** getDayOptions: the 28 choices of a recurring expense's day of month. */
  function DayOptions(): (r: seq<DayOption>)
    ensures |r| == 28
  {
    seq(28, i requires 0 <= i < 28 => DayOption(NatToString(i + 1), NatToString(i + 1) + Format.OrdinalSuffix(i + 1)))
  }

  /** Entry i stands for day i + 1: its value reads back as i + 1 and its label
      is that number followed by its ordinal suffix. */
  lemma DayOptionsMeaning(i: int)
    requires 0 <= i < 28
    ensures AllDigits(DayOptions()[i].value) && DigitsValue(DayOptions()[i].value) == i + 1
    ensures DayOptions()[i].labelText == DayOptions()[i].value + Format.OrdinalSuffix(i + 1)
  {
    DigitsValueOfNatToString(i + 1);
  }

  lemma DayOptionsLabels()
    ensures DayOptions()[0].labelText == "1st" && DayOptions()[1].labelText == "2nd"
    ensures DayOptions()[2].labelText == "3rd" && DayOptions()[3].labelText == "4th"
  {
    assert DigitChar(1) == '1' && DigitChar(2) == '2' && DigitChar(3) == '3' && DigitChar(4) == '4';
  }
}
