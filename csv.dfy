/** The expense export of the expenses page: the rows and the text written
    for the filtered, newest-first list of the active month
    (`FilteredExpenses`), with a reader of one record in the format of
    section 2 of RFC 4180 that shows which fields a spreadsheet reads back
    from a row. */
module Csv {

  import opened Common
  import opened Text
  import opened Types
  import opened Sorting
  import opened LedgerMemos

  // ---------------------------------------------------------------------------
  // Reading one record (section 2 of RFC 4180)

  /** A field written without quotes must contain neither a comma nor a quote. */
  predicate PlainField(s: string) {
    ',' !in s && '"' !in s
  }

  /** `c` put in front of the text of a read quoted field. */
  function PrependChar(c: char, o: Option<(string, string)>): (r: Option<(string, string)>)
    ensures r.Some? <==> o.Some?
    ensures r.Some? ==> r.value.1 == o.value.1
  {
    if o.Some? then Some(([c] + o.value.0, o.value.1)) else None
  }

  /** The rest of a quoted field after its opening quote: the field's text
      (each doubled quote read as one) and what follows the closing quote;
      None when the closing quote is missing. */
  function Unquote(s: string): (r: Option<(string, string)>)
    ensures r.Some? ==> |r.value.1| < |s|
  {
    if s == [] then None
    else if s[0] == '"' then
      if |s| >= 2 && s[1] == '"' then PrependChar('"', Unquote(s[2..]))
      else Some(([], s[1..]))
    else PrependChar(s[0], Unquote(s[1..]))
  }

  function Prepend(f: string, fs: Option<seq<string>>): Option<seq<string>> {
    if fs.Some? then Some([f] + fs.value) else None
  }

  /** The fields of one record: comma-separated, each either plain or quoted;
      None when a quoted field is not closed or is followed by anything but a
      comma or the end. */
  function ReadFields(s: string): (r: Option<seq<string>>)
    decreases |s|
  {
    if s != [] && s[0] == '"' then
      match Unquote(s[1..])
      case None => None
      case Some((f, rest)) =>
        if rest == [] then Some([f])
        else if rest[0] == ',' then Prepend(f, ReadFields(rest[1..]))
        else None
    else
      var f := BeforeFirst(s, ',');
      if |f| == |s| then Some([f]) else Prepend(f, ReadFields(s[|f| + 1..]))
  }

  lemma UnquoteOfQuoteQuote(t: string)
    ensures Unquote("\"\"" + t) == PrependChar('"', Unquote(t))
  {
    assert ("\"\"" + t)[2..] == t;
  }

  lemma UnquoteOfOther(c: char, t: string)
    requires c != '"'
    ensures Unquote([c] + t) == PrependChar(c, Unquote(t))
  {
    assert ([c] + t)[1..] == t;
  }

  lemma UnquoteOfClose(rest: string)
    requires rest == [] || rest[0] != '"'
    ensures Unquote("\"" + rest) == Some(([], rest))
  {
    assert ("\"" + rest)[1..] == rest;
  }

  /** Doubling the quotes of a non-empty text starts with its first
      character, written twice when it is a quote. */
  lemma DoubledHead(d: string, rest: string)
    requires d != []
    ensures DoubleQuotes(d) + "\"" + rest
         == (if d[0] == '"' then "\"\"" else [d[0]]) + (DoubleQuotes(d[1..]) + "\"" + rest)
  {
  }

  /** One step of reading a quoted field back. */
  lemma UnquoteStep(d: string, rest: string)
    requires d != []
    requires Unquote(DoubleQuotes(d[1..]) + "\"" + rest) == Some((d[1..], rest))
    ensures Unquote(DoubleQuotes(d) + "\"" + rest) == Some((d, rest))
  {
    var t := DoubleQuotes(d[1..]) + "\"" + rest;
    DoubledHead(d, rest);
    if d[0] == '"' {
      UnquoteOfQuoteQuote(t);
    } else {
      UnquoteOfOther(d[0], t);
    }
    assert [d[0]] + d[1..] == d;
  }

  /** A field written with its quotes doubled and then closed reads back as
      itself, whatever follows as long as it does not start with a quote. */
  lemma {:induction false} UnquoteOfDoubled(d: string, rest: string)
    requires rest == [] || rest[0] != '"'
    ensures Unquote(DoubleQuotes(d) + "\"" + rest) == Some((d, rest))
  {
    if d == [] {
      assert DoubleQuotes(d) + "\"" + rest == "\"" + rest;
      UnquoteOfClose(rest);
    } else {
      UnquoteOfDoubled(d[1..], rest);
      UnquoteStep(d, rest);
    }
  }

  /** A plain field followed by a comma is read as itself, then the rest. */
  lemma ReadPlainThen(f: string, rest: string)
    requires PlainField(f)
    ensures ReadFields(f + "," + rest) == Prepend(f, ReadFields(rest))
  {
    var s := f + "," + rest;
    assert s == f + [','] + rest;
    BeforeFirstOfJoin(f, ',', rest);
    assert s[|f| + 1..] == rest;
    if f != [] {
      assert s[0] == f[0] && f[0] in f;
    }
  }

  /** A plain field alone is read as itself. */
  lemma ReadPlain(f: string)
    requires PlainField(f)
    ensures ReadFields(f) == Some([f])
  {
    if f != [] {
      assert f[0] in f;
    }
    assert BeforeFirst(f, ',') == f;
  }

  /** A quoted field followed by a comma is read as itself, then the rest. */
  lemma ReadQuotedThen(d: string, rest: string)
    ensures ReadFields("\"" + DoubleQuotes(d) + "\"" + "," + rest) == Prepend(d, ReadFields(rest))
  {
    var s := "\"" + DoubleQuotes(d) + "\"" + "," + rest;
    assert s[1..] == DoubleQuotes(d) + "\"" + ("," + rest);
    UnquoteOfDoubled(d, "," + rest);
    assert ("," + rest)[1..] == rest;
  }

  /** A quoted field alone is read as itself. */
  lemma ReadQuoted(d: string)
    ensures ReadFields("\"" + DoubleQuotes(d) + "\"") == Some([d])
  {
    var s := "\"" + DoubleQuotes(d) + "\"";
    assert s[1..] == DoubleQuotes(d) + "\"" + [];
    UnquoteOfDoubled(d, []);
  }

  /** A field as a row writes it: as it is, or in quotes with its quotes doubled. */
  datatype Field = Plain(text: string) | Quoted(text: string)

  function Render(f: Field): string {
    match f
    case Plain(t) => t
    case Quoted(t) => "\"" + DoubleQuotes(t) + "\""
  }

  /** The fields rendered and separated by commas. */
  function JoinFields(fs: seq<Field>): string
    requires fs != []
  {
    if |fs| == 1 then Render(fs[0]) else Render(fs[0]) + "," + JoinFields(fs[1..])
  }

  function Texts(fs: seq<Field>): (r: seq<string>)
    ensures |r| == |fs|
    ensures forall i :: 0 <= i < |fs| ==> r[i] == fs[i].text
  {
    seq(|fs|, i requires 0 <= i < |fs| => fs[i].text)
  }

  /** A field that reads back as written: quoted, or plain without a comma or quote. */
  predicate Readable(f: Field) {
    f.Quoted? || PlainField(f.text)
  }

  lemma JoinFieldsCons(fs: seq<Field>)
    requires |fs| >= 2
    ensures JoinFields(fs) == Render(fs[0]) + "," + JoinFields(fs[1..])
  {
  }

  /** A single readable field reads back as its text. */
  lemma ReadOneField(f: Field)
    requires Readable(f)
    ensures ReadFields(JoinFields([f])) == Some(Texts([f]))
  {
    assert JoinFields([f]) == Render(f);
    if f.Quoted? {
      ReadQuoted(f.text);
    } else {
      ReadPlain(f.text);
    }
    assert Texts([f]) == [f.text];
  }

  lemma TextsCons(fs: seq<Field>)
    requires fs != []
    ensures Texts(fs) == [fs[0].text] + Texts(fs[1..])
  {
  }

  /** A readable field is read, then what follows the comma after it. */
  lemma ReadFieldThen(f: Field, rest: string)
    requires Readable(f)
    ensures ReadFields(Render(f) + "," + rest) == Prepend(f.text, ReadFields(rest))
  {
    if f.Quoted? {
      ReadQuotedThen(f.text, rest);
    } else {
      ReadPlainThen(f.text, rest);
    }
  }

  /** A readable field in front of fields that read back reads back with them. */
  lemma ReadFieldStep(fs: seq<Field>)
    requires |fs| >= 2 && Readable(fs[0])
    requires ReadFields(JoinFields(fs[1..])) == Some(Texts(fs[1..]))
    ensures ReadFields(JoinFields(fs)) == Some(Texts(fs))
  {
    TextsCons(fs);
    JoinFieldsCons(fs);
    ReadFieldThen(fs[0], JoinFields(fs[1..]));
  }

  /** Fields that each read back as written, joined by commas, read back as
      their texts, one field each (section 2 of RFC 4180, rules 4 to 7). */
  lemma {:induction false} ReadFieldsOfJoin(fs: seq<Field>)
    requires fs != []
    requires forall i :: 0 <= i < |fs| ==> Readable(fs[i])
    ensures ReadFields(JoinFields(fs)) == Some(Texts(fs))
  {
    if |fs| == 1 {
      assert fs == [fs[0]];
      ReadOneField(fs[0]);
    } else {
      assert forall i :: 0 <= i < |fs| - 1 ==> fs[1..][i] == fs[i + 1];
      ReadFieldsOfJoin(fs[1..]);
      ReadFieldStep(fs);
    }
  }

  /** `(cents / 100).toFixed(2)` is written with digits, a dot and perhaps a
      minus sign. */
  lemma AmountChars(cents: int)
    ensures forall i :: 0 <= i < |CentsToFixed2(cents)| ==>
      var c := CentsToFixed2(cents)[i]; IsDigit(c) || c == '.' || c == '-'
  {
    var a := if cents < 0 then -cents else cents;
    var w := NatToString(a / 100);
    var p := PadStart2(NatToString(a % 100));
    var r := CentsToFixed2(cents);
    assert AllDigits(NatToString(a % 100));
    assert r == (if cents < 0 then "-" else "") + w + "." + p;
    forall i | 0 <= i < |r| ensures IsDigit(r[i]) || r[i] == '.' || r[i] == '-' {
      var k := if cents < 0 then 1 else 0;
      if i >= k && i < k + |w| {
        assert r[i] == w[i - k];
      } else if i >= k + |w| + 1 {
        assert r[i] == p[i - k - |w| - 1];
      }
    }
  }

  lemma AmountIsPlain(cents: int)
    ensures PlainField(CentsToFixed2(cents))
    ensures '\n' !in CentsToFixed2(cents)
  {
    AmountChars(cents);
  }

  // ---------------------------------------------------------------------------
  // The exported text

  const CsvHeader := "Date,Description,Category,Amount (EUR)\n"

  /** The label of the expense's category as `getCategory` finds it. */
  function LabelOf(e: Expense, categories: seq<Category>): string {
    CategoryOf(categories, e.category).labelText
  }

  /** One exported row, `${date},"${description}",${label},${amount}`: the
      date, the description in quotes with its quotes doubled, the category
      label and the amount, separated by commas. */
  function CsvRow(e: Expense, categories: seq<Category>): string {
    JoinFields(RowFields(e, categories))
  }

  /** The four fields of a row as the template writes them. */
  function RowFields(e: Expense, categories: seq<Category>): seq<Field> {
    [Plain(e.date), Quoted(e.description), Plain(LabelOf(e, categories)), Plain(CentsToFixed2(e.amount))]
  }

  /** The row reads back as its four fields, the description exactly as it
      was (commas, quotes and line breaks included), when the date and the
      label need no quotes. */
  lemma CsvRowReadsBack(e: Expense, categories: seq<Category>)
    requires PlainField(e.date) && PlainField(LabelOf(e, categories))
    ensures ReadFields(CsvRow(e, categories))
         == Some([e.date, e.description, LabelOf(e, categories), CentsToFixed2(e.amount)])
  {
    AmountIsPlain(e.amount);
    var fs := RowFields(e, categories);
    ReadFieldsOfJoin(fs);
    assert Texts(fs) == [e.date, e.description, LabelOf(e, categories), CentsToFixed2(e.amount)];
  }

  /** A plain field holding one comma is written as the two plain fields
      around it would be. */
  lemma CommaSplitsField(x: string, y: string, rest: seq<Field>)
    requires rest != []
    ensures JoinFields([Plain(x + "," + y)] + rest) == JoinFields([Plain(x), Plain(y)] + rest)
  {
    var tail := JoinFields(rest);
    var a := [Plain(x + "," + y)] + rest;
    var b := [Plain(x), Plain(y)] + rest;
    var b1 := [Plain(y)] + rest;
    assert JoinFields(a) == x + "," + y + "," + tail by {
      assert a[0] == Plain(x + "," + y) && a[1..] == rest;
      JoinFieldsCons(a);
    }
    assert JoinFields(b1) == y + "," + tail by {
      assert b1[0] == Plain(y) && b1[1..] == rest;
      JoinFieldsCons(b1);
    }
    assert JoinFields(b) == x + "," + JoinFields(b1) by {
      assert b[0] == Plain(x) && b[1..] == b1;
      JoinFieldsCons(b);
    }
    CommaRegroup(x, y, tail);
  }

  lemma CommaRegroup(x: string, y: string, t: string)
    ensures x + "," + y + "," + t == x + "," + (y + "," + t)
  {
  }

  /** The fields a row with label `x,y` is read as. */
  function SplitRowFields(e: Expense, x: string, y: string): seq<Field> {
    [Plain(e.date), Quoted(e.description), Plain(x), Plain(y), Plain(CentsToFixed2(e.amount))]
  }

  lemma SplitRowJoin(e: Expense, categories: seq<Category>, x: string, y: string)
    requires LabelOf(e, categories) == x + "," + y
    ensures CsvRow(e, categories) == JoinFields(SplitRowFields(e, x, y))
  {
    var amount := CentsToFixed2(e.amount);
    var row := RowFields(e, categories);
    var split := SplitRowFields(e, x, y);
    JoinFieldsCons(row);
    JoinFieldsCons(row[1..]);
    JoinFieldsCons(split);
    JoinFieldsCons(split[1..]);
    assert row[1..][1..] == [Plain(x + "," + y)] + [Plain(amount)];
    assert split[1..][1..] == [Plain(x), Plain(y)] + [Plain(amount)];
    CommaSplitsField(x, y, [Plain(amount)]);
  }

  /** A category label holding a comma splits its row into five fields, since
      the label is written without quotes: "Food, drinks" is read as the
      fields "Food" and " drinks". */
  lemma CsvRowLabelWithComma(e: Expense, categories: seq<Category>, x: string, y: string)
    requires PlainField(e.date) && PlainField(x) && PlainField(y)
    requires LabelOf(e, categories) == x + "," + y
    ensures ReadFields(CsvRow(e, categories)) == Some([e.date, e.description, x, y, CentsToFixed2(e.amount)])
  {
    AmountIsPlain(e.amount);
    SplitRowJoin(e, categories, x, y);
    var split := SplitRowFields(e, x, y);
    ReadFieldsOfJoin(split);
    assert Texts(split) == [e.date, e.description, x, y, CentsToFixed2(e.amount)];
  }

  /** The row with the label quoted as the description is: the corrected
      row, from which `CsvTextQuoted` below is built. */
  function CsvRowQuoted(e: Expense, categories: seq<Category>): string {
    JoinFields(QuotedFields(e, categories))
  }

  function QuotedFields(e: Expense, categories: seq<Category>): seq<Field> {
    [Plain(e.date), Quoted(e.description), Quoted(LabelOf(e, categories)), Plain(CentsToFixed2(e.amount))]
  }

  /** With the label quoted, every row reads back as its four fields whatever
      the description and the label hold. */
  lemma CsvRowQuotedReadsBack(e: Expense, categories: seq<Category>)
    requires PlainField(e.date)
    ensures ReadFields(CsvRowQuoted(e, categories))
         == Some([e.date, e.description, LabelOf(e, categories), CentsToFixed2(e.amount)])
  {
    AmountIsPlain(e.amount);
    var fs := QuotedFields(e, categories);
    ReadFieldsOfJoin(fs);
    assert Texts(fs) == [e.date, e.description, LabelOf(e, categories), CentsToFixed2(e.amount)];
  }

  /** `rows.join('\n')`. */
  function JoinLines(rows: seq<string>): (r: string)
    ensures rows == [] ==> r == []
    ensures |rows| == 1 ==> r == rows[0]
  {
    if rows == [] then []
    else if |rows| == 1 then rows[0]
    else rows[0] + "\n" + JoinLines(rows[1..])
  }

  /** The lines of a text split at each line feed (`s.split('\n')`). */
  function SplitLines(s: string): (r: seq<string>)
    ensures |r| >= 1
    decreases |s|
  {
    var line := BeforeFirst(s, '\n');
    if |line| == |s| then [s] else [line] + SplitLines(s[|line| + 1..])
  }

  /** Rows without line feeds are split back into the same rows. */
  lemma {:induction false} SplitJoinLines(rows: seq<string>)
    requires rows != []
    requires forall i :: 0 <= i < |rows| ==> '\n' !in rows[i]
    ensures SplitLines(JoinLines(rows)) == rows
  {
    if |rows| == 1 {
      assert BeforeFirst(rows[0], '\n') == rows[0];
    } else {
      var rest := JoinLines(rows[1..]);
      assert JoinLines(rows) == rows[0] + ['\n'] + rest;
      BeforeFirstOfJoin(rows[0], '\n', rest);
      assert (rows[0] + ['\n'] + rest)[|rows[0]| + 1..] == rest;
      SplitJoinLines(rows[1..]);
    }
  }

  /** The rows of the filtered list, one per expense, as the template writes them. */
  function CsvRows(expenses: seq<Expense>, categories: seq<Category>): (r: seq<string>)
    ensures |r| == |expenses|
  {
    seq(|expenses|, i requires 0 <= i < |expenses| => CsvRow(expenses[i], categories))
  }

  /** The exported text: the header line and the rows joined by line feeds. */
  function CsvText(expenses: seq<Expense>, activeMonth: string, categoryFilter: Option<string>,
                   categories: seq<Category>): string {
    CsvHeader + JoinLines(CsvRows(FilteredExpenses(expenses, activeMonth, categoryFilter), categories))
  }

  /** A text made of the header and rows without line feeds splits, after the
      header, back into those rows. */
  lemma HeaderThenLines(rows: seq<string>)
    requires rows != []
    requires forall i :: 0 <= i < |rows| ==> '\n' !in rows[i]
    ensures var text := CsvHeader + JoinLines(rows);
      && text[..|CsvHeader|] == CsvHeader
      && SplitLines(text[|CsvHeader|..]) == rows
  {
    SplitJoinLines(rows);
    var text := CsvHeader + JoinLines(rows);
    assert text[|CsvHeader|..] == JoinLines(rows);
  }

  /** A listed expense is one of the stored expenses. */
  lemma ListedIsStored(expenses: seq<Expense>, activeMonth: string, categoryFilter: Option<string>, i: int)
    requires 0 <= i < |FilteredExpenses(expenses, activeMonth, categoryFilter)|
    ensures FilteredExpenses(expenses, activeMonth, categoryFilter)[i] in expenses
  {
    var listed := FilteredExpenses(expenses, activeMonth, categoryFilter);
    assert listed[i] in multiset(listed);
    FilteredExpensesMembers(expenses, activeMonth, categoryFilter, listed[i]);
  }

  /** After the header, the text has one line per listed expense, in the
      order of the list, when no date, description or label holds a line feed. */
  lemma CsvTextLines(expenses: seq<Expense>, activeMonth: string, categoryFilter: Option<string>, categories: seq<Category>)
    requires forall e :: e in expenses ==> '\n' !in e.date && '\n' !in e.description && '\n' !in LabelOf(e, categories)
    requires FilteredExpenses(expenses, activeMonth, categoryFilter) != []
    ensures var listed := FilteredExpenses(expenses, activeMonth, categoryFilter);
      var text := CsvText(expenses, activeMonth, categoryFilter, categories);
      && text[..|CsvHeader|] == CsvHeader
      && SplitLines(text[|CsvHeader|..]) == CsvRows(listed, categories)
  {
    var listed := FilteredExpenses(expenses, activeMonth, categoryFilter);
    var rows := CsvRows(listed, categories);
    forall i | 0 <= i < |rows| ensures '\n' !in rows[i] {
      ListedIsStored(expenses, activeMonth, categoryFilter, i);
      RowHasNoLineFeed(listed[i], categories);
    }
    HeaderThenLines(rows);
  }

  /** Each line after the header reads back as the date, description, label
      and amount of the listed expense it stands for, when no date or label
      needs quotes. */
  lemma CsvTextReadsBack(expenses: seq<Expense>, activeMonth: string, categoryFilter: Option<string>,
                         categories: seq<Category>, i: int)
    requires forall e :: e in expenses ==> '\n' !in e.date && '\n' !in e.description && '\n' !in LabelOf(e, categories)
    requires forall e :: e in expenses ==> PlainField(e.date) && PlainField(LabelOf(e, categories))
    requires 0 <= i < |FilteredExpenses(expenses, activeMonth, categoryFilter)|
    ensures var listed := FilteredExpenses(expenses, activeMonth, categoryFilter);
      var lines := SplitLines(CsvText(expenses, activeMonth, categoryFilter, categories)[|CsvHeader|..]);
      && |lines| == |listed|
      && ReadFields(lines[i]) == Some([listed[i].date, listed[i].description, LabelOf(listed[i], categories), CentsToFixed2(listed[i].amount)])
  {
    var listed := FilteredExpenses(expenses, activeMonth, categoryFilter);
    CsvTextLines(expenses, activeMonth, categoryFilter, categories);
    ListedIsStored(expenses, activeMonth, categoryFilter, i);
    CsvRowReadsBack(listed[i], categories);
  }

  /** In the exported text, the line of an expense whose category label holds
      a comma reads back as five fields. */
  lemma CsvTextLabelWithComma(expenses: seq<Expense>, activeMonth: string, categoryFilter: Option<string>,
                              categories: seq<Category>, i: int, x: string, y: string)
    requires forall e :: e in expenses ==> '\n' !in e.date && '\n' !in e.description && '\n' !in LabelOf(e, categories)
    requires 0 <= i < |FilteredExpenses(expenses, activeMonth, categoryFilter)|
    requires var e := FilteredExpenses(expenses, activeMonth, categoryFilter)[i];
      PlainField(e.date) && PlainField(x) && PlainField(y) && LabelOf(e, categories) == x + "," + y
    ensures var listed := FilteredExpenses(expenses, activeMonth, categoryFilter);
      var lines := SplitLines(CsvText(expenses, activeMonth, categoryFilter, categories)[|CsvHeader|..]);
      && |lines| == |listed|
      && ReadFields(lines[i]) == Some([listed[i].date, listed[i].description, x, y, CentsToFixed2(listed[i].amount)])
  {
    var listed := FilteredExpenses(expenses, activeMonth, categoryFilter);
    CsvTextLines(expenses, activeMonth, categoryFilter, categories);
    CsvRowLabelWithComma(listed[i], categories, x, y);
  }

  /** The rows of the corrected export, each with its label quoted. */
  function CsvRowsQuoted(expenses: seq<Expense>, categories: seq<Category>): (r: seq<string>)
    ensures |r| == |expenses|
  {
    seq(|expenses|, i requires 0 <= i < |expenses| => CsvRowQuoted(expenses[i], categories))
  }

  /** The text of the corrected export. */
  function CsvTextQuoted(expenses: seq<Expense>, activeMonth: string, categoryFilter: Option<string>,
                         categories: seq<Category>): string {
    CsvHeader + JoinLines(CsvRowsQuoted(FilteredExpenses(expenses, activeMonth, categoryFilter), categories))
  }

  /** Each line of the corrected export reads back as its listed expense's
      four fields, whatever the description and the label hold. */
  lemma CsvTextQuotedReadsBack(expenses: seq<Expense>, activeMonth: string, categoryFilter: Option<string>,
                               categories: seq<Category>, i: int)
    requires forall e :: e in expenses ==> '\n' !in e.date && '\n' !in e.description && '\n' !in LabelOf(e, categories)
    requires forall e :: e in expenses ==> PlainField(e.date)
    requires 0 <= i < |FilteredExpenses(expenses, activeMonth, categoryFilter)|
    ensures var listed := FilteredExpenses(expenses, activeMonth, categoryFilter);
      var lines := SplitLines(CsvTextQuoted(expenses, activeMonth, categoryFilter, categories)[|CsvHeader|..]);
      && |lines| == |listed|
      && ReadFields(lines[i]) == Some([listed[i].date, listed[i].description, LabelOf(listed[i], categories), CentsToFixed2(listed[i].amount)])
  {
    var listed := FilteredExpenses(expenses, activeMonth, categoryFilter);
    var rows := CsvRowsQuoted(listed, categories);
    forall j | 0 <= j < |rows| ensures '\n' !in rows[j] {
      ListedIsStored(expenses, activeMonth, categoryFilter, j);
      RowHasNoLineFeed(listed[j], categories);
    }
    HeaderThenLines(rows);
    ListedIsStored(expenses, activeMonth, categoryFilter, i);
    CsvRowQuotedReadsBack(listed[i], categories);
  }

  lemma {:induction false} DoubleQuotesKeeps(s: string, c: char)
    requires c != '"'
    ensures c in DoubleQuotes(s) <==> c in s
  {
    if s != [] {
      DoubleQuotesKeeps(s[1..], c);
      assert s == [s[0]] + s[1..];
    }
  }

  /** Fields without line feeds are joined into a text without one. */
  lemma {:induction false} JoinHasNoLineFeed(fs: seq<Field>)
    requires fs != []
    requires forall i :: 0 <= i < |fs| ==> '\n' !in fs[i].text
    ensures '\n' !in JoinFields(fs)
  {
    DoubleQuotesKeeps(fs[0].text, '\n');
    if |fs| >= 2 {
      JoinFieldsCons(fs);
      JoinHasNoLineFeed(fs[1..]);
    }
  }

  lemma RowHasNoLineFeed(e: Expense, categories: seq<Category>)
    requires '\n' !in e.date && '\n' !in e.description && '\n' !in LabelOf(e, categories)
    ensures '\n' !in CsvRow(e, categories) && '\n' !in CsvRowQuoted(e, categories)
  {
    AmountIsPlain(e.amount);
    JoinHasNoLineFeed(RowFields(e, categories));
    JoinHasNoLineFeed(QuotedFields(e, categories));
  }
}
