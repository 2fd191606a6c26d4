/** The computations inside the command handlers that do not touch the store: the split of
    an expense's words into description and `#category`, the alerts raised after an
    expense, the comparison of the two latest salaries, the net balance, verdict and goal
    status of the reports, the monthly leave bank and the CSV export text. */
module Reports {
  import opened Wrappers
  import opened Text
  import opened Dates
  import opened Numbers
  import opened Ledger

  // ---------------------------------------------------------------------------------------
  // The words of an expense (`!gasto VALOR DESCRIÇÃO [#categoria]`)

  /** `words.join(' ') || 'Gasto'`. */
  function DescriptionText(words: seq<string>): (d: string)
    ensures d != []
    ensures words == [] ==> d == "Gasto"
  {
    var j := Join(words, " ");
    if j == [] then "Gasto" else j
  }

  /** The description and category of `parts` (the whole split command line): the words
      after the value, with a last word starting with `#` popped off as the category, `#`
      removed. */
  function ExpenseParts(parts: seq<string>): (r: (string, Option<string>))
  {
    var rest := if |parts| > 2 then parts[2..] else [];
    if rest != [] && StartsWith(rest[|rest| - 1], "#")
    then (DescriptionText(rest[..|rest| - 1]), Some(rest[|rest| - 1][1..]))
    else (DescriptionText(rest), None)
  }

  /** A last word `#c` is the category `c`, and the words between the value and it form the
      description. */
  lemma ExpenseTagged(head: seq<string>, words: seq<string>, c: string)
    requires |head| == 2
    ensures ExpenseParts(head + words + ["#" + c]).1 == Some(c)
    ensures ExpenseParts(head + words + ["#" + c]).0 == DescriptionText(words)
  {
    var parts := head + words + ["#" + c];
    var rest := parts[2..];
    assert rest == words + ["#" + c];
    assert rest[..|rest| - 1] == words;
    assert rest[|rest| - 1][..1] == "#";
  }

  /** Without a trailing `#` word nothing is a category and every word after the value is
      description; with no words at all the description is `Gasto`. */
  lemma ExpenseUntagged(head: seq<string>, words: seq<string>)
    requires |head| == 2
    requires words == [] || !StartsWith(words[|words| - 1], "#")
    ensures ExpenseParts(head + words).1 == None
    ensures ExpenseParts(head + words).0 == DescriptionText(words)
  {
    var parts := head + words;
    if |parts| > 2 {
      assert parts[2..] == words;
    } else {
      assert words == [];
    }
  }

  /** Non-empty words (as `split(/\s+/)` yields) are never replaced by the default. */
  lemma DescriptionKeepsWords(words: seq<string>)
    requires words != [] && words[0] != []
    ensures DescriptionText(words) == Join(words, " ")
  {
    JoinNonEmpty(words, " ");
  }

  // ---------------------------------------------------------------------------------------
  // Alerts after an expense

  datatype Alert =
    | PercentAlert(expense: real, salary: real, limit: real)
    | ValueAlert(expense: real, limit: real)
    | CategoryAlert(category: string, total: real, limit: real)

  /** The order in which the reply lists the alerts. */
  function Rank(a: Alert): nat {
    match a
    case PercentAlert(_, _, _) => 0
    case ValueAlert(_, _) => 1
    case CategoryAlert(_, _, _) => 2
  }

  /** A positive percent limit, a positive salary total and an expense total of at least
      that percent of it; stated without the division (`PercentIsRatio`). */
  predicate PercentFires(t: Totals, percent: real) {
    percent > 0.0 && t.salary > 0.0 && t.expense * 100.0 >= percent * t.salary
  }

  /** The percent test agrees with `(expense / salary) * 100 >= limit`. */
  lemma PercentIsRatio(t: Totals, percent: real)
    requires percent > 0.0 && t.salary > 0.0
    ensures PercentFires(t, percent) <==> (t.expense / t.salary) * 100.0 >= percent
  {
    var q := t.expense / t.salary;
    assert q * t.salary == t.expense;
    assert (q * 100.0) * t.salary == t.expense * 100.0;
    if q * 100.0 >= percent {
      assert (q * 100.0) * t.salary >= percent * t.salary;
    } else {
      assert (q * 100.0) * t.salary < percent * t.salary;
    }
  }

  /** A positive absolute limit reached by the expense total. */
  predicate ValueFires(t: Totals, value: real) {
    value > 0.0 && t.expense >= value
  }

  /** What row `e` adds to the category total: expenses of exactly `category` created in
      `month`. */
  function CategoryShare(e: Entry, category: string, month: Month): real {
    if e.kind == Expense && e.category == Some(category) && MonthOf(e.createdAt.date) == month
    then Amount(e) else 0.0
  }

  /** The month total of one category over the rows `getEntries` returned, dated by their
      creation day. */
  function CategoryMonthTotal(rows: seq<Entry>, category: string, month: Month): real
    decreases |rows|
  {
    if rows == [] then 0.0
    else CategoryMonthTotal(rows[..|rows| - 1], category, month) + CategoryShare(rows[|rows| - 1], category, month)
  }

  /** A non-empty category with a stored limit whose month total reaches it. */
  predicate CategoryFires(category: Option<string>, limit: Option<real>, rows: seq<Entry>, month: Month) {
    category.Some? && category.value != [] && limit.Some?
    && CategoryMonthTotal(rows, category.value, month) >= limit.value
  }

  function PercentPart(t: Totals, percent: real): (r: seq<Alert>)
    ensures |r| <= 1 && (r != [] ==> r[0].PercentAlert?)
    ensures r != [] <==> PercentFires(t, percent)
  {
    if PercentFires(t, percent) then [PercentAlert(t.expense, t.salary, percent)] else []
  }

  function ValuePart(t: Totals, value: real): (r: seq<Alert>)
    ensures |r| <= 1 && (r != [] ==> r[0].ValueAlert?)
    ensures r != [] <==> ValueFires(t, value)
  {
    if ValueFires(t, value) then [ValueAlert(t.expense, value)] else []
  }

  function CategoryPart(category: Option<string>, limit: Option<real>, rows: seq<Entry>, month: Month): (r: seq<Alert>)
    ensures |r| <= 1 && (r != [] ==> r[0].CategoryAlert?)
    ensures r != [] <==> CategoryFires(category, limit, rows, month)
  {
    if CategoryFires(category, limit, rows, month)
    then [CategoryAlert(category.value, CategoryMonthTotal(rows, category.value, month), limit.value)]
    else []
  }

  /** The alerts of `handleExpense`, given the totals after the new row, the alert
      configuration `(percent, value)`, the category and its limit, the user's rows and the
      current month. */
  function ExpenseAlerts(t: Totals, config: (real, real), category: Option<string>, limit: Option<real>,
                         rows: seq<Entry>, month: Month): (r: seq<Alert>)
    ensures |r| <= 3
    ensures forall i, j :: 0 <= i < j < |r| ==> Rank(r[i]) < Rank(r[j])
  {
    PercentPart(t, config.0) + ValuePart(t, config.1) + CategoryPart(category, limit, rows, month)
  }

  /** Each alert is in the reply exactly when its condition holds. */
  lemma AlertsFire(t: Totals, config: (real, real), category: Option<string>, limit: Option<real>,
                   rows: seq<Entry>, month: Month)
    ensures var r := ExpenseAlerts(t, config, category, limit, rows, month);
      && ((exists i :: 0 <= i < |r| && r[i].PercentAlert?) <==> PercentFires(t, config.0))
      && ((exists i :: 0 <= i < |r| && r[i].ValueAlert?) <==> ValueFires(t, config.1))
      && ((exists i :: 0 <= i < |r| && r[i].CategoryAlert?) <==> CategoryFires(category, limit, rows, month))
  {
    var p := PercentPart(t, config.0);
    var v := ValuePart(t, config.1);
    var c := CategoryPart(category, limit, rows, month);
    var r := ExpenseAlerts(t, config, category, limit, rows, month);
    assert r == p + v + c;
    if p != [] { assert r[0] == p[0]; }
    if v != [] { assert r[|p|] == v[0]; }
    if c != [] { assert r[|p| + |v|] == c[0]; }
  }

  /** Rows without a category (every row `getEntries` returns) add nothing to a category
      total. */
  lemma {:induction false} UncategorisedTotal(rows: seq<Entry>, category: string, month: Month)
    requires forall i :: 0 <= i < |rows| ==> rows[i].category.None?
    ensures CategoryMonthTotal(rows, category, month) == 0.0
    decreases |rows|
  {
    if rows != [] {
      UncategorisedTotal(rows[..|rows| - 1], category, month);
    }
  }

  /** Over such rows the category alert fires only for a limit of zero or less. */
  lemma CategoryAlertNeedsRows(category: Option<string>, limit: Option<real>, rows: seq<Entry>, month: Month)
    requires forall i :: 0 <= i < |rows| ==> rows[i].category.None?
    ensures CategoryFires(category, limit, rows, month)
            <==> category.Some? && category.value != [] && limit.Some? && limit.value <= 0.0
  {
    if category.Some? {
      UncategorisedTotal(rows, category.value, month);
    }
  }

  // ---------------------------------------------------------------------------------------
  // The salary comparison of `handleSalary`

  /** The salary amounts of `phone`, latest row first (`ORDER BY created_at DESC`, the
      table being in creation order). */
  function RecentSalaries(es: seq<Entry>, phone: string): (r: seq<real>)
    ensures |r| <= |es|
    decreases |es|
  {
    if es == [] then []
    else
      var e := es[|es| - 1];
      (if e.phone == phone && e.kind == Salary then [Amount(e)] else []) + RecentSalaries(es[..|es| - 1], phone)
  }

  /** `LIMIT 2`. */
  function LastTwo(xs: seq<real>): (r: seq<real>)
    ensures |r| == if |xs| < 2 then |xs| else 2
    ensures forall i :: 0 <= i < |r| ==> r[i] == xs[i]
  {
    if |xs| <= 2 then xs else xs[..2]
  }

  /** The reply's first line: a first salary, a raise by, a drop by, or the same amount. */
  datatype Mood = FirstSalary | Rose(change: real) | Fell(change: real) | Same

  function MoodOf(lastTwo: seq<real>): (m: Mood)
    ensures |lastTwo| != 2 <==> m == FirstSalary
  {
    if |lastTwo| != 2 then FirstSalary
    else
      var diff := lastTwo[0] - lastTwo[1];
      if diff > 0.0 then Rose(diff) else if diff < 0.0 then Fell(-diff) else Same
  }

  /** After a salary row is stored, the mood compares it with the user's previous salary:
      none before gives the first-salary line, otherwise the sign and size of the change. */
  lemma MoodAfterSalary(es: seq<Entry>, phone: string, e: Entry)
    requires e.phone == phone && e.kind == Salary
    ensures var prev := RecentSalaries(es, phone);
            var m := MoodOf(LastTwo(RecentSalaries(es + [e], phone)));
      && (prev == [] <==> m == FirstSalary)
      && (prev != [] ==> (m.Rose? <==> Amount(e) > prev[0]) && (m.Fell? <==> Amount(e) < prev[0])
                         && (m.Same? <==> Amount(e) == prev[0]))
      && (m.Rose? ==> m.change == Amount(e) - prev[0] && m.change > 0.0)
      && (m.Fell? ==> m.change == prev[0] - Amount(e) && m.change > 0.0)
  {
    var es' := es + [e];
    assert es'[|es'| - 1] == e && es'[..|es'| - 1] == es;
    assert RecentSalaries(es', phone) == [Amount(e)] + RecentSalaries(es, phone);
  }

  /** Rows of other users or of other kinds leave the salary history alone. */
  lemma SalariesIgnoreOthers(es: seq<Entry>, phone: string, e: Entry)
    requires e.phone != phone || e.kind != Salary
    ensures RecentSalaries(es + [e], phone) == RecentSalaries(es, phone)
  {
    var es' := es + [e];
    assert es'[|es'| - 1] == e && es'[..|es'| - 1] == es;
  }

  // ---------------------------------------------------------------------------------------
  // Net balance, verdict and goal of the reports

  /** `salary ? salary / 220 : 0`: the hourly rate of a 220-hour month. */
  function HourlyRate(salary: real): (r: real)
    ensures r * 220.0 == salary
  {
    if salary != 0.0 then salary / 220.0 else 0.0
  }

  /** The overtime hours priced at the hourly rate. */
  function OvertimeValue(t: Totals): (v: real)
    ensures v * 220.0 == t.overtimeHours * t.salary
  {
    var r := HourlyRate(t.salary);
    assert (t.overtimeHours * r) * 220.0 == t.overtimeHours * (r * 220.0);
    t.overtimeHours * r
  }

  /** Salary plus priced overtime minus expenses. */
  function Net(t: Totals): (n: real)
    ensures n * 220.0 == t.salary * (220.0 + t.overtimeHours) - t.expense * 220.0
  {
    t.salary + OvertimeValue(t) - t.expense
  }

  /** With no overtime the net balance is just salary minus expenses. */
  lemma NetWithoutOvertime(t: Totals)
    requires t.overtimeHours == 0.0
    ensures Net(t) == t.salary - t.expense
  {
  }

  /** The closing line of `!relatorio`; the second test overrides the first. */
  datatype Verdict = Neutral | Great | CutSpending

  function VerdictOf(net: real, salary: real): (v: Verdict)
    ensures v == CutSpending <==> net < salary * 0.5
    ensures v == Great <==> net > salary * 0.9 && !(net < salary * 0.5)
    ensures v == Neutral <==> salary * 0.5 <= net <= salary * 0.9
  {
    var v := if net > salary * 0.9 then Great else Neutral;
    if net < salary * 0.5 then CutSpending else v
  }

  /** With a non-negative salary total the two tests never both hold, so the override never
      shows: the verdict is great exactly above 90% of the salary. */
  lemma VerdictsExclusive(net: real, salary: real)
    requires salary >= 0.0
    ensures VerdictOf(net, salary) == Great <==> net > salary * 0.9
  {
  }

  /** The goal line of `!relatoriomes`. */
  datatype GoalStatus = NoGoal | Reached(goal: real) | Short(goal: real, missing: real)

  function GoalStatusOf(goal: real, net: real): (g: GoalStatus)
    ensures g.NoGoal? <==> goal <= 0.0
    ensures g.Reached? <==> goal > 0.0 && net >= goal
    ensures !g.NoGoal? ==> g.goal == goal
    ensures g.Short? ==> g.missing > 0.0 && net + g.missing == goal
  {
    if goal <= 0.0 then NoGoal else if net >= goal then Reached(goal) else Short(goal, goal - net)
  }

  /** Number of leave rows of a month (`COUNT(*)`, summed over the days). */
  function LeaveCount(es: seq<Entry>, phone: string, m: Month): (n: nat)
    ensures n <= |es|
    decreases |es|
  {
    if es == [] then 0
    else LeaveCount(es[..|es| - 1], phone, m) + (if InScope(es[|es| - 1], phone, During(m)) && es[|es| - 1].kind == Leave then 1 else 0)
  }

  /** The monthly bank line: worked-day hours as credit, the number of leaves as debit. */
  function MonthBank(es: seq<Entry>, phone: string, m: Month): (b: Bank)
    ensures b.balance == b.credit - b.debit
  {
    var credit := Sum(es, phone, During(m), Workday, HoursColumn);
    var debit := LeaveCount(es, phone, m) as real;
    Bank(credit, debit, credit - debit)
  }

  /** Every leave the bot stores is one hour, so counting leaves and summing their hours
      agree. */
  lemma {:induction false} LeaveCountIsHours(es: seq<Entry>, phone: string, m: Month)
    requires forall i :: 0 <= i < |es| ==> es[i].kind == Leave ==> es[i].hours == Some(One)
    ensures LeaveCount(es, phone, m) as real == Sum(es, phone, During(m), Leave, HoursColumn)
    decreases |es|
  {
    if es != [] {
      LeaveCountIsHours(es[..|es| - 1], phone, m);
      var e := es[|es| - 1];
      if e.kind == Leave {
        assert Value(One) == 1.0;
      }
    }
  }

  // ---------------------------------------------------------------------------------------
  // CSV export

  const CsvColumns := ["id", "type", "amount", "hours", "description", "category", "event_date", "created_at"]

  /** `id,type,amount,hours,description,category,event_date,created_at`. */
  const CsvHeader := Join(CsvColumns, ",")

  lemma ColumnsLack(c: char)
    requires c == ',' || c == '\n'
    ensures forall k :: 0 <= k < |CsvColumns| ==> c !in CsvColumns[k]
  {
    assert c !in "id" && c !in "type" && c !in "amount" && c !in "hours";
    assert c !in "description" && c !in "category" && c !in "event_date" && c !in "created_at";
  }

  /** The header names eight columns, like every row, on one line. */
  lemma HeaderColumns()
    ensures CountChar(CsvHeader, ',') == 7
    ensures '\n' !in CsvHeader
  {
    ColumnsLack(',');
    ColumnsLack('\n');
    JoinCount(CsvColumns, ',');
    JoinAbsent(CsvColumns, ",", '\n');
  }

  /** A number column: `x || ''` prints nothing for a missing or zero value. */
  function NumberText(d: Option<Decimal>): (s: string)
    ensures s == [] <==> d.None? || d.value.mantissa == 0
  {
    if d.None? || d.value.mantissa == 0 then ""
    else if d.value.negative then "-" + Show(d.value.(negative := false))
    else Show(d.value)
  }

  /** A date column: the stored `YYYY-MM-DD` text, or nothing. */
  function DateText(d: Option<Date>): string {
    if d.Some? && ValidDate(d.value) then FormatDate(d.value) else ""
  }

  function StampText(t: Stamp): string {
    if ValidStamp(t) then FormatStamp(t) else ""
  }

  /** The eight columns of one row, commas in the description turned into `;`. */
  function CsvFields(e: Entry): (f: seq<string>)
    ensures |f| == 8
  {
    [NatToString(e.id), KindName(e.kind), NumberText(e.amount), NumberText(e.hours),
     ReplaceChar(e.description.GetOr(""), ',', ';'), e.category.GetOr(""),
     DateText(e.eventDate), StampText(e.createdAt)]
  }

  function CsvLine(e: Entry): string {
    Join(CsvFields(e), ",")
  }

  /** One line per row, in the order given. */
  function CsvBody(rows: seq<Entry>): (r: seq<string>)
    ensures |r| == |rows|
    ensures forall i :: 0 <= i < |rows| ==> r[i] == CsvLine(rows[i])
  {
    seq(|rows|, i requires 0 <= i < |rows| => CsvLine(rows[i]))
  }

  /** The header, then the body. */
  function Csv(rows: seq<Entry>): string {
    Join([CsvHeader] + CsvBody(rows), "\n")
  }

  lemma DigitsHaveNo(s: string, c: char)
    requires AllDigits(s) && !IsDigit(c)
    ensures c !in s
  {
    assert forall i :: 0 <= i < |s| ==> s[i] != c;
  }

  lemma NumberTextHasNo(d: Option<Decimal>, c: char)
    requires !IsDigit(c) && c != '.' && c != '-'
    ensures c !in NumberText(d)
  {
    if d.Some? && d.value.mantissa != 0 {
      var u := d.value.(negative := false);
      ShowChars(u);
      assert forall i :: 0 <= i < |Show(u)| ==> Show(u)[i] != c;
    }
  }

  lemma DateTextHasNo(d: Option<Date>, c: char)
    requires !IsDigit(c) && c != '-'
    ensures c !in DateText(d)
  {
    if d.Some? && ValidDate(d.value) {
      var v := d.value;
      Digits2HasNo(v.month, c);
      Digits2HasNo(v.day, c);
      Digits2HasNo(v.year / 100, c);
      Digits2HasNo(v.year % 100, c);
    }
  }

  lemma StampTextHasNo(t: Stamp, c: char)
    requires !IsDigit(c) && c != '-' && c != ' ' && c != ':'
    ensures c !in StampText(t)
  {
    if ValidStamp(t) {
      DateTextHasNo(Some(t.date), c);
      Digits2HasNo(t.second / 3600, c);
      Digits2HasNo(t.second / 60 % 60, c);
      Digits2HasNo(t.second % 60, c);
    }
  }

  lemma Digits2HasNo(n: int, c: char)
    requires 0 <= n < 100 && !IsDigit(c)
    ensures c !in Digits2(n)
  {
  }

  /** None of the columns of a row without a category contains a comma, and only a
      description can contain a line break. */
  lemma FieldsHaveNo(e: Entry, c: char)
    requires c == ',' || c == '\n'
    requires e.category.None?
    requires c == '\n' ==> e.description.None? || c !in e.description.value
    ensures forall k :: 0 <= k < 8 ==> c !in CsvFields(e)[k]
  {
    var f := CsvFields(e);
    DigitsHaveNo(f[0], c);
    assert forall i :: 0 <= i < |f[1]| ==> f[1][i] != c;
    NumberTextHasNo(e.amount, c);
    NumberTextHasNo(e.hours, c);
    var d := e.description.GetOr("");
    ReplaceKeepsAbsent(d, c);
    DateTextHasNo(e.eventDate, c);
    StampTextHasNo(e.createdAt, c);
  }

  lemma ReplaceKeepsAbsent(d: string, c: char)
    requires c == ',' || c !in d
    requires c != ';'
    ensures c !in ReplaceChar(d, ',', ';')
  {
    var r := ReplaceChar(d, ',', ';');
    assert forall i :: 0 <= i < |r| ==> r[i] != c;
  }

  /** A row read back by `getEntries` always makes exactly eight columns: the description's
      commas cannot split it. */
  lemma CsvLineColumns(e: Entry)
    requires e.category.None?
    ensures CountChar(CsvLine(e), ',') == 7
    ensures '\n' !in CsvLine(e) <== e.description.None? || '\n' !in e.description.value
  {
    FieldsHaveNo(e, ',');
    JoinCount(CsvFields(e), ',');
    if e.description.None? || '\n' !in e.description.value {
      FieldsHaveNo(e, '\n');
      JoinAbsent(CsvFields(e), ",", '\n');
    }
  }

  /** With descriptions free of line breaks the export has one line per row after the
      header. */
  lemma CsvLines(rows: seq<Entry>)
    requires forall i :: 0 <= i < |rows| ==> rows[i].category.None?
    requires forall i :: 0 <= i < |rows| ==> rows[i].description.None? || '\n' !in rows[i].description.value
    ensures CountChar(Csv(rows), '\n') == |rows|
  {
    var body := CsvBody(rows);
    forall k | 0 <= k < |body| ensures '\n' !in body[k] {
      CsvLineColumns(rows[k]);
    }
    HeaderColumns();
    LinesCount(CsvHeader, body);
  }

  lemma LinesCount(header: string, body: seq<string>)
    requires '\n' !in header
    requires forall k :: 0 <= k < |body| ==> '\n' !in body[k]
    ensures CountChar(Join([header] + body, "\n"), '\n') == |body|
  {
    var lines := [header] + body;
    forall k | 0 <= k < |lines| ensures '\n' !in lines[k] {
      if k > 0 {
        assert lines[k] == body[k - 1];
      }
    }
    JoinCount(lines, '\n');
    assert "\n" == ['\n'];
  }
}
