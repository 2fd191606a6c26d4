/** The analytics over a user's entry rows (as `getEntries` returns them): the moving-average
    forecast, the per-category expense breakdown and the monthly history. The grouping the
    source does by mutating a `Map` in a loop is a method proved against the functions that
    define each group. */
module Analytics {
  import opened Wrappers
  import opened Text
  import opened Dates
  import opened Ledger
  import Sorting

  // ---------------------------------------------------------------------------------------
  // Grouping by month

  /** Salary and expense amounts of one group. */
  datatype Sums = Sums(salary: real, expense: real)

  /** The distinct effective months of `es`, in order of first appearance (the key order of
      the source's `Map`). */
  function MonthsOf(es: seq<Entry>): (ms: seq<Month>)
    ensures forall i, j :: 0 <= i < j < |ms| ==> ms[i] != ms[j]
    ensures |ms| <= |es|
    ensures es != [] ==> ms != []
    decreases |es|
  {
    if es == [] then []
    else
      var prev := MonthsOf(es[..|es| - 1]);
      var m := EffectiveMonth(es[|es| - 1]);
      if m in prev then prev else prev + [m]
  }

  /** A month occurs in `MonthsOf(es)` exactly when some row is dated in it. */
  lemma {:induction false} MonthsOfMembers(es: seq<Entry>, m: Month)
    ensures m in MonthsOf(es) <==> exists i :: 0 <= i < |es| && EffectiveMonth(es[i]) == m
    decreases |es|
  {
    if es != [] {
      var init := es[..|es| - 1];
      MonthsOfMembers(init, m);
      if exists i :: 0 <= i < |init| && EffectiveMonth(init[i]) == m {
        var i :| 0 <= i < |init| && EffectiveMonth(init[i]) == m;
        assert es[i] == init[i];
      }
      if exists i :: 0 <= i < |es| && EffectiveMonth(es[i]) == m {
        var i :| 0 <= i < |es| && EffectiveMonth(es[i]) == m;
        if i < |init| { assert init[i] == es[i]; }
      }
    }
  }


  /** What one row adds to its month's sums: its amount when it is a salary or an expense. */
  function Add(s: Sums, e: Entry): Sums {
    Sums(s.salary + (if e.kind == Salary then Amount(e) else 0.0),
         s.expense + (if e.kind == Expense then Amount(e) else 0.0))
  }

  /** The salary and expense amounts of the rows of month `m`. */
  function MonthSums(es: seq<Entry>, m: Month): Sums
    decreases |es|
  {
    if es == [] then Sums(0.0, 0.0)
    else
      var s := MonthSums(es[..|es| - 1], m);
      if EffectiveMonth(es[|es| - 1]) == m then Add(s, es[|es| - 1]) else s
  }

  /** How the month list and the sums grow by one row. */
  lemma MonthStep(es: seq<Entry>, i: nat)
    requires i < |es|
    ensures var m := EffectiveMonth(es[i]);
      MonthsOf(es[..i + 1]) == if m in MonthsOf(es[..i]) then MonthsOf(es[..i]) else MonthsOf(es[..i]) + [m]
    ensures forall x ::
      MonthSums(es[..i + 1], x) == (if EffectiveMonth(es[i]) == x then Add(MonthSums(es[..i], x), es[i]) else MonthSums(es[..i], x))
  {
    assert es[..i + 1][..i] == es[..i];
    assert es[..i + 1][i] == es[i];
  }

  /** A month without rows has zero sums. */
  lemma MonthAbsentSums(es: seq<Entry>, m: Month)
    requires m !in MonthsOf(es)
    ensures MonthSums(es, m) == Sums(0.0, 0.0)
  {
    MonthsOfMembers(es, m);
    MonthSumsZero(es, m);
  }

  lemma {:induction false} MonthSumsZero(es: seq<Entry>, m: Month)
    requires forall i :: 0 <= i < |es| ==> EffectiveMonth(es[i]) != m
    ensures MonthSums(es, m) == Sums(0.0, 0.0)
    decreases |es|
  {
    if es != [] {
      MonthSumsZero(es[..|es| - 1], m);
    }
  }

  /** `entries.forEach(...)` into `byMonth`: the months in first-appearance order and the sums
      of each. */
  method GroupByMonth(es: seq<Entry>) returns (months: seq<Month>, byMonth: map<Month, Sums>)
    ensures months == MonthsOf(es)
    ensures forall m :: m in byMonth <==> m in months
    ensures forall m :: m in byMonth ==> byMonth[m] == MonthSums(es, m)
  {
    months := [];
    byMonth := map[];
    for i := 0 to |es|
      invariant months == MonthsOf(es[..i])
      invariant forall m :: m in byMonth <==> m in months
      invariant forall m :: m in byMonth ==> byMonth[m] == MonthSums(es[..i], m)
    {
      var e := es[i];
      var m := EffectiveMonth(e);
      MonthStep(es, i);
      var before := if m in byMonth then byMonth[m] else Sums(0.0, 0.0);
      if m !in byMonth {
        MonthAbsentSums(es[..i], m);
        months := months + [m];
      }
      byMonth := byMonth[m := Add(before, e)];
    }
    assert es[..|es|] == es;
  }

  lemma MonthLeqIsTotalPreorder()
    ensures Sorting.TotalPreorder(MonthLeq)
  {
  }

  /** The months of `es` in ascending order (`Array.from(byMonth.keys()).sort()`). */
  function SortedMonths(months: seq<Month>): (r: seq<Month>)
    ensures Sorting.SortedBy(r, MonthLeq)
    ensures multiset(r) == multiset(months)
  {
    MonthLeqIsTotalPreorder();
    Sorting.SortBy(months, MonthLeq)
  }

  /** Sorting keeps exactly the months given, each once. */
  lemma SortedMonthsMembers(months: seq<Month>, m: Month)
    ensures m in SortedMonths(months) <==> m in months
  {
    var r := SortedMonths(months);
    assert m in multiset(r) <==> m in multiset(months);
  }

  lemma SortedMonthsDistinct(months: seq<Month>)
    requires Sorting.NoDup(months)
    ensures Sorting.NoDup(SortedMonths(months))
  {
    Sorting.NoDupPermutation(months, SortedMonths(months));
  }

  // ---------------------------------------------------------------------------------------
  // predictNextMonth

  /** `{ salary, expense, net, months_used }`. */
  datatype Forecast = Forecast(salary: real, expense: real, net: real, monthsUsed: nat)

  /** `months.slice(-3)`: the last three months, or all of them when there are fewer. */
  function Window(months: seq<Month>): (w: seq<Month>)
    ensures |w| == if |months| < 3 then |months| else 3
    ensures w == months[|months| - |w|..]
  {
    if |months| <= 3 then months else months[|months| - 3..]
  }

  /** The `reduce` over the window: salary and expense summed over its months. */
  function WindowSums(es: seq<Entry>, w: seq<Month>): Sums
    decreases |w|
  {
    if w == [] then Sums(0.0, 0.0)
    else
      var s := WindowSums(es, w[..|w| - 1]);
      var t := MonthSums(es, w[|w| - 1]);
      Sums(s.salary + t.salary, s.expense + t.expense)
  }

  /** `x / used` for the window sizes 1, 2 and 3 that can occur. */
  function Average(x: real, used: nat): (r: real)
    requires 1 <= used <= 3
    ensures r * (used as real) == x
  {
    if used == 1 then x else if used == 2 then x / 2.0 else x / 3.0
  }

  /** Averaging distributes over a difference. */
  lemma AverageDifference(a: real, b: real, used: nat)
    requires 1 <= used <= 3
    ensures Average(a - b, used) == Average(a, used) - Average(b, used)
  {
  }

  /** The forecast of window sums `agg` over `used` months. */
  function Averaged(agg: Sums, used: nat): (f: Forecast)
    requires 1 <= used <= 3
    ensures f.monthsUsed == used
    ensures f.salary * (used as real) == agg.salary && f.expense * (used as real) == agg.expense
  {
    Forecast(Average(agg.salary, used), Average(agg.expense, used), Average(agg.salary - agg.expense, used), used)
  }

  /** `predictNextMonth`: the window sums divided by the number of months in the window, or
      the error result when there is no entry. */
  function Prediction(es: seq<Entry>): (r: Result<Forecast, string>)
    ensures r.Err? <==> es == []
    ensures r.Err? ==> r.error == "Sem dados suficientes para previsão"
    ensures r.Ok? ==> r.value.monthsUsed == if |MonthsOf(es)| < 3 then |MonthsOf(es)| else 3
  {
    var months := SortedMonths(MonthsOf(es));
    assert |months| == |MonthsOf(es)| by { assert |multiset(months)| == |multiset(MonthsOf(es))|; }
    if months == [] then Err("Sem dados suficientes para previsão")
    else
      var w := Window(months);
      Ok(Averaged(WindowSums(es, w), |w|))
  }

  /** The window sums computed from the grouped map. */
  function MapWindowSums(byMonth: map<Month, Sums>, w: seq<Month>): Sums
    requires forall k :: 0 <= k < |w| ==> w[k] in byMonth
    decreases |w|
  {
    if w == [] then Sums(0.0, 0.0)
    else
      var s := MapWindowSums(byMonth, w[..|w| - 1]);
      var t := byMonth[w[|w| - 1]];
      Sums(s.salary + t.salary, s.expense + t.expense)
  }

  /** Summing the window through the grouped map equals summing it over the rows. */
  lemma {:induction false} MapWindowAgrees(es: seq<Entry>, byMonth: map<Month, Sums>, w: seq<Month>)
    requires forall k :: 0 <= k < |w| ==> w[k] in byMonth
    requires forall m :: m in byMonth ==> byMonth[m] == MonthSums(es, m)
    ensures MapWindowSums(byMonth, w) == WindowSums(es, w)
    decreases |w|
  {
    if w != [] {
      MapWindowAgrees(es, byMonth, w[..|w| - 1]);
    }
  }

  /** Every month of the window of the sorted months is a key of the map. */
  lemma WindowInMap(months: seq<Month>, sorted: seq<Month>, byMonth: map<Month, Sums>)
    requires multiset(sorted) == multiset(months)
    requires forall m :: m in byMonth <==> m in months
    ensures forall k :: 0 <= k < |Window(sorted)| ==> Window(sorted)[k] in byMonth
  {
    Sorting.PermutationMembers(months, sorted);
    var w := Window(sorted);
    forall k | 0 <= k < |w| ensures w[k] in byMonth {
      assert w[k] == sorted[|sorted| - |w| + k];
    }
  }

  /** `predictNextMonth` over the rows `es`. */
  method PredictNextMonth(es: seq<Entry>) returns (r: Result<Forecast, string>)
    ensures r == Prediction(es)
  {
    var months, byMonth := GroupByMonth(es);
    var sorted := SortedMonths(months);
    if |sorted| == 0 {
      return Err("Sem dados suficientes para previsão");
    }
    var w := Window(sorted);
    WindowInMap(months, sorted, byMonth);
    var agg := MapWindowSums(byMonth, w);
    MapWindowAgrees(es, byMonth, w);
    r := Ok(Averaged(agg, |w|));
  }

  /** The forecast net is the forecast salary minus the forecast expense. */
  lemma ForecastNet(es: seq<Entry>)
    requires Prediction(es).Ok?
    ensures Prediction(es).value.net == Prediction(es).value.salary - Prediction(es).value.expense
  {
    var w := Window(SortedMonths(MonthsOf(es)));
    var agg := WindowSums(es, w);
    AverageDifference(agg.salary, agg.expense, |w|);
  }

  /** With a single month of data the forecast is exactly that month's sums. */
  lemma SingleMonthForecast(es: seq<Entry>)
    requires |MonthsOf(es)| == 1
    ensures Prediction(es).Ok? && Prediction(es).value.monthsUsed == 1
    ensures Prediction(es).value.salary == MonthSums(es, MonthsOf(es)[0]).salary
    ensures Prediction(es).value.expense == MonthSums(es, MonthsOf(es)[0]).expense
  {
    var months := SortedMonths(MonthsOf(es));
    assert |months| == 1 by { assert |multiset(months)| == |multiset(MonthsOf(es))|; }
    assert months[0] in multiset(MonthsOf(es));
    assert months[0] == MonthsOf(es)[0];
    assert Window(months) == months;
    assert WindowSums(es, months) == Sums(0.0 + MonthSums(es, months[0]).salary, 0.0 + MonthSums(es, months[0]).expense) by {
      assert months[..0] == [];
    }
  }

  /** The window holds the latest months: in an ascending month list, every month outside
      the window comes before every month inside it. */
  lemma WindowIsLatest(months: seq<Month>, m: Month, n: Month)
    requires Sorting.SortedBy(months, MonthLeq)
    requires m in months && m !in Window(months) && n in Window(months)
    ensures MonthLeq(m, n) && m != n
  {
    var w := Window(months);
    var start := |months| - |w|;
    var i :| 0 <= i < |months| && months[i] == m;
    var j :| 0 <= j < |w| && w[j] == n;
    assert w[j] == months[start + j];
    if i >= start {
      assert false;
    }
  }

  /** The forecast averages the latest months of the data: a month with rows left out of the
      window precedes every month in it. */
  lemma ForecastWindowIsLatest(es: seq<Entry>, m: Month, n: Month)
    requires m in MonthsOf(es)
    requires m !in Window(SortedMonths(MonthsOf(es))) && n in Window(SortedMonths(MonthsOf(es)))
    ensures MonthLeq(m, n) && m != n
  {
    SortedMonthsMembers(MonthsOf(es), m);
    WindowIsLatest(SortedMonths(MonthsOf(es)), m, n);
  }

  // ---------------------------------------------------------------------------------------
  // getCategoryBreakdown

  /** `e.category || 'Sem categoria'`. */
  function CategoryKey(e: Entry): string {
    if e.category.Some? && e.category.value != [] then e.category.value else "Sem categoria"
  }

  /** Kept by the breakdown: an expense with a non-zero amount, of the given month when one
      is given. */
  predicate Counted(e: Entry, month: Option<Month>) {
    e.kind == Expense && e.amount.Some? && e.amount.value.mantissa != 0
    && (month.Some? ==> EffectiveMonth(e) == month.value)
  }

  /** The rows the breakdown keeps, in order. */
  function CountedRows(es: seq<Entry>, month: Option<Month>): (r: seq<Entry>)
    ensures forall i :: 0 <= i < |r| ==> Counted(r[i], month)
    ensures forall e :: e in r <==> e in es && Counted(e, month)
    decreases |es|
  {
    if es == [] then []
    else
      assert es == es[..|es| - 1] + [es[|es| - 1]];
      CountedRows(es[..|es| - 1], month) + (if Counted(es[|es| - 1], month) then [es[|es| - 1]] else [])
  }

  /** The distinct category keys of `es` in order of first appearance. */
  function CategoriesIn(es: seq<Entry>): (cs: seq<string>)
    ensures forall i, j :: 0 <= i < j < |cs| ==> cs[i] != cs[j]
    decreases |es|
  {
    if es == [] then []
    else
      var prev := CategoriesIn(es[..|es| - 1]);
      var c := CategoryKey(es[|es| - 1]);
      if c in prev then prev else prev + [c]
  }

  /** A category key occurs in `CategoriesIn(es)` exactly when some row has it. */
  lemma {:induction false} CategoriesInMembers(es: seq<Entry>, c: string)
    ensures c in CategoriesIn(es) <==> exists i :: 0 <= i < |es| && CategoryKey(es[i]) == c
    decreases |es|
  {
    if es != [] {
      var init := es[..|es| - 1];
      CategoriesInMembers(init, c);
      if exists i :: 0 <= i < |init| && CategoryKey(init[i]) == c {
        var i :| 0 <= i < |init| && CategoryKey(init[i]) == c;
        assert es[i] == init[i];
      }
      if exists i :: 0 <= i < |es| && CategoryKey(es[i]) == c {
        var i :| 0 <= i < |es| && CategoryKey(es[i]) == c;
        if i < |init| { assert init[i] == es[i]; }
      }
    }
  }

  /** The summed amount of the rows of category `c`. */
  function CategoryTotal(es: seq<Entry>, c: string): real
    decreases |es|
  {
    if es == [] then 0.0
    else CategoryTotal(es[..|es| - 1], c) + (if CategoryKey(es[|es| - 1]) == c then Amount(es[|es| - 1]) else 0.0)
  }

  /** `{ category, total }`. */
  datatype Slice = Slice(category: string, total: real)

  /** `b.total - a.total` as an order: larger totals first. */
  predicate ByTotalDesc(a: Slice, b: Slice) {
    a.total >= b.total
  }

  lemma ByTotalDescIsTotalPreorder()
    ensures Sorting.TotalPreorder(ByTotalDesc)
  {
  }

  /** One slice per category, in the order of `cs`. */
  function Slices(es: seq<Entry>, cs: seq<string>): (r: seq<Slice>)
    ensures |r| == |cs|
    ensures forall i :: 0 <= i < |r| ==> r[i].category == cs[i] && r[i].total == CategoryTotal(es, cs[i])
    decreases |cs|
  {
    if cs == [] then []
    else Slices(es, cs[..|cs| - 1]) + [Slice(cs[|cs| - 1], CategoryTotal(es, cs[|cs| - 1]))]
  }

  /** `getCategoryBreakdown(phone, month)` over the rows `es`. */
  function Breakdown(es: seq<Entry>, month: Option<Month>): (r: seq<Slice>)
    ensures Sorting.SortedBy(r, ByTotalDesc)
    ensures multiset(r) == multiset(Slices(CountedRows(es, month), CategoriesIn(CountedRows(es, month))))
  {
    var rows := CountedRows(es, month);
    ByTotalDescIsTotalPreorder();
    Sorting.SortBy(Slices(rows, CategoriesIn(rows)), ByTotalDesc)
  }

  /** The `forEach` filling the category map: the keys in first-appearance order and the
      total of each. */
  method GroupByCategory(rows: seq<Entry>) returns (cats: seq<string>, totals: map<string, real>)
    ensures cats == CategoriesIn(rows)
    ensures forall c :: c in totals <==> c in cats
    ensures forall c :: c in totals ==> totals[c] == CategoryTotal(rows, c)
  {
    cats := [];
    totals := map[];
    for i := 0 to |rows|
      invariant cats == CategoriesIn(rows[..i])
      invariant forall c :: c in totals <==> c in cats
      invariant forall c :: c in totals ==> totals[c] == CategoryTotal(rows[..i], c)
    {
      assert rows[..i + 1][..i] == rows[..i];
      var e := rows[i];
      var c := CategoryKey(e);
      var before := if c in totals then totals[c] else 0.0;
      if c !in totals {
        CategoryAbsentTotal(rows[..i], c);
      }
      totals := totals[c := before + Amount(e)];
      if c !in cats {
        cats := cats + [c];
      }
    }
    assert rows[..|rows|] == rows;
  }

  /** A category with no row totals 0. */
  lemma CategoryAbsentTotal(es: seq<Entry>, c: string)
    requires c !in CategoriesIn(es)
    ensures CategoryTotal(es, c) == 0.0
  {
    CategoriesInMembers(es, c);
    CategoryTotalZero(es, c);
  }

  lemma {:induction false} CategoryTotalZero(es: seq<Entry>, c: string)
    requires forall i :: 0 <= i < |es| ==> CategoryKey(es[i]) != c
    ensures CategoryTotal(es, c) == 0.0
    decreases |es|
  {
    if es != [] {
      CategoryTotalZero(es[..|es| - 1], c);
    }
  }

  /** `getCategoryBreakdown` over the rows `es`. */
  method CategoryBreakdown(es: seq<Entry>, month: Option<Month>) returns (r: seq<Slice>)
    ensures r == Breakdown(es, month)
  {
    var rows := CountedRows(es, month);
    var cats, totals := GroupByCategory(rows);
    var slices := seq(|cats|, i requires 0 <= i < |cats| => Slice(cats[i], totals[cats[i]]));
    assert slices == Slices(rows, cats);
    ByTotalDescIsTotalPreorder();
    r := Sorting.SortBy(slices, ByTotalDesc);
  }

  /** Sum of the totals of a list of slices. */
  function SliceSum(s: seq<Slice>): real
    decreases |s|
  {
    if s == [] then 0.0 else SliceSum(s[..|s| - 1]) + s[|s| - 1].total
  }

  /** Summed amount of all rows. */
  function AmountSum(es: seq<Entry>): real
    decreases |es|
  {
    if es == [] then 0.0 else AmountSum(es[..|es| - 1]) + Amount(es[|es| - 1])
  }

  lemma {:induction false} SliceSumAppend(a: seq<Slice>, b: seq<Slice>)
    ensures SliceSum(a + b) == SliceSum(a) + SliceSum(b)
    decreases |b|
  {
    if b == [] {
      assert a + b == a;
    } else {
      assert (a + b)[..|a + b| - 1] == a + b[..|b| - 1];
      assert (a + b)[|a + b| - 1] == b[|b| - 1];
      SliceSumAppend(a, b[..|b| - 1]);
    }
  }

  lemma SliceSumSingle(x: Slice)
    ensures SliceSum([x]) == x.total
  {
    assert [x][..0] == [];
  }

  /** Taking one slice out lowers the sum by its total. */
  lemma SliceSumRemove(b: seq<Slice>, j: nat)
    requires j < |b|
    ensures SliceSum(b) == SliceSum(b[..j] + b[j + 1..]) + b[j].total
  {
    Sorting.SplitAt(b, j);
    SliceSumMiddle(b, b[..j], b[j], b[j + 1..]);
  }

  lemma SliceSumMiddle(b: seq<Slice>, front: seq<Slice>, x: Slice, back: seq<Slice>)
    requires b == front + [x] + back
    ensures SliceSum(b) == SliceSum(front + back) + x.total
  {
    SliceSumAppend(front + [x], back);
    SliceSumAppend(front, [x]);
    SliceSumAppend(front, back);
    SliceSumSingle(x);
  }

  lemma MultisetRemove(b: seq<Slice>, j: nat)
    requires j < |b|
    ensures multiset(b) == multiset(b[..j] + b[j + 1..]) + multiset{b[j]}
  {
    var front, x, back := b[..j], b[j], b[j + 1..];
    assert b == front + [x] + back;
    assert multiset(b) == multiset(front) + multiset{x} + multiset(back);
    assert multiset(front + back) == multiset(front) + multiset(back);
  }

  /** Reordering slices does not change their sum. */
  lemma {:induction false} SliceSumPermutation(a: seq<Slice>, b: seq<Slice>)
    requires multiset(a) == multiset(b)
    ensures SliceSum(a) == SliceSum(b)
    decreases |a|
  {
    if a == [] {
      assert |b| == |multiset(b)|;
    } else {
      var a', x := a[..|a| - 1], a[|a| - 1];
      assert a == a' + [x];
      assert multiset(a) == multiset(a') + multiset{x};
      assert x in multiset(b);
      var j :| 0 <= j < |b| && b[j] == x;
      var b' := b[..j] + b[j + 1..];
      MultisetRemove(b, j);
      assert multiset(a') == multiset(a) - multiset{x};
      assert multiset(b') == multiset(b) - multiset{x};
      SliceSumRemove(b, j);
      SliceSumPermutation(a', b');
    }
  }

  /** The totals of the per-category slices add up to the summed amount of the rows. */
  lemma {:induction false} SlicesAddUp(es: seq<Entry>)
    ensures SliceSum(Slices(es, CategoriesIn(es))) == AmountSum(es)
    decreases |es|
  {
    if es != [] {
      var init := es[..|es| - 1];
      var e := es[|es| - 1];
      var c := CategoryKey(e);
      var prev := CategoriesIn(init);
      SlicesAddUp(init);
      if c in prev {
        SlicesBump(init, es, prev, c, Amount(e));
      } else {
        CategoryAbsentTotal(init, c);
        SlicesSame(init, es, prev, c);
        SlicesSplit(es, prev, c);
        SliceSumAppend(Slices(es, prev), [Slice(c, CategoryTotal(es, c))]);
        SliceSumSingle(Slice(c, CategoryTotal(es, c)));
      }
    }
  }

  /** When the new row's category `c` is not in `cs`, the slices of `cs` keep their totals. */
  lemma SlicesSame(init: seq<Entry>, es: seq<Entry>, cs: seq<string>, c: string)
    requires es != [] && init == es[..|es| - 1] && CategoryKey(es[|es| - 1]) == c && c !in cs
    ensures Slices(es, cs) == Slices(init, cs)
  {
    var a, b := Slices(es, cs), Slices(init, cs);
    forall i | 0 <= i < |cs| ensures a[i] == b[i] {
      assert CategoryTotal(es, cs[i]) == CategoryTotal(init, cs[i]);
    }
  }

  /** When the new row's category `c` already has a slice, that slice grows by the row's
      amount and the others keep their totals. */
  lemma {:induction false} SlicesBump(init: seq<Entry>, es: seq<Entry>, cs: seq<string>, c: string, a: real)
    requires es != [] && init == es[..|es| - 1] && CategoryKey(es[|es| - 1]) == c
    requires a == Amount(es[|es| - 1])
    requires c in cs && forall i, j :: 0 <= i < j < |cs| ==> cs[i] != cs[j]
    ensures SliceSum(Slices(es, cs)) == SliceSum(Slices(init, cs)) + a
    decreases |cs|
  {
    var n := |cs| - 1;
    var last, front := cs[n], cs[..n];
    assert cs == front + [last];
    if last == c {
      assert c !in front by {
        forall i | 0 <= i < |front| ensures front[i] != c { assert cs[i] == front[i]; }
      }
      BumpAtLast(init, es, front, c, a);
    } else {
      assert c in front by {
        var k :| 0 <= k < |cs| && cs[k] == c;
        assert k < n && front[k] == c;
      }
      SlicesBump(init, es, front, c, a);
      BumpInFront(init, es, front, last, c, a);
    }
  }

  lemma BumpAtLast(init: seq<Entry>, es: seq<Entry>, front: seq<string>, c: string, a: real)
    requires es != [] && init == es[..|es| - 1] && CategoryKey(es[|es| - 1]) == c
    requires a == Amount(es[|es| - 1]) && c !in front
    ensures SliceSum(Slices(es, front + [c])) == SliceSum(Slices(init, front + [c])) + a
  {
    SliceSumLast(es, front, c);
    SliceSumLast(init, front, c);
    SlicesSame(init, es, front, c);
  }

  lemma BumpInFront(init: seq<Entry>, es: seq<Entry>, front: seq<string>, last: string, c: string, a: real)
    requires es != [] && init == es[..|es| - 1] && CategoryKey(es[|es| - 1]) == c && last != c
    requires SliceSum(Slices(es, front)) == SliceSum(Slices(init, front)) + a
    ensures SliceSum(Slices(es, front + [last])) == SliceSum(Slices(init, front + [last])) + a
  {
    SliceSumLast(es, front, last);
    SliceSumLast(init, front, last);
    TotalUnchanged(init, es, last, c);
  }

  /** The sum over the slices of `front + [last]` adds the total of `last`. */
  lemma SliceSumLast(es: seq<Entry>, front: seq<string>, last: string)
    ensures SliceSum(Slices(es, front + [last])) == SliceSum(Slices(es, front)) + CategoryTotal(es, last)
  {
    var x := Slice(last, CategoryTotal(es, last));
    SlicesSplit(es, front, last);
    SliceSumAppend(Slices(es, front), [x]);
    SliceSumSingle(x);
  }

  lemma TotalUnchanged(init: seq<Entry>, es: seq<Entry>, d: string, c: string)
    requires es != [] && init == es[..|es| - 1] && CategoryKey(es[|es| - 1]) == c && d != c
    ensures CategoryTotal(es, d) == CategoryTotal(init, d)
  {
  }

  lemma SlicesSplit(es: seq<Entry>, front: seq<string>, last: string)
    ensures Slices(es, front + [last]) == Slices(es, front) + [Slice(last, CategoryTotal(es, last))]
  {
    assert (front + [last])[..|front|] == front;
  }

  /** The slices of distinct categories are distinct. */
  lemma SlicesDistinct(rows: seq<Entry>, cs: seq<string>)
    requires Sorting.NoDup(cs)
    ensures Sorting.NoDup(Slices(rows, cs))
  {
    var sl := Slices(rows, cs);
    forall i, j | 0 <= i < j < |sl| ensures sl[i] != sl[j] {
      assert sl[i].category == cs[i] && sl[j].category == cs[j];
    }
  }

  /** The categories keyed in a permutation of the slices, with their totals. */
  lemma SortedSlicesMembers(r: seq<Slice>, rows: seq<Entry>, cs: seq<string>)
    requires multiset(r) == multiset(Slices(rows, cs))
    ensures forall i :: 0 <= i < |r| ==> r[i].category in cs && r[i].total == CategoryTotal(rows, r[i].category)
  {
    var sl := Slices(rows, cs);
    Sorting.PermutationMembers(sl, r);
    forall i | 0 <= i < |r| ensures r[i].category in cs && r[i].total == CategoryTotal(rows, r[i].category) {
      var a :| 0 <= a < |sl| && sl[a] == r[i];
    }
  }

  /** Each category keys one slice of a permutation of the slices of distinct categories. */
  lemma SortedSlicesDistinct(r: seq<Slice>, rows: seq<Entry>, cs: seq<string>)
    requires Sorting.NoDup(cs) && multiset(r) == multiset(Slices(rows, cs))
    ensures forall i, j :: 0 <= i < j < |r| ==> r[i].category != r[j].category
  {
    var sl := Slices(rows, cs);
    SlicesDistinct(rows, cs);
    Sorting.NoDupPermutation(sl, r);
    Sorting.PermutationMembers(sl, r);
    forall i, j | 0 <= i < j < |r| ensures r[i].category != r[j].category {
      var a :| 0 <= a < |sl| && sl[a] == r[i];
      var b :| 0 <= b < |sl| && sl[b] == r[j];
      assert r[i] != r[j];
    }
  }

  /** Each category of `cs` keys some slice of a permutation of its slices. */
  lemma SortedSlicesCover(r: seq<Slice>, rows: seq<Entry>, cs: seq<string>, c: string)
    requires multiset(r) == multiset(Slices(rows, cs)) && c in cs
    ensures exists i :: 0 <= i < |r| && r[i].category == c
  {
    var sl := Slices(rows, cs);
    var j :| 0 <= j < |cs| && cs[j] == c;
    assert sl[j] in multiset(r);
    var i :| 0 <= i < |r| && r[i] == sl[j];
  }

  /** Each category appears once in the breakdown. */
  lemma BreakdownDistinct(es: seq<Entry>, month: Option<Month>)
    ensures var r := Breakdown(es, month);
      forall i, j :: 0 <= i < j < |r| ==> r[i].category != r[j].category
  {
    var rows := CountedRows(es, month);
    SortedSlicesDistinct(Breakdown(es, month), rows, CategoriesIn(rows));
  }

  /** Each slice of the breakdown holds the summed amount of the counted rows of its
      category, and that category is the key of some counted row. */
  lemma BreakdownTotals(es: seq<Entry>, month: Option<Month>)
    ensures var r, rows := Breakdown(es, month), CountedRows(es, month);
      forall i :: 0 <= i < |r| ==>
        r[i].total == CategoryTotal(rows, r[i].category)
        && exists k :: 0 <= k < |rows| && CategoryKey(rows[k]) == r[i].category
  {
    var r, rows := Breakdown(es, month), CountedRows(es, month);
    SortedSlicesMembers(r, rows, CategoriesIn(rows));
    forall i | 0 <= i < |r| ensures exists k :: 0 <= k < |rows| && CategoryKey(rows[k]) == r[i].category {
      CategoriesInMembers(rows, r[i].category);
    }
  }

  /** Every counted row's category has a slice in the breakdown. */
  lemma BreakdownCovers(es: seq<Entry>, month: Option<Month>)
    ensures var r, rows := Breakdown(es, month), CountedRows(es, month);
      forall k :: 0 <= k < |rows| ==> exists i :: 0 <= i < |r| && r[i].category == CategoryKey(rows[k])
  {
    var r, rows := Breakdown(es, month), CountedRows(es, month);
    forall k | 0 <= k < |rows| ensures exists i :: 0 <= i < |r| && r[i].category == CategoryKey(rows[k]) {
      CategoriesInMembers(rows, CategoryKey(rows[k]));
      SortedSlicesCover(r, rows, CategoriesIn(rows), CategoryKey(rows[k]));
    }
  }

  /** The breakdown's totals add up to the summed amount of the counted rows. */
  lemma BreakdownSum(es: seq<Entry>, month: Option<Month>)
    ensures SliceSum(Breakdown(es, month)) == AmountSum(CountedRows(es, month))
  {
    var rows := CountedRows(es, month);
    SliceSumPermutation(Breakdown(es, month), Slices(rows, CategoriesIn(rows)));
    SlicesAddUp(rows);
  }

  /** Through the store, rows carry no category (`getEntries` does not select it), so every
      counted expense falls under `Sem categoria` and the breakdown has at most one slice. */
  lemma BreakdownWithoutCategories(es: seq<Entry>, month: Option<Month>)
    requires forall i :: 0 <= i < |es| ==> es[i].category.None?
    ensures |Breakdown(es, month)| <= 1
    ensures forall i :: 0 <= i < |Breakdown(es, month)| ==> Breakdown(es, month)[i].category == "Sem categoria"
  {
    var rows := CountedRows(es, month);
    CountedNoCategory(es, month);
    var cs := CategoriesIn(rows);
    forall i | 0 <= i < |cs| ensures cs[i] == "Sem categoria" {
      CategoriesInMembers(rows, cs[i]);
    }
    Sorting.ConstantNoDup(cs, "Sem categoria");
    var r := Breakdown(es, month);
    assert |r| == |cs| by { assert |multiset(r)| == |multiset(Slices(rows, cs))|; }
    SortedSlicesMembers(r, rows, cs);
  }

  lemma {:induction false} CountedNoCategory(es: seq<Entry>, month: Option<Month>)
    requires forall i :: 0 <= i < |es| ==> es[i].category.None?
    ensures forall i :: 0 <= i < |CountedRows(es, month)| ==> CountedRows(es, month)[i].category.None?
    decreases |es|
  {
    if es != [] {
      CountedNoCategory(es[..|es| - 1], month);
    }
  }

  // ---------------------------------------------------------------------------------------
  // getHistoricalData

  /** `{ month, salary, expense, net }`. */
  datatype Point = Point(month: Month, salary: real, expense: real, net: real)

  /** Rows dated from the first day of `start` to the last day of `end`. */
  function InRange(es: seq<Entry>, start: Month, end: Month): (r: seq<Entry>)
    ensures forall i :: 0 <= i < |r| ==> MonthLeq(start, EffectiveMonth(r[i])) && MonthLeq(EffectiveMonth(r[i]), end)
    ensures forall e :: e in r <==> e in es && MonthLeq(start, EffectiveMonth(e)) && MonthLeq(EffectiveMonth(e), end)
    decreases |es|
  {
    if es == [] then []
    else
      var e := es[|es| - 1];
      var prev := InRange(es[..|es| - 1], start, end);
      assert es == es[..|es| - 1] + [e];
      prev + (if MonthLeq(start, EffectiveMonth(e)) && MonthLeq(EffectiveMonth(e), end) then [e] else [])
  }

  /** One point per month of `months`, with the month's sums and their difference. */
  function Points(rows: seq<Entry>, months: seq<Month>): (r: seq<Point>)
    ensures |r| == |months|
    ensures forall i :: 0 <= i < |r| ==> r[i].month == months[i]
    ensures forall i :: 0 <= i < |r| ==> r[i].salary == MonthSums(rows, months[i]).salary
    ensures forall i :: 0 <= i < |r| ==> r[i].expense == MonthSums(rows, months[i]).expense
    ensures forall i :: 0 <= i < |r| ==> r[i].net == r[i].salary - r[i].expense
    decreases |months|
  {
    if months == [] then []
    else
      var m := months[|months| - 1];
      var s := MonthSums(rows, m);
      Points(rows, months[..|months| - 1]) + [Point(m, s.salary, s.expense, s.salary - s.expense)]
  }

  /** `getHistoricalData(phone, startMonth, endMonth)` over the rows `es`. */
  function History(es: seq<Entry>, start: Month, end: Month): seq<Point> {
    var rows := InRange(es, start, end);
    Points(rows, SortedMonths(MonthsOf(rows)))
  }

  /** `getHistoricalData` over the rows `es`: the grouping loop, then `months.map(...)`. */
  method HistoricalData(es: seq<Entry>, start: Month, end: Month) returns (r: seq<Point>)
    ensures r == History(es, start, end)
  {
    var rows := InRange(es, start, end);
    var months, byMonth := GroupByMonth(rows);
    var sorted := SortedMonths(months);
    Sorting.PermutationMembers(months, sorted);
    r := seq(|sorted|, k requires 0 <= k < |sorted| =>
      Point(sorted[k], byMonth[sorted[k]].salary, byMonth[sorted[k]].expense,
            byMonth[sorted[k]].salary - byMonth[sorted[k]].expense));
    PointsEqual(r, rows, sorted);
  }

  lemma PointsEqual(r: seq<Point>, rows: seq<Entry>, months: seq<Month>)
    requires |r| == |months|
    requires forall k :: 0 <= k < |r| ==>
      (r[k].month == months[k] && r[k].salary == MonthSums(rows, months[k]).salary
       && r[k].expense == MonthSums(rows, months[k]).expense && r[k].net == r[k].salary - r[k].expense)
    ensures r == Points(rows, months)
  {
    var p := Points(rows, months);
    forall k | 0 <= k < |r| ensures r[k] == p[k] {
    }
  }

  /** The history lists strictly ascending months. */
  lemma HistoryAscending(es: seq<Entry>, start: Month, end: Month)
    ensures var h := History(es, start, end);
      forall i, j :: 0 <= i < j < |h| ==> MonthLeq(h[i].month, h[j].month) && h[i].month != h[j].month
  {
    var ms := MonthsOf(InRange(es, start, end));
    assert Sorting.NoDup(ms);
    SortedMonthsDistinct(ms);
  }

  /** Every month of the history lies within the range and holds at least one row. */
  lemma HistoryInRange(es: seq<Entry>, start: Month, end: Month)
    ensures var h := History(es, start, end);
      forall i :: 0 <= i < |h| ==>
        (MonthLeq(start, h[i].month) && MonthLeq(h[i].month, end) && exists e :: e in es && EffectiveMonth(e) == h[i].month)
  {
    var rows := InRange(es, start, end);
    var ms := MonthsOf(rows);
    var sorted := SortedMonths(ms);
    var h := History(es, start, end);
    Sorting.PermutationMembers(ms, sorted);
    forall i | 0 <= i < |h| ensures MonthLeq(start, h[i].month) && MonthLeq(h[i].month, end)
      && exists e :: e in es && EffectiveMonth(e) == h[i].month
    {
      MonthsOfMembers(rows, sorted[i]);
      var k :| 0 <= k < |rows| && EffectiveMonth(rows[k]) == sorted[i];
      assert rows[k] in rows;
    }
  }

  /** Every month in the range that holds a row has a point in the history. */
  lemma HistoryComplete(es: seq<Entry>, start: Month, end: Month, e: Entry)
    requires e in es && MonthLeq(start, EffectiveMonth(e)) && MonthLeq(EffectiveMonth(e), end)
    ensures var h := History(es, start, end);
      exists i :: 0 <= i < |h| && h[i].month == EffectiveMonth(e)
  {
    var rows := InRange(es, start, end);
    var ms := MonthsOf(rows);
    var k :| 0 <= k < |rows| && rows[k] == e;
    MonthsOfMembers(rows, EffectiveMonth(e));
    SortedMonthsMembers(ms, EffectiveMonth(e));
    var sorted := SortedMonths(ms);
    var i :| 0 <= i < |sorted| && sorted[i] == EffectiveMonth(e);
    assert History(es, start, end)[i].month == sorted[i];
  }

  /** A start month after the end month gives an empty history. */
  lemma EmptyHistory(es: seq<Entry>, start: Month, end: Month)
    requires !MonthLeq(start, end)
    ensures History(es, start, end) == []
  {
    InRangeEmpty(es, start, end);
  }

  lemma {:induction false} InRangeEmpty(es: seq<Entry>, start: Month, end: Month)
    requires !MonthLeq(start, end)
    ensures InRange(es, start, end) == []
    decreases |es|
  {
    if es != [] {
      InRangeEmpty(es[..|es| - 1], start, end);
    }
  }
}
