/** The bot's SQLite store as an in-memory state machine: the append-only `entries` table,
    the `users` table, per-category limits, monthly salaries and the crypto watchlist. The
    queries over the entries table are functions of it; the writes are methods of `Store`. */
module Ledger {
  import opened Wrappers
  import opened Text
  import opened Dates
  import opened Numbers

  // ---------------------------------------------------------------------------------------
  // Entries

  /** The `type` column. */
  datatype Kind = Salary | Expense | Overtime | Leave | Workday

  /** The text stored in the `type` column. */
  function KindName(k: Kind): (s: string)
    ensures s != [] && forall i :: 0 <= i < |s| ==> IsLowerAscii(s[i])
  {
    match k
    case Salary => "salary"
    case Expense => "expense"
    case Overtime => "overtime"
    case Leave => "leave"
    case Workday => "workday"
  }

  /** One row of `entries`. `createdAt` is the `CURRENT_TIMESTAMP` default. */
  datatype Entry = Entry(id: nat, phone: string, kind: Kind, amount: Option<Decimal>,
                         hours: Option<Decimal>, description: Option<string>,
                         category: Option<string>, eventDate: Option<Date>, createdAt: Stamp)

  predicate ValidStamp(t: Stamp) {
    ValidDate(t.date) && 0 <= t.second < 86400
  }

  /** Dates in a row are real calendar dates. */
  predicate WellFormed(e: Entry) {
    ValidStamp(e.createdAt) && (e.eventDate.Some? ==> ValidDate(e.eventDate.value))
  }

  /** `COALESCE(event_date, created_at)`, the date an entry counts for. */
  function EffectiveDate(e: Entry): Date {
    if e.eventDate.Some? then e.eventDate.value else e.createdAt.date
  }

  function EffectiveMonth(e: Entry): Month {
    MonthOf(EffectiveDate(e))
  }

  /** `amount || 0` as a real number. */
  function Amount(e: Entry): real {
    if e.amount.Some? then Value(e.amount.value) else 0.0
  }

  /** `hours || 0` as a real number. */
  function Hours(e: Entry): real {
    if e.hours.Some? then Value(e.hours.value) else 0.0
  }

  /** The one hour (one day) stored by a leave or a worked day. */
  const One := Decimal(false, 1, 0)

  // ---------------------------------------------------------------------------------------
  // Aggregates (`SUM ... GROUP BY type`)

  /** Which rows of one user an aggregate keeps: all of them, those whose effective date
      lies in an inclusive range, or those of one `YYYY-MM` month. */
  datatype Scope = Everything | Between(start: Date, end: Date) | During(month: Month)

  predicate InScope(e: Entry, phone: string, scope: Scope) {
    e.phone == phone &&
    match scope
    case Everything => true
    case Between(s, t) => DateLeq(s, EffectiveDate(e)) && DateLeq(EffectiveDate(e), t)
    case During(m) => EffectiveMonth(e) == m
  }

  /** Which column a sum adds up. */
  datatype Column = AmountColumn | HoursColumn

  function Measure(e: Entry, c: Column): real {
    match c
    case AmountColumn => Amount(e)
    case HoursColumn => Hours(e)
  }

  /** What entry `e` adds to the sum of column `c` over rows of kind `k` in scope. */
  function Share(e: Entry, phone: string, scope: Scope, k: Kind, c: Column): real {
    if InScope(e, phone, scope) && e.kind == k then Measure(e, c) else 0.0
  }

  /** `SUM(c)` over the rows of kind `k` in scope; an empty group gives 0. */
  function Sum(es: seq<Entry>, phone: string, scope: Scope, k: Kind, c: Column): real
    decreases |es|
  {
    if es == [] then 0.0
    else Sum(es[..|es| - 1], phone, scope, k, c) + Share(es[|es| - 1], phone, scope, k, c)
  }

  datatype Totals = Totals(salary: real, expense: real, overtimeHours: real, leave: real)

  const NoTotals := Totals(0.0, 0.0, 0.0, 0.0)

  /** `getTotals`, `getTotalsRange` and `getMonthlyTotals`: salary and expense amounts,
      overtime and leave hours. */
  function TotalsOf(es: seq<Entry>, phone: string, scope: Scope): Totals {
    Totals(Sum(es, phone, scope, Salary, AmountColumn), Sum(es, phone, scope, Expense, AmountColumn),
           Sum(es, phone, scope, Overtime, HoursColumn), Sum(es, phone, scope, Leave, HoursColumn))
  }

  /** The leave bank: one day of credit per worked day, one of debit per leave. */
  datatype Bank = Bank(credit: real, debit: real, balance: real)

  /** `getLeaveBank`. */
  function LeaveBankOf(es: seq<Entry>, phone: string): Bank {
    var credit := Sum(es, phone, Everything, Workday, HoursColumn);
    var debit := Sum(es, phone, Everything, Leave, HoursColumn);
    Bank(credit, debit, credit - debit)
  }

  /** Appending a row changes a sum by exactly that row's share. */
  lemma SumAppend(es: seq<Entry>, e: Entry, phone: string, scope: Scope, k: Kind, c: Column)
    ensures Sum(es + [e], phone, scope, k, c) == Sum(es, phone, scope, k, c) + Share(e, phone, scope, k, c)
  {
    assert (es + [e])[..|es|] == es;
  }

  /** Appending a row adds its amount or hours to the total of its own kind only; a row of
      another user, out of scope, or a worked day leaves the totals as they were. */
  lemma TotalsAppend(es: seq<Entry>, e: Entry, phone: string, scope: Scope)
    ensures var t, t' := TotalsOf(es, phone, scope), TotalsOf(es + [e], phone, scope);
      var inc := InScope(e, phone, scope);
      && t'.salary == t.salary + (if inc && e.kind == Salary then Amount(e) else 0.0)
      && t'.expense == t.expense + (if inc && e.kind == Expense then Amount(e) else 0.0)
      && t'.overtimeHours == t.overtimeHours + (if inc && e.kind == Overtime then Hours(e) else 0.0)
      && t'.leave == t.leave + (if inc && e.kind == Leave then Hours(e) else 0.0)
  {
    SumAppend(es, e, phone, scope, Salary, AmountColumn);
    SumAppend(es, e, phone, scope, Expense, AmountColumn);
    SumAppend(es, e, phone, scope, Overtime, HoursColumn);
    SumAppend(es, e, phone, scope, Leave, HoursColumn);
  }

  /** A worked day adds one day of credit and one to the balance; the debit is unchanged. */
  lemma WorkedDayCredit(es: seq<Entry>, e: Entry)
    requires e.kind == Workday && e.hours == Some(One)
    ensures LeaveBankOf(es + [e], e.phone).credit == LeaveBankOf(es, e.phone).credit + 1.0
    ensures LeaveBankOf(es + [e], e.phone).debit == LeaveBankOf(es, e.phone).debit
    ensures LeaveBankOf(es + [e], e.phone).balance == LeaveBankOf(es, e.phone).balance + 1.0
  {
    SumAppend(es, e, e.phone, Everything, Workday, HoursColumn);
    SumAppend(es, e, e.phone, Everything, Leave, HoursColumn);
    assert Value(One) == 1.0;
  }

  /** A leave adds one day of debit and takes one from the balance. */
  lemma LeaveDebit(es: seq<Entry>, e: Entry)
    requires e.kind == Leave && e.hours == Some(One)
    ensures LeaveBankOf(es + [e], e.phone).credit == LeaveBankOf(es, e.phone).credit
    ensures LeaveBankOf(es + [e], e.phone).debit == LeaveBankOf(es, e.phone).debit + 1.0
    ensures LeaveBankOf(es + [e], e.phone).balance == LeaveBankOf(es, e.phone).balance - 1.0
  {
    SumAppend(es, e, e.phone, Everything, Workday, HoursColumn);
    SumAppend(es, e, e.phone, Everything, Leave, HoursColumn);
    assert Value(One) == 1.0;
  }

  /** A sum over rows none of which is of kind `k` in scope is 0. */
  lemma {:induction false} SumAbsent(es: seq<Entry>, phone: string, scope: Scope, k: Kind, c: Column)
    requires forall i :: 0 <= i < |es| ==> !(InScope(es[i], phone, scope) && es[i].kind == k)
    ensures Sum(es, phone, scope, k, c) == 0.0
    decreases |es|
  {
    if es != [] {
      SumAbsent(es[..|es| - 1], phone, scope, k, c);
    }
  }

  /** A kind with no rows in scope totals 0; in particular an empty range, or a month without
      entries, gives all zeros. */
  lemma AbsentKindIsZero(es: seq<Entry>, phone: string, scope: Scope)
    ensures (forall i :: 0 <= i < |es| ==> !(InScope(es[i], phone, scope) && es[i].kind == Salary)) ==> TotalsOf(es, phone, scope).salary == 0.0
    ensures (forall i :: 0 <= i < |es| ==> !(InScope(es[i], phone, scope) && es[i].kind == Expense)) ==> TotalsOf(es, phone, scope).expense == 0.0
    ensures (forall i :: 0 <= i < |es| ==> !(InScope(es[i], phone, scope) && es[i].kind == Overtime)) ==> TotalsOf(es, phone, scope).overtimeHours == 0.0
    ensures (forall i :: 0 <= i < |es| ==> !(InScope(es[i], phone, scope) && es[i].kind == Leave)) ==> TotalsOf(es, phone, scope).leave == 0.0
  {
    if forall i :: 0 <= i < |es| ==> !(InScope(es[i], phone, scope) && es[i].kind == Salary) {
      SumAbsent(es, phone, scope, Salary, AmountColumn);
    }
    if forall i :: 0 <= i < |es| ==> !(InScope(es[i], phone, scope) && es[i].kind == Expense) {
      SumAbsent(es, phone, scope, Expense, AmountColumn);
    }
    if forall i :: 0 <= i < |es| ==> !(InScope(es[i], phone, scope) && es[i].kind == Overtime) {
      SumAbsent(es, phone, scope, Overtime, HoursColumn);
    }
    if forall i :: 0 <= i < |es| ==> !(InScope(es[i], phone, scope) && es[i].kind == Leave) {
      SumAbsent(es, phone, scope, Leave, HoursColumn);
    }
  }

  /** A range whose start is after its end keeps no row, so all its totals are 0. */
  lemma EmptyRange(es: seq<Entry>, phone: string, start: Date, end: Date)
    requires !DateLeq(start, end)
    ensures TotalsOf(es, phone, Between(start, end)) == NoTotals
  {
    forall i | 0 <= i < |es| ensures !InScope(es[i], phone, Between(start, end)) {
      DateLeqTransitive(start, EffectiveDate(es[i]), end);
    }
    AbsentKindIsZero(es, phone, Between(start, end));
  }

  lemma DateLeqTransitive(a: Date, b: Date, c: Date)
    ensures DateLeq(a, b) && DateLeq(b, c) ==> DateLeq(a, c)
  {
  }

  /** Two scopes that keep the same rows give the same sums. */
  lemma {:induction false} SameRows(es: seq<Entry>, phone: string, s1: Scope, s2: Scope, k: Kind, c: Column)
    requires forall i :: 0 <= i < |es| ==> (InScope(es[i], phone, s1) <==> InScope(es[i], phone, s2))
    ensures Sum(es, phone, s1, k, c) == Sum(es, phone, s2, k, c)
    decreases |es|
  {
    if es != [] {
      SameRows(es[..|es| - 1], phone, s1, s2, k, c);
    }
  }

  function FirstDay(m: Month): Date {
    Date(m.year, m.month, 1)
  }

  function LastDay(m: Month): Date {
    Date(m.year, m.month, DaysInMonth(m.year, m.month))
  }

  /** A calendar date is in month `m` exactly when it lies between the first and the last
      day of `m`. */
  lemma MonthBounds(d: Date, m: Month)
    requires ValidDate(d)
    ensures MonthOf(d) == m <==> DateLeq(FirstDay(m), d) && DateLeq(d, LastDay(m))
  {
  }

  /** `getMonthlyTotals` for a month equals `getTotalsRange` from its first to its last day. */
  lemma MonthIsRange(es: seq<Entry>, phone: string, m: Month)
    requires forall i :: 0 <= i < |es| ==> WellFormed(es[i])
    ensures TotalsOf(es, phone, During(m)) == TotalsOf(es, phone, Between(FirstDay(m), LastDay(m)))
  {
    var r := Between(FirstDay(m), LastDay(m));
    forall i | 0 <= i < |es| ensures InScope(es[i], phone, During(m)) <==> InScope(es[i], phone, r) {
      MonthBounds(EffectiveDate(es[i]), m);
    }
    SameRows(es, phone, During(m), r, Salary, AmountColumn);
    SameRows(es, phone, During(m), r, Expense, AmountColumn);
    SameRows(es, phone, During(m), r, Overtime, HoursColumn);
    SameRows(es, phone, During(m), r, Leave, HoursColumn);
  }

  // ---------------------------------------------------------------------------------------
  // Reading entries back (`getEntries`)

  /** `getEntries` selects every column except `category`. */
  function Row(e: Entry): (r: Entry)
    ensures r.category.None?
    ensures r == e.(category := None)
  {
    e.(category := None)
  }

  /** The text `ORDER BY COALESCE(event_date, created_at)` compares. */
  function SortKey(e: Entry): string {
    if e.eventDate.Some? && ValidDate(e.eventDate.value) then FormatDate(e.eventDate.value)
    else if ValidStamp(e.createdAt) then FormatStamp(e.createdAt)
    else ""
  }

  predicate KeyLeq(a: Entry, b: Entry) {
    LexLeq(SortKey(a), SortKey(b))
  }

  lemma KeyLeqIsTotalPreorder()
    ensures Sorting.TotalPreorder(KeyLeq)
  {
    forall a: Entry, b: Entry ensures KeyLeq(a, b) || KeyLeq(b, a) {
      LexLeqTotal(SortKey(a), SortKey(b));
    }
    forall a: Entry, b: Entry, c: Entry | KeyLeq(a, b) && KeyLeq(b, c) ensures KeyLeq(a, c) {
      LexLeqTransitive(SortKey(a), SortKey(b), SortKey(c));
    }
  }

  /** The rows of one user, in table order, without their category. */
  function RowsOf(es: seq<Entry>, phone: string): (r: seq<Entry>)
    ensures |r| <= |es|
    ensures forall i :: 0 <= i < |r| ==> r[i].phone == phone && r[i].category.None?
    ensures forall e :: e in es && e.phone == phone ==> Row(e) in r
    ensures forall x :: x in r ==> exists e :: e in es && e.phone == phone && x == Row(e)
    decreases |es|
  {
    if es == [] then []
    else
      assert es == es[..|es| - 1] + [es[|es| - 1]];
      RowsOf(es[..|es| - 1], phone) + (if es[|es| - 1].phone == phone then [Row(es[|es| - 1])] else [])
  }

  /** `getEntries`: the user's rows ordered by effective date (ties in an unspecified order). */
  function Entries(es: seq<Entry>, phone: string): (r: seq<Entry>)
    ensures Sorting.SortedBy(r, KeyLeq)
    ensures multiset(r) == multiset(RowsOf(es, phone))
  {
    KeyLeqIsTotalPreorder();
    Sorting.SortBy(RowsOf(es, phone), KeyLeq)
  }

  /** Every row `getEntries` returns has lost its category. */
  lemma EntriesHaveNoCategory(es: seq<Entry>, phone: string)
    ensures forall i :: 0 <= i < |Entries(es, phone)| ==> Entries(es, phone)[i].category.None?
    ensures forall i :: 0 <= i < |Entries(es, phone)| ==> Entries(es, phone)[i].phone == phone
  {
    var r := Entries(es, phone);
    var src := RowsOf(es, phone);
    forall i | 0 <= i < |r| ensures r[i].category.None? && r[i].phone == phone {
      assert r[i] in multiset(src);
      var j :| 0 <= j < |src| && src[j] == r[i];
    }
  }

  // ---------------------------------------------------------------------------------------
  // Users

  /** The columns of `users` the bot reads or writes. */
  datatype User = User(lastSalary: real, lastSalaryDate: Option<Stamp>, targetIncome: real,
                       maxExpensePercent: real, maxExpenseValue: real,
                       notifyDaily: bool, notifyWeekly: bool, sheetsId: Option<string>,
                       language: string, timezone: string, notifyHour: int, insightEnabled: int,
                       morningBriefEnabled: int, morningBriefHour: int)

  /** What `ensureUser` resolves: the stored row of a known user, or, for a user it has just
      inserted, an object holding only the phone and `last_salary: 0`. */
  datatype EnsureResult = ExistingUser(user: User) | InsertedUser(phone: string, lastSalary: real)

  /** The row `INSERT INTO users(phone)` creates: every column at its default. */
  function DefaultUser(): (u: User)
    ensures u.lastSalary == 0.0 && u.targetIncome == 0.0
    ensures u.maxExpensePercent == 0.0 && u.maxExpenseValue == 0.0
    ensures !u.notifyDaily && !u.notifyWeekly
    ensures u.language == "pt" && u.notifyHour == 8 && u.insightEnabled == 1
    ensures u.morningBriefEnabled == 0 && u.morningBriefHour == 8
  {
    User(0.0, None, 0.0, 0.0, 0.0, false, false, None, "pt", "America/Sao_Paulo", 8, 1, 0, 8)
  }

  /** The users table after `ensureUser(phone)`. */
  function WithUser(users: map<string, User>, phone: string): (r: map<string, User>)
    ensures phone in r
    ensures phone in users ==> r == users
    ensures phone !in users ==> r[phone] == DefaultUser()
    ensures forall q :: q != phone ==> (q in r <==> q in users)
    ensures forall q :: q != phone && q in users ==> r[q] == users[q]
  {
    if phone in users then users else users[phone := DefaultUser()]
  }

  /** `ensureUser` is idempotent. */
  lemma WithUserIdempotent(users: map<string, User>, phone: string)
    ensures WithUser(WithUser(users, phone), phone) == WithUser(users, phone)
  {
  }

  /** The optional fields of `setUserPrefs`; a `None` (or empty text) keeps the column. */
  datatype PrefsUpdate = PrefsUpdate(language: Option<string>, timezone: Option<string>,
                                     notifyHour: Option<int>, insightEnabled: Option<int>)

  /** `if (language)`: a present, non-empty text. */
  predicate Given(s: Option<string>) {
    s.Some? && s.value != []
  }

  /** The columns `setUserPrefs` would write. */
  predicate AnyField(p: PrefsUpdate) {
    Given(p.language) || Given(p.timezone) || p.notifyHour.Some? || p.insightEnabled.Some?
  }

  predicate ValidHour(h: int) {
    0 <= h <= 23
  }

  /** A user after the supplied preference fields are written; nothing else changes. */
  function ApplyPrefs(u: User, p: PrefsUpdate): (v: User)
    ensures v.language == (if Given(p.language) then p.language.value else u.language)
    ensures v.timezone == (if Given(p.timezone) then p.timezone.value else u.timezone)
    ensures v.notifyHour == (if p.notifyHour.Some? then p.notifyHour.value else u.notifyHour)
    ensures v.insightEnabled == (if p.insightEnabled.Some? then p.insightEnabled.value else u.insightEnabled)
    ensures v.(language := u.language, timezone := u.timezone, notifyHour := u.notifyHour,
               insightEnabled := u.insightEnabled) == u
  {
    u.(language := if Given(p.language) then p.language.value else u.language,
       timezone := if Given(p.timezone) then p.timezone.value else u.timezone,
       notifyHour := if p.notifyHour.Some? then p.notifyHour.value else u.notifyHour,
       insightEnabled := if p.insightEnabled.Some? then p.insightEnabled.value else u.insightEnabled)
  }

  /** An update that supplies no field changes nothing. */
  lemma EmptyPrefsKeepUser(u: User, p: PrefsUpdate)
    requires !AnyField(p)
    ensures ApplyPrefs(u, p) == u
  {
  }

  /** `getUserPrefs`: language, timezone, notify hour and insight flag, or their defaults. */
  datatype Prefs = Prefs(language: string, timezone: string, notifyHour: int, insightEnabled: int)

  /** `getMorningBriefPrefs`. */
  datatype BriefPrefs = BriefPrefs(enabled: int, hour: int)

  // ---------------------------------------------------------------------------------------
  // The store

  class Store {
    /** The `entries` table in insertion (`rowid`) order. */
    var entries: seq<Entry>
    /** The next `AUTOINCREMENT` id. */
    var nextId: nat
    var users: map<string, User>
    /** `category_limits`, keyed by (phone, category). */
    var limits: map<(string, string), real>
    /** `salaries_monthly`, keyed by (phone, month). */
    var monthlySalaries: map<(string, Month), real>
    /** `user_crypto_watchlist`, a set of (phone, symbol) pairs. */
    var watchlist: set<(string, string)>

    /** Ids are positive, increase along the table and stay below `nextId`; dates are real. */
    predicate Valid()
      reads this
    {
      && nextId >= 1
      && (forall i :: 0 <= i < |entries| ==> 1 <= entries[i].id < nextId && WellFormed(entries[i]))
      && (forall i, j :: 0 <= i < j < |entries| ==> entries[i].id < entries[j].id)
    }

    /** A fresh, empty database. */
    constructor ()
      ensures Valid()
      ensures entries == [] && users == map[] && limits == map[] && monthlySalaries == map[]
      ensures watchlist == {}
    {
      entries := [];
      nextId := 1;
      users := map[];
      limits := map[];
      monthlySalaries := map[];
      watchlist := {};
    }

    /** `ensureUser`: resolves the existing row, or inserts a default row and resolves only
        the phone and a zero last salary. */
    method EnsureUser(phone: string) returns (u: EnsureResult)
      modifies this
      ensures users == WithUser(old(users), phone)
      ensures phone in old(users) ==> u == ExistingUser(old(users)[phone])
      ensures phone !in old(users) ==> u == InsertedUser(phone, 0.0)
      ensures entries == old(entries) && nextId == old(nextId) && limits == old(limits)
      ensures monthlySalaries == old(monthlySalaries) && watchlist == old(watchlist)
    {
      if phone in users {
        u := ExistingUser(users[phone]);
      } else {
        u := InsertedUser(phone, 0.0);
      }
      users := WithUser(users, phone);
    }

    /** `addEntry`: appends one row with a fresh id greater than every earlier id, and
        returns that id. */
    method AddEntry(phone: string, kind: Kind, amount: Option<Decimal>, hours: Option<Decimal>,
                    description: Option<string>, eventDate: Option<Date>,
                    category: Option<string>, now: Stamp) returns (id: nat)
      requires Valid() && ValidStamp(now) && (eventDate.Some? ==> ValidDate(eventDate.value))
      modifies this
      ensures Valid()
      ensures id == old(nextId) && nextId == old(nextId) + 1
      ensures entries == old(entries) + [Entry(id, phone, kind, amount, hours, description, category, eventDate, now)]
      ensures forall i :: 0 <= i < |old(entries)| ==> old(entries)[i].id < id
      ensures users == old(users) && limits == old(limits)
      ensures monthlySalaries == old(monthlySalaries) && watchlist == old(watchlist)
    {
      id := nextId;
      entries := entries + [Entry(id, phone, kind, amount, hours, description, category, eventDate, now)];
      nextId := nextId + 1;
    }

    /** `addWorkedDay`: a workday row of one hour. */
    method AddWorkedDay(phone: string, eventDate: Option<Date>, now: Stamp) returns (id: nat)
      requires Valid() && ValidStamp(now) && (eventDate.Some? ==> ValidDate(eventDate.value))
      modifies this
      ensures Valid()
      ensures id == old(nextId) && nextId == old(nextId) + 1
      ensures entries == old(entries) + [Entry(id, phone, Workday, None, Some(One),
                                                Some(WorkedText(eventDate)), None, eventDate, now)]
      ensures forall i :: 0 <= i < |old(entries)| ==> old(entries)[i].id < id
      ensures users == old(users) && limits == old(limits)
      ensures monthlySalaries == old(monthlySalaries) && watchlist == old(watchlist)
    {
      id := AddEntry(phone, Workday, None, Some(One), Some(WorkedText(eventDate)), eventDate, None, now);
    }

    /** Updates one existing user row; `UPDATE ... WHERE phone = ?` touches nothing when the
        user is unknown. */
    method UpdateUser(phone: string, u: User)
      modifies this
      ensures users == (if phone in old(users) then old(users)[phone := u] else old(users))
      ensures entries == old(entries) && nextId == old(nextId) && limits == old(limits)
      ensures monthlySalaries == old(monthlySalaries) && watchlist == old(watchlist)
    {
      if phone in users {
        users := users[phone := u];
      }
    }

    /** `updateSalary`. */
    method UpdateSalary(phone: string, salary: real, now: Stamp)
      modifies this
      ensures users == (if phone in old(users)
                        then old(users)[phone := old(users)[phone].(lastSalary := salary, lastSalaryDate := Some(now))]
                        else old(users))
      ensures entries == old(entries) && nextId == old(nextId) && limits == old(limits)
      ensures monthlySalaries == old(monthlySalaries) && watchlist == old(watchlist)
    {
      if phone in users {
        UpdateUser(phone, users[phone].(lastSalary := salary, lastSalaryDate := Some(now)));
      }
    }

    /** `setGoal`. */
    method SetGoal(phone: string, value: real)
      modifies this
      ensures users == (if phone in old(users) then old(users)[phone := old(users)[phone].(targetIncome := value)] else old(users))
      ensures entries == old(entries) && nextId == old(nextId) && limits == old(limits)
      ensures monthlySalaries == old(monthlySalaries) && watchlist == old(watchlist)
    {
      if phone in users {
        UpdateUser(phone, users[phone].(targetIncome := value));
      }
    }

    /** `getGoal`: the target income, 0 for an unknown user. */
    function Goal(phone: string): real
      reads this
    {
      GoalOf(users, phone)
    }

    /** `setExpensePercent`. */
    method SetExpensePercent(phone: string, value: real)
      modifies this
      ensures users == (if phone in old(users) then old(users)[phone := old(users)[phone].(maxExpensePercent := value)] else old(users))
      ensures entries == old(entries) && nextId == old(nextId) && limits == old(limits)
      ensures monthlySalaries == old(monthlySalaries) && watchlist == old(watchlist)
    {
      if phone in users {
        UpdateUser(phone, users[phone].(maxExpensePercent := value));
      }
    }

    /** `setExpenseValue`. */
    method SetExpenseValue(phone: string, value: real)
      modifies this
      ensures users == (if phone in old(users) then old(users)[phone := old(users)[phone].(maxExpenseValue := value)] else old(users))
      ensures entries == old(entries) && nextId == old(nextId) && limits == old(limits)
      ensures monthlySalaries == old(monthlySalaries) && watchlist == old(watchlist)
    {
      if phone in users {
        UpdateUser(phone, users[phone].(maxExpenseValue := value));
      }
    }

    /** `getAlertConfig`: the percent and the absolute expense thresholds, 0 when unset. */
    function AlertConfig(phone: string): (real, real)
      reads this
    {
      AlertConfigOf(users, phone)
    }

    /** `setNotifications`: writes both flags. */
    method SetNotifications(phone: string, daily: bool, weekly: bool)
      modifies this
      ensures users == (if phone in old(users) then old(users)[phone := old(users)[phone].(notifyDaily := daily, notifyWeekly := weekly)] else old(users))
      ensures entries == old(entries) && nextId == old(nextId) && limits == old(limits)
      ensures monthlySalaries == old(monthlySalaries) && watchlist == old(watchlist)
    {
      if phone in users {
        UpdateUser(phone, users[phone].(notifyDaily := daily, notifyWeekly := weekly));
      }
    }

    /** `setSheetsId`. */
    method SetSheetsId(phone: string, sheetsId: string)
      modifies this
      ensures users == (if phone in old(users) then old(users)[phone := old(users)[phone].(sheetsId := Some(sheetsId))] else old(users))
      ensures entries == old(entries) && nextId == old(nextId) && limits == old(limits)
      ensures monthlySalaries == old(monthlySalaries) && watchlist == old(watchlist)
    {
      if phone in users {
        UpdateUser(phone, users[phone].(sheetsId := Some(sheetsId)));
      }
    }

    /** `setUserPrefs`: rejects a notify hour outside 0-23 without writing; otherwise writes
        exactly the supplied fields (an empty update writes nothing). */
    method SetUserPrefs(phone: string, p: PrefsUpdate) returns (r: Result<(), string>)
      modifies this
      ensures r.Err? <==> p.notifyHour.Some? && !ValidHour(p.notifyHour.value)
      ensures r.Err? ==> r.error == "notify_hour inválido"
      ensures users == (if r.Ok? && AnyField(p) && phone in old(users)
                        then old(users)[phone := ApplyPrefs(old(users)[phone], p)] else old(users))
      ensures entries == old(entries) && nextId == old(nextId) && limits == old(limits)
      ensures monthlySalaries == old(monthlySalaries) && watchlist == old(watchlist)
    {
      if p.notifyHour.Some? && !ValidHour(p.notifyHour.value) {
        return Err("notify_hour inválido");
      }
      if AnyField(p) && phone in users {
        UpdateUser(phone, ApplyPrefs(users[phone], p));
      }
      r := Ok(());
    }

    /** `getUserPrefs`. */
    function UserPrefs(phone: string): Prefs
      reads this
    {
      PrefsOf(users, phone)
    }

    /** `setMorningBriefPrefs`: rejects an hour outside 0-23 without writing; otherwise
        writes exactly the supplied fields. */
    method SetMorningBriefPrefs(phone: string, enabled: Option<int>, hour: Option<int>) returns (r: Result<(), string>)
      modifies this
      ensures r.Err? <==> hour.Some? && !ValidHour(hour.value)
      ensures r.Err? ==> r.error == "hora inválida"
      ensures users == (if r.Ok? && (enabled.Some? || hour.Some?) && phone in old(users)
                        then old(users)[phone := old(users)[phone].(
                               morningBriefEnabled := enabled.GetOr(old(users)[phone].morningBriefEnabled),
                               morningBriefHour := hour.GetOr(old(users)[phone].morningBriefHour))]
                        else old(users))
      ensures entries == old(entries) && nextId == old(nextId) && limits == old(limits)
      ensures monthlySalaries == old(monthlySalaries) && watchlist == old(watchlist)
    {
      if hour.Some? && !ValidHour(hour.value) {
        return Err("hora inválida");
      }
      if (enabled.Some? || hour.Some?) && phone in users {
        var u := users[phone];
        UpdateUser(phone, u.(morningBriefEnabled := enabled.GetOr(u.morningBriefEnabled),
                             morningBriefHour := hour.GetOr(u.morningBriefHour)));
      }
      r := Ok(());
    }

    /** `getMorningBriefPrefs`. */
    function MorningBriefPrefs(phone: string): BriefPrefs
      reads this
    {
      BriefPrefsOf(users, phone)
    }

    /** `setMonthlySalary`: insert or overwrite the (phone, month) row. */
    method SetMonthlySalary(phone: string, month: Month, amount: real)
      modifies this
      ensures monthlySalaries == old(monthlySalaries)[(phone, month) := amount]
      ensures MonthlySalary(phone, month) == amount
      ensures entries == old(entries) && nextId == old(nextId) && users == old(users)
      ensures limits == old(limits) && watchlist == old(watchlist)
    {
      monthlySalaries := monthlySalaries[(phone, month) := amount];
    }

    /** `getMonthlySalary`: 0 when no row exists. */
    function MonthlySalary(phone: string, month: Month): real
      reads this
    {
      if (phone, month) in monthlySalaries then monthlySalaries[(phone, month)] else 0.0
    }

    /** `setCategoryLimit` (`INSERT OR REPLACE`): the latest write wins, other limits stay. */
    method SetCategoryLimit(phone: string, category: string, value: real)
      modifies this
      ensures limits == old(limits)[(phone, category) := value]
      ensures CategoryLimit(phone, category) == Some(value)
      ensures forall p, c :: (p, c) != (phone, category) ==> CategoryLimit(p, c) == old(CategoryLimit(p, c))
      ensures entries == old(entries) && nextId == old(nextId) && users == old(users)
      ensures monthlySalaries == old(monthlySalaries) && watchlist == old(watchlist)
    {
      limits := limits[(phone, category) := value];
    }

    /** `getCategoryLimit`: `None` when no limit is set. */
    function CategoryLimit(phone: string, category: string): Option<real>
      reads this
    {
      CategoryLimitOf(limits, phone, category)
    }

    /** `getAllCategoryLimits`. */
    function AllCategoryLimits(phone: string): seq<(string, real)>
      reads this
    {
      LimitsOf(limits, phone)
    }

    /** `addCryptoSymbol` (`INSERT OR IGNORE`): the upper-cased symbol joins the set. */
    method AddCryptoSymbol(phone: string, symbol: string)
      modifies this
      ensures watchlist == old(watchlist) + {(phone, Upper(symbol))}
      ensures entries == old(entries) && nextId == old(nextId) && users == old(users)
      ensures limits == old(limits) && monthlySalaries == old(monthlySalaries)
    {
      watchlist := watchlist + {(phone, Upper(symbol))};
    }

    /** `removeCryptoSymbol`: deletes only that upper-cased symbol of that user. */
    method RemoveCryptoSymbol(phone: string, symbol: string)
      modifies this
      ensures watchlist == old(watchlist) - {(phone, Upper(symbol))}
      ensures entries == old(entries) && nextId == old(nextId) && users == old(users)
      ensures limits == old(limits) && monthlySalaries == old(monthlySalaries)
    {
      watchlist := watchlist - {(phone, Upper(symbol))};
    }

    /** `getCryptoWatchlist`: the user's symbols in ascending order, each once. */
    function CryptoWatchlist(phone: string): (r: seq<string>)
      reads this
      ensures forall s :: s in r <==> (phone, s) in watchlist
      ensures forall i, j :: 0 <= i < j < |r| ==> LexLeq(r[i], r[j]) && r[i] != r[j]
    {
      WatchlistOf(watchlist, phone)
    }
  }

  // ---------------------------------------------------------------------------------------
  // The store's queries, on the tables they read

  function GoalOf(users: map<string, User>, phone: string): real {
    if phone in users then users[phone].targetIncome else 0.0
  }

  function AlertConfigOf(users: map<string, User>, phone: string): (real, real) {
    if phone in users then (users[phone].maxExpensePercent, users[phone].maxExpenseValue) else (0.0, 0.0)
  }

  function PrefsOf(users: map<string, User>, phone: string): Prefs {
    if phone in users
    then Prefs(users[phone].language, users[phone].timezone, users[phone].notifyHour, users[phone].insightEnabled)
    else Prefs("pt", "America/Sao_Paulo", 8, 1)
  }

  function BriefPrefsOf(users: map<string, User>, phone: string): BriefPrefs {
    if phone in users then BriefPrefs(users[phone].morningBriefEnabled, users[phone].morningBriefHour)
    else BriefPrefs(0, 8)
  }

  function CategoryLimitOf(limits: map<(string, string), real>, phone: string, category: string): Option<real> {
    if (phone, category) in limits then Some(limits[(phone, category)]) else None
  }

  /** The symbols of `phone`, in ascending order, each once. */
  function WatchlistOf(watchlist: set<(string, string)>, phone: string): (r: seq<string>)
    ensures forall s :: s in r <==> (phone, s) in watchlist
    ensures forall i, j :: 0 <= i < j < |r| ==> LexLeq(r[i], r[j]) && r[i] != r[j]
  {
    SortedSet(set k | k in watchlist && k.0 == phone :: k.1)
  }

  /** `getAllCategoryLimits`: the (category, limit) pairs of `phone`, ordered by category,
      each category once. */
  function LimitsOf(limits: map<(string, string), real>, phone: string): (r: seq<(string, real)>)
    ensures forall i :: 0 <= i < |r| ==> (phone, r[i].0) in limits && limits[(phone, r[i].0)] == r[i].1
    ensures forall c :: (phone, c) in limits ==> exists i :: 0 <= i < |r| && r[i].0 == c
    ensures forall i, j :: 0 <= i < j < |r| ==> LexLeq(r[i].0, r[j].0) && r[i].0 != r[j].0
  {
    var cats := SortedSet(CategoriesOf(limits, phone));
    var r := Paired(cats, limits, phone);
    PairedCovers(cats, limits, phone, r);
    r
  }

  /** The categories with a limit for `phone`. */
  function CategoriesOf(limits: map<(string, string), real>, phone: string): (s: set<string>)
    ensures forall c :: c in s <==> (phone, c) in limits
  {
    set k | k in limits && k.0 == phone :: k.1
  }

  lemma PairedCovers(cats: seq<string>, limits: map<(string, string), real>, phone: string, r: seq<(string, real)>)
    requires |r| == |cats|
    requires forall i :: 0 <= i < |r| ==> r[i].0 == cats[i]
    requires forall c :: (phone, c) in limits ==> c in cats
    ensures forall c :: (phone, c) in limits ==> exists i :: 0 <= i < |r| && r[i].0 == c
  {
    forall c | (phone, c) in limits ensures exists i :: 0 <= i < |r| && r[i].0 == c {
      var i :| 0 <= i < |cats| && cats[i] == c;
      assert r[i].0 == c;
    }
  }

  function Paired(cats: seq<string>, limits: map<(string, string), real>, phone: string): (r: seq<(string, real)>)
    requires forall i :: 0 <= i < |cats| ==> (phone, cats[i]) in limits
    ensures |r| == |cats|
    ensures forall i :: 0 <= i < |r| ==> r[i].0 == cats[i] && r[i].1 == limits[(phone, cats[i])]
  {
    if cats == [] then [] else [(cats[0], limits[(phone, cats[0])])] + Paired(cats[1..], limits, phone)
  }

  /** The description `addWorkedDay` stores (`Dia trabalhado <date>`, trimmed). */
  function WorkedText(eventDate: Option<Date>): string {
    if eventDate.Some? && ValidDate(eventDate.value) then "Dia trabalhado " + FormatDate(eventDate.value)
    else "Dia trabalhado"
  }

  /** Adding a symbol twice is the same as adding it once, and removing it after adding it
      leaves no trace of it. */
  lemma WatchlistIsASet(w: set<(string, string)>, phone: string, symbol: string)
    ensures w + {(phone, Upper(symbol))} + {(phone, Upper(symbol))} == w + {(phone, Upper(symbol))}
    ensures (phone, Upper(symbol)) !in w + {(phone, Upper(symbol))} - {(phone, Upper(symbol))}
  {
  }
}
