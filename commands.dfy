/** The `!command` dispatcher and its handlers. Each handler validates its arguments before
    touching the store (a rejected command leaves the store exactly as it was), then runs
    the store operations of the source in order and returns the reply as a value. The
    clock is two parameters: `now`, the creation stamp SQLite writes, and `today`, the local
    date `moment()` gives. */
module Commands {
  import opened Wrappers
  import opened Text
  import opened Dates
  import opened Numbers
  import opened Ledger
  import opened Reports
  import Analytics
  import Nlu

  // ---------------------------------------------------------------------------------------
  // Replies

  /** The fixed `⚠️` replies of rejected commands. */
  datatype Warning =
    | SalaryUsage | ExpenseUsage | OvertimeUsage | BadDate | LeaveUsage | WorkedUsage
    | MonthlyReportUsage | MonthlySalaryUsage | BadMonth | BadValue | GoalUsage
    | AlertUsage | BadAlertKind | NotifyUsage | BadNotifyKind | CategoryLimitUsage
    | HistoryUsage | BadMonths | SheetsUsage | LanguageUsage | BadLanguage
    | NotifyHourUsage | BadNotifyHour | InsightUsage | BadInsightFlag
    | BriefingUsage | BriefingHourUsage | BadBriefingHour
    | AddCryptoUsage | BadSymbol | RemoveCryptoUsage

  function WarningText(w: Warning): string {
    match w
    case SalaryUsage => "⚠️ Use: !salario VALOR (ex: !salario 4500)"
    case ExpenseUsage => "⚠️ Use: !gasto VALOR DESCRIÇÃO [#categoria]"
    case OvertimeUsage => "⚠️ Use: !horaextra HORAS [AAAA-MM-DD]"
    case BadDate => "⚠️ Data inválida. Formato AAAA-MM-DD."
    case LeaveUsage => "⚠️ Use: !folga [AAAA-MM-DD]"
    case WorkedUsage => "⚠️ Use: !trabalhei [AAAA-MM-DD]"
    case MonthlyReportUsage => "⚠️ Use: !relatoriomes AAAA-MM"
    case MonthlySalaryUsage => "⚠️ Use: !salario_mes AAAA-MM VALOR"
    case BadMonth => "⚠️ Mês inválido. Formato AAAA-MM"
    case BadValue => "⚠️ Valor inválido."
    case GoalUsage => "⚠️ Use: !meta VALOR (ex: !meta 6000)"
    case AlertUsage => "⚠️ Use: !alerta pct VALOR | !alerta valor VALOR"
    case BadAlertKind => "⚠️ Tipo inválido. Use pct ou valor."
    case NotifyUsage => "⚠️ Use: !notificar diaria|semanal sim|nao"
    case BadNotifyKind => "⚠️ Tipo inválido. Use diaria ou semanal."
    case CategoryLimitUsage => "⚠️ Use: !limite_categoria CATEGORIA VALOR"
    case HistoryUsage => "⚠️ Use: !historico AAAA-MM AAAA-MM"
    case BadMonths => "⚠️ Datas inválidas. Formato AAAA-MM."
    case SheetsUsage => "⚠️ Use: !exportar_sheets SHEETS_ID"
    case LanguageUsage => "⚠️ Use: !idioma pt|en"
    case BadLanguage => "⚠️ Idioma inválido. Use pt ou en."
    case NotifyHourUsage => "⚠️ Use: !hora_notificar HORA(0-23)"
    case BadNotifyHour => "⚠️ Hora inválida. Use 0-23."
    case InsightUsage => "⚠️ Use: !insight sim|nao"
    case BadInsightFlag => "⚠️ Valor inválido. Use sim ou nao."
    case BriefingUsage => "⚠️ Use: !briefing sim|nao"
    case BriefingHourUsage => "⚠️ Use: !briefing_hora HORA"
    case BadBriefingHour => "⚠️ Hora inválida."
    case AddCryptoUsage => "⚠️ Use: !addcripto SYMBOL"
    case BadSymbol => "⚠️ Símbolo inválido."
    case RemoveCryptoUsage => "⚠️ Use: !rmcripto SYMBOL"
  }

  /** The fixed replies for an empty result. */
  datatype Notice = NothingToExport | NoLimits | NoCategorisedExpenses | NoHistory | NoCrypto

  function NoticeText(n: Notice): string {
    match n
    case NothingToExport => "📂 Nada para exportar ainda."
    case NoLimits => "📂 Nenhum limite de categoria definido ainda."
    case NoCategorisedExpenses => "📂 Nenhum gasto com categoria registrado ainda."
    case NoHistory => "📂 Nenhum dado histórico encontrado para o período."
    case NoCrypto => "🪙 Nenhuma cripto na sua lista. Use !addcripto BTC"
  }

  const UnrecognizedText := "❓ Comando não reconhecido. Use !ajuda"

  /** Which `users` flag `!notificar` and `!alerta` address. */
  datatype Schedule = Daily | Weekly
  datatype Threshold = PercentOfSalary | AbsoluteValue

  /** What a handler answers, with the values it puts into its text. */
  datatype Reply =
    | Warn(warning: Warning)
    | Empty(notice: Notice)
    | Unrecognized
    | SalarySaved(mood: Mood, salary: real)
    | ExpenseSaved(expense: real, description: string, category: Option<string>, alerts: seq<Alert>)
    | OvertimeSaved(hours: real, onDate: Option<string>)
    | LeaveSaved(date: string)
    | WorkedSaved(date: string, bank: Bank)
    | LeaveBankReply(bank: Bank)
    | ReportReply(totals: Totals, overtimeValue: real, net: real, verdict: Verdict)
    | MonthlyReportReply(month: Month, totals: Totals, net: real, goal: GoalStatus, bank: Bank)
    | MonthlySalarySaved(month: Month, salary: real)
    | GoalSaved(target: real)
    | ThresholdSaved(threshold: Threshold, limit: real)
    | NotificationsSaved(schedule: Schedule, enabled: bool)
    | CategoryLimitSaved(limitCategory: string, limit: real)
    | LimitsReply(limits: seq<(string, real)>)
    | BreakdownReply(slices: seq<Analytics.Slice>, total: real)
    | ForecastReply(forecast: Analytics.Forecast)
    | ForecastFailed(error: string)
    | HistoryReply(points: seq<Analytics.Point>)
    | SheetsExported(sheetsId: string)
    | SheetsFailed(message: string)
    | LanguageSaved(language: string)
    | PrefsReply(prefs: Prefs, brief: BriefPrefs, watchlist: seq<string>)
    | NotifyHourSaved(hour: int)
    | InsightSaved(enabled: bool)
    | BriefingSaved(enabled: bool)
    | BriefingHourSaved(hour: int)
    | CryptoAdded(symbol: string)
    | CryptoRemoved(symbol: string)
    | CryptoList(symbols: seq<string>)
    | CsvFile(csv: string)
    | PdfReport(totals: Totals, overtimeValue: real, net: real, goal: GoalStatus, rows: seq<Entry>)
    | MenuReply(buttons: seq<(string, string)>)
    | HelpReply

  /** The buttons of `!menu`: label and the command each one sends. */
  const MenuButtons: seq<(string, string)> := [
    ("Saldo / Relatório", "!relatorio"), ("Registrar Salário", "!ajuda salario"),
    ("Registrar Gasto", "!ajuda gasto"), ("Horas Extra", "!horaextra 1"), ("Meta", "!meta 5000"),
    ("Categorias", "!categorias"), ("Previsão", "!previsao"), ("Exportar CSV", "!exportcsv")]

  // ---------------------------------------------------------------------------------------
  // Argument checks

  /** `parseFloat(parts[i])` when it is a number above zero; a missing part reads as
      `undefined`, which is not a number. */
  function PositiveArg(parts: seq<string>, i: nat): (r: Option<Decimal>)
    ensures r.Some? <==> i < |parts| && ParseFloat(parts[i]).Some? && Value(ParseFloat(parts[i]).value) > 0.0
    ensures r.Some? ==> r.value == ParseFloat(parts[i]).value && !r.value.negative && r.value.mantissa > 0
  {
    if i < |parts| && ParseFloat(parts[i]).Some? && Value(ParseFloat(parts[i]).value) > 0.0
    then
      ValueSign(ParseFloat(parts[i]).value);
      ParseFloat(parts[i])
    else None
  }

  /** `parseInt(parts[i], 10)` when it is an hour of the day. */
  function HourArg(parts: seq<string>, i: nat): (r: Option<int>)
    ensures r.Some? <==> i < |parts| && ParseInt(parts[i]).Some? && ValidHour(ParseInt(parts[i]).value)
    ensures r.Some? ==> r.value == ParseInt(parts[i]).value && 0 <= r.value <= 23
  {
    if i < |parts| && ParseInt(parts[i]).Some? && ValidHour(ParseInt(parts[i]).value) then ParseInt(parts[i]) else None
  }

  /** A date argument as the handlers see it: absent, a strict `YYYY-MM-DD` date with its
      text, or text that is not one. */
  datatype DateArg = NoDate | GoodDate(text: string, date: Date) | BadDateText

  function ClassifyDate(text: string): (a: DateArg)
    ensures a != NoDate
    ensures a.GoodDate? ==> a.text == text && ValidDate(a.date) && FormatDate(a.date) == text
  {
    match ParseStrictDate(text)
    case Some(d) =>
      ParseThenFormatDate(text);
      GoodDate(text, d)
    case None => BadDateText
  }

  /** `parts[i]` as an optional date (`dateStr && !valid` rejects). */
  function OptionalDate(parts: seq<string>, i: nat): (a: DateArg)
    ensures a.NoDate? <==> i >= |parts| || parts[i] == []
    ensures a.GoodDate? ==> a.text == parts[i] && ValidDate(a.date) && FormatDate(a.date) == a.text
  {
    if i >= |parts| || parts[i] == [] then NoDate else ClassifyDate(parts[i])
  }

  /** `parts[i] || today`: a missing date is today's. */
  function DateOrToday(parts: seq<string>, i: nat, today: Date): (a: DateArg)
    requires ValidDate(today)
    ensures a != NoDate
    ensures a.GoodDate? ==> ValidDate(a.date) && FormatDate(a.date) == a.text
    ensures (i >= |parts| || parts[i] == []) ==> a == GoodDate(FormatDate(today), today)
  {
    if i >= |parts| || parts[i] == [] then
      FormatThenParseDate(today);
      ClassifyDate(FormatDate(today))
    else ClassifyDate(parts[i])
  }

  /** `parts[i]` as a strict `YYYY-MM` month. */
  function MonthArg(parts: seq<string>, i: nat): (r: Option<Month>)
    ensures r.Some? <==> i < |parts| && ParseStrictMonth(parts[i]).Some?
    ensures r.Some? ==> ValidMonth(r.value) && FormatMonth(r.value) == parts[i]
  {
    if i < |parts| && ParseStrictMonth(parts[i]).Some? then
      ParseThenFormatMonth(parts[i]);
      ParseStrictMonth(parts[i])
    else None
  }

  /** `/^[A-Z0-9]{2,10}$/`. */
  predicate CryptoSymbol(s: string) {
    2 <= |s| <= 10 && forall i :: 0 <= i < |s| ==> IsUpperAscii(s[i]) || IsDigit(s[i])
  }

  /** The lower-cased argument is `sim` or `nao`; `Some(true)` for `sim`. */
  function YesNoArg(parts: seq<string>, i: nat): (r: Option<bool>)
    ensures r.Some? <==> i < |parts| && (Lower(parts[i]) == "sim" || Lower(parts[i]) == "nao")
    ensures r.Some? ==> (r.value <==> Lower(parts[i]) == "sim")
  {
    if i < |parts| && Lower(parts[i]) == "sim" then Some(true)
    else if i < |parts| && Lower(parts[i]) == "nao" then Some(false)
    else None
  }

  /** `${hours}` in `Horas extras em ...`. */
  function OvertimeText(date: DateArg): string {
    if date.GoodDate? then "Horas extras em " + date.text else "Horas extras"
  }

  // ---------------------------------------------------------------------------------------
  // The store as one value

  datatype Db = Db(entries: seq<Entry>, nextId: nat, users: map<string, User>,
                   limits: map<(string, string), real>, monthlySalaries: map<(string, Month), real>,
                   watchlist: set<(string, string)>)

  function DbOf(s: Store): Db
    reads s
  {
    Db(s.entries, s.nextId, s.users, s.limits, s.monthlySalaries, s.watchlist)
  }

  /** The store after `ensureUser(phone)` only. */
  function Ensured(d: Db, phone: string): Db {
    d.(users := WithUser(d.users, phone))
  }

  /** The store after `ensureUser(phone)` and one appended row with the next id. */
  function Appended(d: Db, phone: string, kind: Kind, amount: Option<Decimal>, hours: Option<Decimal>,
                    description: string, eventDate: Option<Date>, category: Option<string>, now: Stamp): Db {
    d.(users := WithUser(d.users, phone),
       entries := d.entries + [Entry(d.nextId, phone, kind, amount, hours, Some(description), category, eventDate, now)],
       nextId := d.nextId + 1)
  }

  /** The store after `ensureUser(phone)` and a change `f` of that user's row. */
  function UserChanged(d: Db, phone: string, u: User): Db {
    d.(users := WithUser(d.users, phone)[phone := u])
  }

  /** The user's row once it is ensured. */
  function UserOf(d: Db, phone: string): User {
    WithUser(d.users, phone)[phone]
  }

  // ---------------------------------------------------------------------------------------
  // Handlers

  /** What `handleSalary` leaves behind: the new store, given the store `before`, and the reply. */
  predicate SalaryEffect(phone: string, parts: seq<string>, now: Stamp, before: Db, after: Db, r: Reply)
  {
    && (PositiveArg(parts, 1).None? ==> r == Warn(SalaryUsage) && after == before)
    && (PositiveArg(parts, 1).Some? ==>
      var v := PositiveArg(parts, 1);
      var d := Appended(before, phone, Salary, v, None, "Salário registrado", None, None, now);
      && after == UserChanged(d, phone, UserOf(d, phone).(lastSalary := Value(v.value), lastSalaryDate := Some(now)))
      && r == SalarySaved(MoodOf(LastTwo(RecentSalaries(after.entries, phone))), Value(v.value)))
  }

  /** `handleSalary`: a positive value is stored as a salary row and as the user's last
      salary; the mood compares the two latest salary rows. */
  method HandleSalary(s: Store, phone: string, parts: seq<string>, now: Stamp) returns (r: Reply)
    requires s.Valid() && ValidStamp(now)
    modifies s
    ensures s.Valid() && !r.Unrecognized?
    ensures RepliesAs(Shared(Nlu.Salario), r)
    ensures SalaryEffect(phone, parts, now, old(DbOf(s)), DbOf(s), r)
  {
    var v := PositiveArg(parts, 1);
    if v.None? {
      return Warn(SalaryUsage);
    }
    var _ := s.EnsureUser(phone);
    var _ := s.AddEntry(phone, Salary, v, None, Some("Salário registrado"), None, None, now);
    s.UpdateSalary(phone, Value(v.value), now);
    r := SalarySaved(MoodOf(LastTwo(RecentSalaries(s.entries, phone))), Value(v.value));
  }

  /** What `handleExpense` leaves behind: the new store, given the store `before`, and the reply. */
  predicate ExpenseEffect(phone: string, parts: seq<string>, now: Stamp, today: Date, before: Db,
                          after: Db, r: Reply)
  {
    && (PositiveArg(parts, 1).None? ==> r == Warn(ExpenseUsage) && after == before)
    && (PositiveArg(parts, 1).Some? ==>
      var v := PositiveArg(parts, 1);
      var (description, category) := ExpenseParts(parts);
      && after == Appended(before, phone, Expense, v, None, description, None, category, now)
      && r.ExpenseSaved? && r.expense == Value(v.value)
      && r.description == description && r.category == category
      && r.alerts == ExpenseAlerts(TotalsOf(after.entries, phone, Everything),
                                   AlertConfigOf(after.users, phone), category,
                                   if category.Some? && category.value != []
                                   then CategoryLimitOf(after.limits, phone, category.value)
                                   else None,
                                   Entries(after.entries, phone), MonthOf(today)))
  }

  /** `handleExpense`: stores the expense with the description and category split from the
      words, then evaluates the alerts against the totals after the write. */
  method HandleExpense(s: Store, phone: string, parts: seq<string>, now: Stamp, today: Date) returns (r: Reply)
    requires s.Valid() && ValidStamp(now) && ValidDate(today)
    modifies s
    ensures s.Valid() && !r.Unrecognized?
    ensures RepliesAs(Shared(Nlu.Gasto), r)
    ensures ExpenseEffect(phone, parts, now, today, old(DbOf(s)), DbOf(s), r)
  {
    var v := PositiveArg(parts, 1);
    if v.None? {
      return Warn(ExpenseUsage);
    }
    var (description, category) := ExpenseParts(parts);
    var _ := s.EnsureUser(phone);
    var _ := s.AddEntry(phone, Expense, v, None, Some(description), None, category, now);
    var totals := TotalsOf(s.entries, phone, Everything);
    var config := s.AlertConfig(phone);
    var limit := if category.Some? && category.value != [] then s.CategoryLimit(phone, category.value) else None;
    var rows := Entries(s.entries, phone);
    var alerts := ExpenseAlerts(totals, config, category, limit, rows, MonthOf(today));
    ghost var after := DbOf(s);
    assert after == Appended(old(DbOf(s)), phone, Expense, v, None, description, None, category, now);
    assert config == AlertConfigOf(after.users, phone) && rows == Entries(after.entries, phone);
    assert limit == if category.Some? && category.value != []
                    then CategoryLimitOf(after.limits, phone, category.value) else None;
    r := ExpenseSaved(Value(v.value), description, category, alerts);
  }

  /** What `handleOvertime` leaves behind: the new store, given the store `before`, and the reply. */
  predicate OvertimeEffect(phone: string, parts: seq<string>, now: Stamp, before: Db, after: Db, r: Reply)
  {
    && (PositiveArg(parts, 1).None? ==> r == Warn(OvertimeUsage) && after == before)
    && (PositiveArg(parts, 1).Some? && OptionalDate(parts, 2).BadDateText? ==>
      r == Warn(BadDate) && after == before)
    && (PositiveArg(parts, 1).Some? && !OptionalDate(parts, 2).BadDateText? ==>
      var h := PositiveArg(parts, 1);
      var a := OptionalDate(parts, 2);
      && after == Appended(before, phone, Overtime, None, h, OvertimeText(a),
                             if a.GoodDate? then Some(a.date) else None, None, now)
      && r == OvertimeSaved(Value(h.value), if a.GoodDate? then Some(a.text) else None))
  }

  /** `handleOvertime`: positive hours, and an optional date that must be strict. */
  method HandleOvertime(s: Store, phone: string, parts: seq<string>, now: Stamp) returns (r: Reply)
    requires s.Valid() && ValidStamp(now)
    modifies s
    ensures s.Valid() && !r.Unrecognized?
    ensures RepliesAs(Shared(Nlu.HoraExtra), r)
    ensures OvertimeEffect(phone, parts, now, old(DbOf(s)), DbOf(s), r)
  {
    var h := PositiveArg(parts, 1);
    if h.None? {
      return Warn(OvertimeUsage);
    }
    var a := OptionalDate(parts, 2);
    if a.BadDateText? {
      return Warn(BadDate);
    }
    var date := if a.GoodDate? then Some(a.date) else None;
    var _ := s.EnsureUser(phone);
    var _ := s.AddEntry(phone, Overtime, None, h, Some(OvertimeText(a)), date, None, now);
    r := OvertimeSaved(Value(h.value), if a.GoodDate? then Some(a.text) else None);
  }

  /** What `handleLeave` leaves behind: the new store, given the store `before`, and the reply. */
  predicate LeaveEffect(phone: string, parts: seq<string>, now: Stamp, today: Date, before: Db,
                        after: Db, r: Reply)
  {
    && ValidDate(today)
    && (DateOrToday(parts, 1, today).BadDateText? ==> r == Warn(LeaveUsage) && after == before)
    && (DateOrToday(parts, 1, today).GoodDate? ==>
      var a := DateOrToday(parts, 1, today);
      && after == Appended(before, phone, Leave, None, Some(One), "Folga em " + a.text, Some(a.date), None, now)
      && r == LeaveSaved(a.text))
  }

  /** `handleLeave`: one hour of leave on the given date, today when none is given. */
  method HandleLeave(s: Store, phone: string, parts: seq<string>, now: Stamp, today: Date) returns (r: Reply)
    requires s.Valid() && ValidStamp(now) && ValidDate(today)
    modifies s
    ensures s.Valid() && !r.Unrecognized?
    ensures RepliesAs(Shared(Nlu.Folga), r)
    ensures LeaveEffect(phone, parts, now, today, old(DbOf(s)), DbOf(s), r)
  {
    var a := DateOrToday(parts, 1, today);
    if !a.GoodDate? {
      return Warn(LeaveUsage);
    }
    var _ := s.EnsureUser(phone);
    var _ := s.AddEntry(phone, Leave, None, Some(One), Some("Folga em " + a.text), Some(a.date), None, now);
    r := LeaveSaved(a.text);
  }

  /** What `handleWorked` leaves behind: the new store, given the store `before`, and the reply. */
  predicate WorkedEffect(phone: string, parts: seq<string>, now: Stamp, today: Date, before: Db,
                         after: Db, r: Reply)
  {
    && ValidDate(today)
    && (DateOrToday(parts, 1, today).BadDateText? ==> r == Warn(WorkedUsage) && after == before)
    && (DateOrToday(parts, 1, today).GoodDate? ==>
      var a := DateOrToday(parts, 1, today);
      && after == Appended(before, phone, Workday, None, Some(One), "Dia trabalhado " + a.text, Some(a.date), None, now)
      && r == WorkedSaved(a.text, LeaveBankOf(after.entries, phone)))
  }

  /** `handleWorked`: a worked day on the given date (today by default), answered with the
      leave bank after the write. */
  method HandleWorked(s: Store, phone: string, parts: seq<string>, now: Stamp, today: Date) returns (r: Reply)
    requires s.Valid() && ValidStamp(now) && ValidDate(today)
    modifies s
    ensures s.Valid() && !r.Unrecognized?
    ensures RepliesAs(Shared(Nlu.Trabalhei), r)
    ensures WorkedEffect(phone, parts, now, today, old(DbOf(s)), DbOf(s), r)
  {
    var a := DateOrToday(parts, 1, today);
    if !a.GoodDate? {
      return Warn(WorkedUsage);
    }
    var _ := s.EnsureUser(phone);
    var _ := s.AddWorkedDay(phone, Some(a.date), now);
    r := WorkedSaved(a.text, LeaveBankOf(s.entries, phone));
  }

  /** What `handleLeaveBank` leaves behind: the new store, given the store `before`, and the reply. */
  predicate LeaveBankEffect(phone: string, before: Db, after: Db, r: Reply)
  {
    && (after == Ensured(before, phone))
    && (r == LeaveBankReply(LeaveBankOf(after.entries, phone)))
  }

  /** `handleLeaveBank`. */
  method HandleLeaveBank(s: Store, phone: string) returns (r: Reply)
    requires s.Valid()
    modifies s
    ensures s.Valid() && !r.Unrecognized?
    ensures RepliesAs(Shared(Nlu.BancoFolgas), r)
    ensures LeaveBankEffect(phone, old(DbOf(s)), DbOf(s), r)
  {
    var _ := s.EnsureUser(phone);
    r := LeaveBankReply(LeaveBankOf(s.entries, phone));
  }

  /** What `handleReport` leaves behind: the new store, given the store `before`, and the reply. */
  predicate ReportEffect(phone: string, before: Db, after: Db, r: Reply)
  {
    && (after == Ensured(before, phone))
    && (var t := TotalsOf(after.entries, phone, Everything);
            r == ReportReply(t, OvertimeValue(t), Net(t), VerdictOf(Net(t), t.salary)))
  }

  /** `handleReport`: all-time totals, the priced overtime, the net balance and its verdict. */
  method HandleReport(s: Store, phone: string) returns (r: Reply)
    requires s.Valid()
    modifies s
    ensures s.Valid() && !r.Unrecognized?
    ensures RepliesAs(Shared(Nlu.Relatorio), r)
    ensures ReportEffect(phone, old(DbOf(s)), DbOf(s), r)
  {
    var _ := s.EnsureUser(phone);
    var t := TotalsOf(s.entries, phone, Everything);
    r := ReportReply(t, OvertimeValue(t), Net(t), VerdictOf(Net(t), t.salary));
  }

  /** What `handleMonthlyReport` leaves behind: the new store, given the store `before`, and the reply. */
  predicate MonthlyReportEffect(phone: string, parts: seq<string>, before: Db, after: Db, r: Reply)
  {
    && (MonthArg(parts, 1).None? ==> r == Warn(MonthlyReportUsage) && after == before)
    && (MonthArg(parts, 1).Some? ==>
      var m := MonthArg(parts, 1).value;
      var t := TotalsOf(after.entries, phone, During(m));
      && after == Ensured(before, phone)
      && r == MonthlyReportReply(m, t, Net(t), GoalStatusOf(GoalOf(after.users, phone), Net(t)), MonthBank(after.entries, phone, m)))
  }

  /** `handleMonthlyReport`: the month's totals, net balance, goal status and leave bank. */
  method HandleMonthlyReport(s: Store, phone: string, parts: seq<string>) returns (r: Reply)
    requires s.Valid()
    modifies s
    ensures s.Valid() && !r.Unrecognized?
    ensures RepliesAs(Shared(Nlu.RelatorioMes), r)
    ensures MonthlyReportEffect(phone, parts, old(DbOf(s)), DbOf(s), r)
  {
    var month := MonthArg(parts, 1);
    if month.None? {
      return Warn(MonthlyReportUsage);
    }
    var m := month.value;
    var _ := s.EnsureUser(phone);
    var t := TotalsOf(s.entries, phone, During(m));
    r := MonthlyReportReply(m, t, Net(t), GoalStatusOf(s.Goal(phone), Net(t)), MonthBank(s.entries, phone, m));
  }

  /** What `handleMonthlySalary` leaves behind: the new store, given the store `before`, and the reply. */
  predicate MonthlySalaryEffect(phone: string, parts: seq<string>, before: Db, after: Db, r: Reply)
  {
    && (|parts| < 3 ==> r == Warn(MonthlySalaryUsage) && after == before)
    && (|parts| >= 3 && MonthArg(parts, 1).None? ==> r == Warn(BadMonth) && after == before)
    && (|parts| >= 3 && MonthArg(parts, 1).Some? && PositiveArg(parts, 2).None? ==>
      r == Warn(BadValue) && after == before)
    && (|parts| >= 3 && MonthArg(parts, 1).Some? && PositiveArg(parts, 2).Some? ==>
      var m := MonthArg(parts, 1).value;
      var v := Value(PositiveArg(parts, 2).value);
      && after == Ensured(before, phone).(monthlySalaries := before.monthlySalaries[(phone, m) := v])
      && r == MonthlySalarySaved(m, v))
  }

  /** `handleMonthlySalary`: three words, then a strict month, then a positive value. */
  method HandleMonthlySalary(s: Store, phone: string, parts: seq<string>) returns (r: Reply)
    requires s.Valid()
    modifies s
    ensures s.Valid() && !r.Unrecognized?
    ensures RepliesAs(SalarioMes, r)
    ensures MonthlySalaryEffect(phone, parts, old(DbOf(s)), DbOf(s), r)
  {
    if |parts| < 3 {
      return Warn(MonthlySalaryUsage);
    }
    var month := MonthArg(parts, 1);
    if month.None? {
      return Warn(BadMonth);
    }
    var v := PositiveArg(parts, 2);
    if v.None? {
      return Warn(BadValue);
    }
    var _ := s.EnsureUser(phone);
    s.SetMonthlySalary(phone, month.value, Value(v.value));
    r := MonthlySalarySaved(month.value, Value(v.value));
  }

  /** What `handleSetGoal` leaves behind: the new store, given the store `before`, and the reply. */
  predicate SetGoalEffect(phone: string, parts: seq<string>, before: Db, after: Db, r: Reply)
  {
    && (PositiveArg(parts, 1).None? ==> r == Warn(GoalUsage) && after == before)
    && (PositiveArg(parts, 1).Some? ==>
      var v := Value(PositiveArg(parts, 1).value);
      var d := Ensured(before, phone);
      && after == UserChanged(d, phone, UserOf(d, phone).(targetIncome := v))
      && r == GoalSaved(v))
  }

  /** `handleSetGoal`. */
  method HandleSetGoal(s: Store, phone: string, parts: seq<string>) returns (r: Reply)
    requires s.Valid()
    modifies s
    ensures s.Valid() && !r.Unrecognized?
    ensures RepliesAs(Shared(Nlu.Meta), r)
    ensures SetGoalEffect(phone, parts, old(DbOf(s)), DbOf(s), r)
  {
    var v := PositiveArg(parts, 1);
    if v.None? {
      return Warn(GoalUsage);
    }
    var _ := s.EnsureUser(phone);
    s.SetGoal(phone, Value(v.value));
    r := GoalSaved(Value(v.value));
  }

  /** What `handleAlertConfig` leaves behind: the new store, given the store `before`, and the reply. */
  predicate AlertConfigEffect(phone: string, parts: seq<string>, before: Db, after: Db, r: Reply)
  {
    && (|parts| < 3 ==> r == Warn(AlertUsage) && after == before)
    && (|parts| >= 3 && PositiveArg(parts, 2).None? ==> r == Warn(BadValue) && after == before)
    && (|parts| >= 3 && PositiveArg(parts, 2).Some? ==>
      var v := Value(PositiveArg(parts, 2).value);
      var d := Ensured(before, phone);
      && (parts[1] == "pct" ==>
            after == UserChanged(d, phone, UserOf(d, phone).(maxExpensePercent := v)) && r == ThresholdSaved(PercentOfSalary, v))
      && (parts[1] == "valor" ==>
            after == UserChanged(d, phone, UserOf(d, phone).(maxExpenseValue := v)) && r == ThresholdSaved(AbsoluteValue, v))
      && (parts[1] != "pct" && parts[1] != "valor" ==> after == d && r == Warn(BadAlertKind)))
  }

  /** `handleAlertConfig`: `pct` sets the percent threshold, `valor` the absolute one; any
      other kind is rejected after the user row is ensured. */
  method HandleAlertConfig(s: Store, phone: string, parts: seq<string>) returns (r: Reply)
    requires s.Valid()
    modifies s
    ensures s.Valid() && !r.Unrecognized?
    ensures RepliesAs(Alerta, r)
    ensures AlertConfigEffect(phone, parts, old(DbOf(s)), DbOf(s), r)
  {
    if |parts| < 3 {
      return Warn(AlertUsage);
    }
    var v := PositiveArg(parts, 2);
    if v.None? {
      return Warn(BadValue);
    }
    var _ := s.EnsureUser(phone);
    if parts[1] == "pct" {
      s.SetExpensePercent(phone, Value(v.value));
      return ThresholdSaved(PercentOfSalary, Value(v.value));
    } else if parts[1] == "valor" {
      s.SetExpenseValue(phone, Value(v.value));
      return ThresholdSaved(AbsoluteValue, Value(v.value));
    }
    r := Warn(BadAlertKind);
  }

  /** What `handleNotifications` leaves behind: the new store, given the store `before`, and the reply. */
  predicate NotificationsEffect(phone: string, parts: seq<string>, before: Db, after: Db, r: Reply)
  {
    && (|parts| < 3 ==> r == Warn(NotifyUsage) && after == before)
    && (|parts| >= 3 ==>
      var on := Lower(parts[2]) == "sim";
      var kind := Lower(parts[1]);
      var d := Ensured(before, phone);
      var u := UserOf(d, phone);
      && (kind == "diaria" ==>
            after == UserChanged(d, phone, u.(notifyDaily := on, notifyWeekly := u.notifyWeekly))
            && r == NotificationsSaved(Daily, on))
      && (kind == "semanal" ==>
            after == UserChanged(d, phone, u.(notifyDaily := u.notifyDaily, notifyWeekly := on))
            && r == NotificationsSaved(Weekly, on))
      && (kind != "diaria" && kind != "semanal" ==> after == d && r == Warn(BadNotifyKind)))
  }

  /** `handleNotifications`: `diaria` writes the daily flag and `semanal` the weekly one,
      each writing the other flag back as `getUser` reads it; the flag is on only for `sim`. */
  method HandleNotifications(s: Store, phone: string, parts: seq<string>) returns (r: Reply)
    requires s.Valid()
    modifies s
    ensures s.Valid() && !r.Unrecognized?
    ensures RepliesAs(Shared(Nlu.Notificar), r)
    ensures NotificationsEffect(phone, parts, old(DbOf(s)), DbOf(s), r)
  {
    if |parts| < 3 {
      return Warn(NotifyUsage);
    }
    var kind := Lower(parts[1]);
    var on := Lower(parts[2]) == "sim";
    var _ := s.EnsureUser(phone);
    var u := s.users[phone];
    if kind == "diaria" {
      s.SetNotifications(phone, on, u.notifyWeekly);
      return NotificationsSaved(Daily, on);
    } else if kind == "semanal" {
      s.SetNotifications(phone, u.notifyDaily, on);
      return NotificationsSaved(Weekly, on);
    }
    r := Warn(BadNotifyKind);
  }

  /** What `handleCategoryLimit` leaves behind: the new store, given the store `before`, and the reply. */
  predicate CategoryLimitEffect(phone: string, parts: seq<string>, before: Db, after: Db, r: Reply)
  {
    && (|parts| < 3 ==> r == Warn(CategoryLimitUsage) && after == before)
    && (|parts| >= 3 && PositiveArg(parts, 2).None? ==> r == Warn(BadValue) && after == before)
    && (|parts| >= 3 && PositiveArg(parts, 2).Some? ==>
      var v := Value(PositiveArg(parts, 2).value);
      && after == Ensured(before, phone).(limits := before.limits[(phone, parts[1]) := v])
      && r == CategoryLimitSaved(parts[1], v))
  }

  /** `handleCategoryLimit`. */
  method HandleCategoryLimit(s: Store, phone: string, parts: seq<string>) returns (r: Reply)
    requires s.Valid()
    modifies s
    ensures s.Valid() && !r.Unrecognized?
    ensures RepliesAs(LimiteCategoria, r)
    ensures CategoryLimitEffect(phone, parts, old(DbOf(s)), DbOf(s), r)
  {
    if |parts| < 3 {
      return Warn(CategoryLimitUsage);
    }
    var v := PositiveArg(parts, 2);
    if v.None? {
      return Warn(BadValue);
    }
    var _ := s.EnsureUser(phone);
    s.SetCategoryLimit(phone, parts[1], Value(v.value));
    r := CategoryLimitSaved(parts[1], Value(v.value));
  }

  /** What `handleCategoryLimits` leaves behind: the new store, given the store `before`, and the reply. */
  predicate CategoryLimitsEffect(phone: string, before: Db, after: Db, r: Reply)
  {
    && (after == Ensured(before, phone))
    && (r == if LimitsOf(after.limits, phone) == [] then Empty(NoLimits) else LimitsReply(LimitsOf(after.limits, phone)))
  }

  /** `handleCategoryLimits`. */
  method HandleCategoryLimits(s: Store, phone: string) returns (r: Reply)
    requires s.Valid()
    modifies s
    ensures s.Valid() && !r.Unrecognized?
    ensures RepliesAs(Limites, r)
    ensures CategoryLimitsEffect(phone, old(DbOf(s)), DbOf(s), r)
  {
    var _ := s.EnsureUser(phone);
    var limits := s.AllCategoryLimits(phone);
    r := if limits == [] then Empty(NoLimits) else LimitsReply(limits);
  }

  /** What `handleCategories` leaves behind: the new store, given the store `before`, and the reply. */
  predicate CategoriesEffect(phone: string, before: Db, after: Db, r: Reply)
  {
    && (after == Ensured(before, phone))
    && (var b := Analytics.Breakdown(Entries(after.entries, phone), None);
            r == if b == [] then Empty(NoCategorisedExpenses) else BreakdownReply(b, Analytics.SliceSum(b)))
  }

  /** `handleCategoryBreakdownCmd`: the all-time breakdown and the sum of its totals. */
  method HandleCategories(s: Store, phone: string) returns (r: Reply)
    requires s.Valid()
    modifies s
    ensures s.Valid() && !r.Unrecognized?
    ensures RepliesAs(Shared(Nlu.Categorias), r)
    ensures CategoriesEffect(phone, old(DbOf(s)), DbOf(s), r)
  {
    var _ := s.EnsureUser(phone);
    var b := Analytics.CategoryBreakdown(Entries(s.entries, phone), None);
    r := if b == [] then Empty(NoCategorisedExpenses) else BreakdownReply(b, Analytics.SliceSum(b));
  }

  /** What `handlePrediction` leaves behind: the new store, given the store `before`, and the reply. */
  predicate PredictionEffect(phone: string, before: Db, after: Db, r: Reply)
  {
    && (after == Ensured(before, phone))
    && (var p := Analytics.Prediction(Entries(after.entries, phone));
            r == if p.Err? then ForecastFailed("⚠️ " + p.error) else ForecastReply(p.value))
  }

  /** `handlePrediction`. */
  method HandlePrediction(s: Store, phone: string) returns (r: Reply)
    requires s.Valid()
    modifies s
    ensures s.Valid() && !r.Unrecognized?
    ensures RepliesAs(Shared(Nlu.Previsao), r)
    ensures PredictionEffect(phone, old(DbOf(s)), DbOf(s), r)
  {
    var _ := s.EnsureUser(phone);
    var p := Analytics.PredictNextMonth(Entries(s.entries, phone));
    r := if p.Err? then ForecastFailed("⚠️ " + p.error) else ForecastReply(p.value);
  }

  /** What `handleHistorical` leaves behind: the new store, given the store `before`, and the reply. */
  predicate HistoricalEffect(phone: string, parts: seq<string>, before: Db, after: Db, r: Reply)
  {
    && (|parts| < 3 ==> r == Warn(HistoryUsage) && after == before)
    && (|parts| >= 3 && (MonthArg(parts, 1).None? || MonthArg(parts, 2).None?) ==>
      r == Warn(BadMonths) && after == before)
    && (|parts| >= 3 && MonthArg(parts, 1).Some? && MonthArg(parts, 2).Some? ==>
      var h := Analytics.History(Entries(after.entries, phone), MonthArg(parts, 1).value, MonthArg(parts, 2).value);
      && after == Ensured(before, phone)
      && r == if h == [] then Empty(NoHistory) else HistoryReply(h))
  }

  /** `handleHistorical`: two strict months, then the monthly series between them. */
  method HandleHistorical(s: Store, phone: string, parts: seq<string>) returns (r: Reply)
    requires s.Valid()
    modifies s
    ensures s.Valid() && !r.Unrecognized?
    ensures RepliesAs(Shared(Nlu.Historico), r)
    ensures HistoricalEffect(phone, parts, old(DbOf(s)), DbOf(s), r)
  {
    if |parts| < 3 {
      return Warn(HistoryUsage);
    }
    var start := MonthArg(parts, 1);
    var end := MonthArg(parts, 2);
    if start.None? || end.None? {
      return Warn(BadMonths);
    }
    var _ := s.EnsureUser(phone);
    var h := Analytics.HistoricalData(Entries(s.entries, phone), start.value, end.value);
    r := if h == [] then Empty(NoHistory) else HistoryReply(h);
  }

  /** What `handleExportCsv` leaves behind: the new store, given the store `before`, and the reply. */
  predicate ExportCsvEffect(phone: string, before: Db, after: Db, r: Reply)
  {
    && (after == Ensured(before, phone))
    && (var rows := Entries(after.entries, phone);
            r == if rows == [] then Empty(NothingToExport) else CsvFile(Csv(rows)))
  }

  /** `handleExportCSV`: the CSV of the user's rows as `getEntries` returns them. */
  method HandleExportCsv(s: Store, phone: string) returns (r: Reply)
    requires s.Valid()
    modifies s
    ensures s.Valid() && !r.Unrecognized?
    ensures RepliesAs(Shared(Nlu.ExportCsv), r)
    ensures ExportCsvEffect(phone, old(DbOf(s)), DbOf(s), r)
  {
    var _ := s.EnsureUser(phone);
    var rows := Entries(s.entries, phone);
    r := if rows == [] then Empty(NothingToExport) else CsvFile(Csv(rows));
  }

  /** What `handleExportPdf` leaves behind: the new store, given the store `before`, and the reply. */
  predicate ExportPdfEffect(phone: string, before: Db, after: Db, r: Reply)
  {
    && (after == Ensured(before, phone))
    && (var rows := Entries(after.entries, phone);
            var t := TotalsOf(after.entries, phone, Everything);
            r == if rows == [] then Empty(NothingToExport)
                 else PdfReport(t, OvertimeValue(t), Net(t), GoalStatusOf(GoalOf(after.users, phone), Net(t)), rows))
  }

  /** `handleExportPDF`: the values the document prints (the document itself is not
      modelled). */
  method HandleExportPdf(s: Store, phone: string) returns (r: Reply)
    requires s.Valid()
    modifies s
    ensures s.Valid() && !r.Unrecognized?
    ensures RepliesAs(Shared(Nlu.ExportPdf), r)
    ensures ExportPdfEffect(phone, old(DbOf(s)), DbOf(s), r)
  {
    var _ := s.EnsureUser(phone);
    var rows := Entries(s.entries, phone);
    if rows == [] {
      return Empty(NothingToExport);
    }
    var t := TotalsOf(s.entries, phone, Everything);
    r := PdfReport(t, OvertimeValue(t), Net(t), GoalStatusOf(s.Goal(phone), Net(t)), rows);
  }

  /** What `handleExportSheets` leaves behind: the new store, given the store `before`, and the reply. */
  predicate ExportSheetsEffect(phone: string, parts: seq<string>, outcome: Result<(), string>,
                               before: Db, after: Db, r: Reply)
  {
    && (|parts| < 2 ==> r == Warn(SheetsUsage) && after == before)
    && (|parts| >= 2 ==>
      var d := Ensured(before, phone);
      && after == UserChanged(d, phone, UserOf(d, phone).(sheetsId := Some(parts[1])))
      && r == if outcome.Ok? then SheetsExported(parts[1]) else SheetsFailed("⚠️ Erro ao exportar: " + outcome.error))
  }

  /** `handleExportSheets`: the id is saved before the export is attempted; `outcome` is
      what the Sheets call did. */
  method HandleExportSheets(s: Store, phone: string, parts: seq<string>, outcome: Result<(), string>) returns (r: Reply)
    requires s.Valid()
    modifies s
    ensures s.Valid() && !r.Unrecognized?
    ensures RepliesAs(ExportarSheets, r)
    ensures ExportSheetsEffect(phone, parts, outcome, old(DbOf(s)), DbOf(s), r)
  {
    if |parts| < 2 {
      return Warn(SheetsUsage);
    }
    var _ := s.EnsureUser(phone);
    s.SetSheetsId(phone, parts[1]);
    r := if outcome.Ok? then SheetsExported(parts[1]) else SheetsFailed("⚠️ Erro ao exportar: " + outcome.error);
  }

  /** What `handleLanguage` leaves behind: the new store, given the store `before`, and the reply. */
  predicate LanguageEffect(phone: string, parts: seq<string>, before: Db, after: Db, r: Reply)
  {
    && (|parts| < 2 ==> r == Warn(LanguageUsage) && after == before)
    && (|parts| >= 2 && Lower(parts[1]) != "pt" && Lower(parts[1]) != "en" ==>
      r == Warn(BadLanguage) && after == before)
    && (|parts| >= 2 && (Lower(parts[1]) == "pt" || Lower(parts[1]) == "en") ==>
      var d := Ensured(before, phone);
      && after == UserChanged(d, phone, UserOf(d, phone).(language := Lower(parts[1])))
      && r == LanguageSaved(Lower(parts[1])))
  }

  /** `handleLanguage`: only `pt` or `en` (any case) is written, lower-cased. */
  method HandleLanguage(s: Store, phone: string, parts: seq<string>) returns (r: Reply)
    requires s.Valid()
    modifies s
    ensures s.Valid() && !r.Unrecognized?
    ensures RepliesAs(Shared(Nlu.Idioma), r)
    ensures LanguageEffect(phone, parts, old(DbOf(s)), DbOf(s), r)
  {
    if |parts| < 2 {
      return Warn(LanguageUsage);
    }
    var lang := Lower(parts[1]);
    if lang != "pt" && lang != "en" {
      return Warn(BadLanguage);
    }
    var _ := s.EnsureUser(phone);
    var _ := s.SetUserPrefs(phone, PrefsUpdate(Some(lang), None, None, None));
    r := LanguageSaved(lang);
  }

  /** What `handlePrefs` leaves behind: the new store, given the store `before`, and the reply. */
  predicate PrefsEffect(phone: string, before: Db, after: Db, r: Reply)
  {
    && (after == Ensured(before, phone))
    && (r == PrefsReply(PrefsOf(after.users, phone), BriefPrefsOf(after.users, phone), WatchlistOf(after.watchlist, phone)))
  }

  /** `handlePrefs`. */
  method HandlePrefs(s: Store, phone: string) returns (r: Reply)
    requires s.Valid()
    modifies s
    ensures s.Valid() && !r.Unrecognized?
    ensures RepliesAs(Preferencias, r)
    ensures PrefsEffect(phone, old(DbOf(s)), DbOf(s), r)
  {
    var _ := s.EnsureUser(phone);
    r := PrefsReply(s.UserPrefs(phone), s.MorningBriefPrefs(phone), s.CryptoWatchlist(phone));
  }

  /** What `handleNotifyHour` leaves behind: the new store, given the store `before`, and the reply. */
  predicate NotifyHourEffect(phone: string, parts: seq<string>, before: Db, after: Db, r: Reply)
  {
    && (|parts| < 2 ==> r == Warn(NotifyHourUsage) && after == before)
    && (|parts| >= 2 && HourArg(parts, 1).None? ==> r == Warn(BadNotifyHour) && after == before)
    && (|parts| >= 2 && HourArg(parts, 1).Some? ==>
      var h := HourArg(parts, 1).value;
      var d := Ensured(before, phone);
      && after == UserChanged(d, phone, UserOf(d, phone).(notifyHour := h))
      && r == NotifyHourSaved(h))
  }

  /** `handleNotifyHour`: an integer hour 0-23 becomes the notify hour. */
  method HandleNotifyHour(s: Store, phone: string, parts: seq<string>) returns (r: Reply)
    requires s.Valid()
    modifies s
    ensures s.Valid() && !r.Unrecognized?
    ensures RepliesAs(HoraNotificar, r)
    ensures NotifyHourEffect(phone, parts, old(DbOf(s)), DbOf(s), r)
  {
    if |parts| < 2 {
      return Warn(NotifyHourUsage);
    }
    var h := HourArg(parts, 1);
    if h.None? {
      return Warn(BadNotifyHour);
    }
    var _ := s.EnsureUser(phone);
    var _ := s.SetUserPrefs(phone, PrefsUpdate(None, None, Some(h.value), None));
    r := NotifyHourSaved(h.value);
  }

  /** What `handleInsight` leaves behind: the new store, given the store `before`, and the reply. */
  predicate InsightEffect(phone: string, parts: seq<string>, before: Db, after: Db, r: Reply)
  {
    && (|parts| < 2 ==> r == Warn(InsightUsage) && after == before)
    && (|parts| >= 2 && YesNoArg(parts, 1).None? ==> r == Warn(BadInsightFlag) && after == before)
    && (|parts| >= 2 && YesNoArg(parts, 1).Some? ==>
      var on := YesNoArg(parts, 1).value;
      var d := Ensured(before, phone);
      && after == UserChanged(d, phone, UserOf(d, phone).(insightEnabled := if on then 1 else 0))
      && r == InsightSaved(on))
  }

  /** `handleInsightToggle`: `sim` stores 1 and `nao` stores 0. */
  method HandleInsight(s: Store, phone: string, parts: seq<string>) returns (r: Reply)
    requires s.Valid()
    modifies s
    ensures s.Valid() && !r.Unrecognized?
    ensures RepliesAs(Shared(Nlu.Insight), r)
    ensures InsightEffect(phone, parts, old(DbOf(s)), DbOf(s), r)
  {
    if |parts| < 2 {
      return Warn(InsightUsage);
    }
    var flag := YesNoArg(parts, 1);
    if flag.None? {
      return Warn(BadInsightFlag);
    }
    var _ := s.EnsureUser(phone);
    var _ := s.SetUserPrefs(phone, PrefsUpdate(None, None, None, Some(if flag.value then 1 else 0)));
    r := InsightSaved(flag.value);
  }

  /** What `handleBriefing` leaves behind: the new store, given the store `before`, and the reply. */
  predicate BriefingEffect(phone: string, parts: seq<string>, before: Db, after: Db, r: Reply)
  {
    && (|parts| < 2 ==> r == Warn(BriefingUsage) && after == before)
    && (|parts| >= 2 && YesNoArg(parts, 1).None? ==> r == Warn(BadValue) && after == before)
    && (|parts| >= 2 && YesNoArg(parts, 1).Some? ==>
      var on := YesNoArg(parts, 1).value;
      var d := Ensured(before, phone);
      && after == UserChanged(d, phone, UserOf(d, phone).(morningBriefEnabled := if on then 1 else 0))
      && r == BriefingSaved(on))
  }

  /** `handleBriefingToggle`. */
  method HandleBriefing(s: Store, phone: string, parts: seq<string>) returns (r: Reply)
    requires s.Valid()
    modifies s
    ensures s.Valid() && !r.Unrecognized?
    ensures RepliesAs(Briefing, r)
    ensures BriefingEffect(phone, parts, old(DbOf(s)), DbOf(s), r)
  {
    if |parts| < 2 {
      return Warn(BriefingUsage);
    }
    var flag := YesNoArg(parts, 1);
    if flag.None? {
      return Warn(BadValue);
    }
    var _ := s.EnsureUser(phone);
    var _ := s.SetMorningBriefPrefs(phone, Some(if flag.value then 1 else 0), None);
    r := BriefingSaved(flag.value);
  }

  /** What `handleBriefingHour` leaves behind: the new store, given the store `before`, and the reply. */
  predicate BriefingHourEffect(phone: string, parts: seq<string>, before: Db, after: Db, r: Reply)
  {
    && (|parts| < 2 ==> r == Warn(BriefingHourUsage) && after == before)
    && (|parts| >= 2 && HourArg(parts, 1).None? ==> r == Warn(BadBriefingHour) && after == before)
    && (|parts| >= 2 && HourArg(parts, 1).Some? ==>
      var h := HourArg(parts, 1).value;
      var d := Ensured(before, phone);
      && after == UserChanged(d, phone, UserOf(d, phone).(morningBriefHour := h))
      && r == BriefingHourSaved(h))
  }

  /** `handleBriefingHour`. */
  method HandleBriefingHour(s: Store, phone: string, parts: seq<string>) returns (r: Reply)
    requires s.Valid()
    modifies s
    ensures s.Valid() && !r.Unrecognized?
    ensures RepliesAs(BriefingHora, r)
    ensures BriefingHourEffect(phone, parts, old(DbOf(s)), DbOf(s), r)
  {
    if |parts| < 2 {
      return Warn(BriefingHourUsage);
    }
    var h := HourArg(parts, 1);
    if h.None? {
      return Warn(BadBriefingHour);
    }
    var _ := s.EnsureUser(phone);
    var _ := s.SetMorningBriefPrefs(phone, None, Some(h.value));
    r := BriefingHourSaved(h.value);
  }

  /** What `handleAddCrypto` leaves behind: the new store, given the store `before`, and the reply. */
  predicate AddCryptoEffect(phone: string, parts: seq<string>, before: Db, after: Db, r: Reply)
  {
    && (|parts| < 2 ==> r == Warn(AddCryptoUsage) && after == before)
    && (|parts| >= 2 && !CryptoSymbol(Upper(parts[1])) ==> r == Warn(BadSymbol) && after == before)
    && (|parts| >= 2 && CryptoSymbol(Upper(parts[1])) ==>
      && after == Ensured(before, phone).(watchlist := before.watchlist + {(phone, Upper(parts[1]))})
      && r == CryptoAdded(Upper(parts[1])))
  }

  /** `handleAddCrypto`: the upper-cased symbol, if it is 2-10 letters or digits, joins the
      watchlist. */
  method HandleAddCrypto(s: Store, phone: string, parts: seq<string>) returns (r: Reply)
    requires s.Valid()
    modifies s
    ensures s.Valid() && !r.Unrecognized?
    ensures RepliesAs(AddCripto, r)
    ensures AddCryptoEffect(phone, parts, old(DbOf(s)), DbOf(s), r)
  {
    if |parts| < 2 {
      return Warn(AddCryptoUsage);
    }
    var symbol := Upper(parts[1]);
    if !CryptoSymbol(symbol) {
      return Warn(BadSymbol);
    }
    var _ := s.EnsureUser(phone);
    UpperIdempotent(parts[1]);
    s.AddCryptoSymbol(phone, symbol);
    r := CryptoAdded(symbol);
  }

  /** What `handleRemoveCrypto` leaves behind: the new store, given the store `before`, and the reply. */
  predicate RemoveCryptoEffect(phone: string, parts: seq<string>, before: Db, after: Db, r: Reply)
  {
    && (|parts| < 2 ==> r == Warn(RemoveCryptoUsage) && after == before)
    && (|parts| >= 2 ==>
      && after == Ensured(before, phone).(watchlist := before.watchlist - {(phone, Upper(parts[1]))})
      && r == CryptoRemoved(Upper(parts[1])))
  }

  /** `handleRemoveCrypto`. */
  method HandleRemoveCrypto(s: Store, phone: string, parts: seq<string>) returns (r: Reply)
    requires s.Valid()
    modifies s
    ensures s.Valid() && !r.Unrecognized?
    ensures RepliesAs(RmCripto, r)
    ensures RemoveCryptoEffect(phone, parts, old(DbOf(s)), DbOf(s), r)
  {
    if |parts| < 2 {
      return Warn(RemoveCryptoUsage);
    }
    var symbol := Upper(parts[1]);
    var _ := s.EnsureUser(phone);
    UpperIdempotent(parts[1]);
    s.RemoveCryptoSymbol(phone, symbol);
    r := CryptoRemoved(symbol);
  }

  /** What `handleListCrypto` leaves behind: the new store, given the store `before`, and the reply. */
  predicate ListCryptoEffect(phone: string, before: Db, after: Db, r: Reply)
  {
    && (after == Ensured(before, phone))
    && (r == if WatchlistOf(after.watchlist, phone) == [] then Empty(NoCrypto) else CryptoList(WatchlistOf(after.watchlist, phone)))
  }

  /** `handleListCrypto`. */
  method HandleListCrypto(s: Store, phone: string) returns (r: Reply)
    requires s.Valid()
    modifies s
    ensures s.Valid() && !r.Unrecognized?
    ensures RepliesAs(ListaCripto, r)
    ensures ListCryptoEffect(phone, old(DbOf(s)), DbOf(s), r)
  {
    var _ := s.EnsureUser(phone);
    var list := s.CryptoWatchlist(phone);
    r := if list == [] then Empty(NoCrypto) else CryptoList(list);
  }

  // ---------------------------------------------------------------------------------------
  // Routing

  /** The commands `dispatchCommand` knows: the nineteen the free-text interpreter can also
      produce, under its own names, and twelve more. */
  datatype Handler =
    | Shared(cmd: Nlu.Cmd)
    | SalarioMes | Alerta | LimiteCategoria | Limites | ExportarSheets | Preferencias
    | HoraNotificar | Briefing | BriefingHora | AddCripto | RmCripto | ListaCripto

  /** The `case` label of each handler. */
  function Token(h: Handler): string {
    match h
    case Shared(c) => Nlu.Name(c)
    case SalarioMes => "!salario_mes"
    case Alerta => "!alerta"
    case LimiteCategoria => "!limite_categoria"
    case Limites => "!limites"
    case ExportarSheets => "!exportar_sheets"
    case Preferencias => "!preferencias"
    case HoraNotificar => "!hora_notificar"
    case Briefing => "!briefing"
    case BriefingHora => "!briefing_hora"
    case AddCripto => "!addcripto"
    case RmCripto => "!rmcripto"
    case ListaCripto => "!lista_cripto"
  }

  /** The labels of the `switch`, in its order. */
  const Handlers: seq<Handler> := [
    Shared(Nlu.Salario), Shared(Nlu.Gasto), Shared(Nlu.HoraExtra), Shared(Nlu.Folga),
    Shared(Nlu.Trabalhei), Shared(Nlu.Relatorio), Shared(Nlu.RelatorioMes), SalarioMes,
    Shared(Nlu.Meta), Alerta, Shared(Nlu.BancoFolgas), Shared(Nlu.ExportCsv), Shared(Nlu.ExportPdf),
    Shared(Nlu.Notificar), LimiteCategoria, Limites, Shared(Nlu.Categorias), Shared(Nlu.Previsao),
    Shared(Nlu.Historico), ExportarSheets, Shared(Nlu.Idioma), Preferencias, HoraNotificar,
    Shared(Nlu.Insight), Briefing, BriefingHora, AddCripto, RmCripto, ListaCripto,
    Shared(Nlu.Menu), Shared(Nlu.Ajuda)]

  lemma HandlersListed(h: Handler)
    ensures h in Handlers
  {
    if h.Shared? {
      match h.cmd
      case Ajuda => assert Handlers[30] == h;
      case Menu => assert Handlers[29] == h;
      case RelatorioMes => assert Handlers[6] == h;
      case Relatorio => assert Handlers[5] == h;
      case Meta => assert Handlers[8] == h;
      case Salario => assert Handlers[0] == h;
      case Gasto => assert Handlers[1] == h;
      case HoraExtra => assert Handlers[2] == h;
      case Folga => assert Handlers[3] == h;
      case Trabalhei => assert Handlers[4] == h;
      case BancoFolgas => assert Handlers[10] == h;
      case Categorias => assert Handlers[16] == h;
      case Previsao => assert Handlers[17] == h;
      case Historico => assert Handlers[18] == h;
      case ExportCsv => assert Handlers[11] == h;
      case ExportPdf => assert Handlers[12] == h;
      case Notificar => assert Handlers[13] == h;
      case Idioma => assert Handlers[20] == h;
      case Insight => assert Handlers[23] == h;
    }
  }

  /** The first case from position `k` on whose label is exactly `t`. */
  function RouteFrom(t: string, k: nat): (r: Option<Handler>)
    ensures r.Some? ==> Token(r.value) == t
    ensures r.None? ==> forall j :: k <= j < |Handlers| ==> Token(Handlers[j]) != t
    decreases |Handlers| - k
  {
    if k >= |Handlers| then None
    else if Token(Handlers[k]) == t then Some(Handlers[k])
    else RouteFrom(t, k + 1)
  }

  /** The `switch (cmd)`: the handler whose label is `t`, if any. */
  function Route(t: string): (r: Option<Handler>) {
    RouteFrom(t, 0)
  }

  /** A token routes to a handler exactly when it is some handler's label, and then to a
      handler with that very label. */
  lemma RouteExact(t: string)
    ensures Route(t).Some? ==> Token(Route(t).value) == t
    ensures Route(t).None? <==> forall h :: Token(h) != t
  {
    if Route(t).None? {
      forall h ensures Token(h) != t {
        HandlersListed(h);
        var j :| 0 <= j < |Handlers| && Handlers[j] == h;
      }
    }
  }

  /** Every command line the free-text interpreter produces is recognised by the
      dispatcher: its first word, lower-cased, is the label of the handler of that command. */
  lemma InterpretedCommandsRoute(o: Nlu.Outcome)
    requires o.Command? && Nlu.ArgsText(o.args)
    ensures var head := Lower(SplitArgs(Nlu.Line(o))[0]);
            Route(head).Some? && Token(Route(head).value) == Nlu.Name(o.cmd)
  {
    Nlu.CommandHead(o);
    var n := Nlu.Name(o.cmd);
    assert Nlu.CommandName(n);
    LowerFixed(n);
    RouteExact(Token(Shared(o.cmd)));
  }

  /** The replies the handler of each case of the `switch` can give: its warnings, its
      empty-result notices and its own kind of result. */
  predicate RepliesAs(h: Handler, r: Reply) {
    match h
    case Shared(c) => (
      match c
      case Salario => r == Warn(SalaryUsage) || r.SalarySaved?
      case Gasto => r == Warn(ExpenseUsage) || r.ExpenseSaved?
      case HoraExtra => r == Warn(OvertimeUsage) || r == Warn(BadDate) || r.OvertimeSaved?
      case Folga => r == Warn(LeaveUsage) || r.LeaveSaved?
      case Trabalhei => r == Warn(WorkedUsage) || r.WorkedSaved?
      case Relatorio => r.ReportReply?
      case RelatorioMes => r == Warn(MonthlyReportUsage) || r.MonthlyReportReply?
      case Meta => r == Warn(GoalUsage) || r.GoalSaved?
      case BancoFolgas => r.LeaveBankReply?
      case ExportCsv => r == Empty(NothingToExport) || r.CsvFile?
      case ExportPdf => r == Empty(NothingToExport) || r.PdfReport?
      case Notificar => r == Warn(NotifyUsage) || r == Warn(BadNotifyKind) || r.NotificationsSaved?
      case Categorias => r == Empty(NoCategorisedExpenses) || r.BreakdownReply?
      case Previsao => r.ForecastReply? || r.ForecastFailed?
      case Historico => r == Warn(HistoryUsage) || r == Warn(BadMonths) || r == Empty(NoHistory) || r.HistoryReply?
      case Idioma => r == Warn(LanguageUsage) || r == Warn(BadLanguage) || r.LanguageSaved?
      case Insight => r == Warn(InsightUsage) || r == Warn(BadInsightFlag) || r.InsightSaved?
      case Menu => r == MenuReply(MenuButtons)
      case Ajuda => r == HelpReply)
    case SalarioMes => r == Warn(MonthlySalaryUsage) || r == Warn(BadMonth) || r == Warn(BadValue) || r.MonthlySalarySaved?
    case Alerta => r == Warn(AlertUsage) || r == Warn(BadValue) || r == Warn(BadAlertKind) || r.ThresholdSaved?
    case LimiteCategoria => r == Warn(CategoryLimitUsage) || r == Warn(BadValue) || r.CategoryLimitSaved?
    case Limites => r == Empty(NoLimits) || r.LimitsReply?
    case ExportarSheets => r == Warn(SheetsUsage) || r.SheetsExported? || r.SheetsFailed?
    case Preferencias => r.PrefsReply?
    case HoraNotificar => r == Warn(NotifyHourUsage) || r == Warn(BadNotifyHour) || r.NotifyHourSaved?
    case Briefing => r == Warn(BriefingUsage) || r == Warn(BadValue) || r.BriefingSaved?
    case BriefingHora => r == Warn(BriefingHourUsage) || r == Warn(BadBriefingHour) || r.BriefingHourSaved?
    case AddCripto => r == Warn(AddCryptoUsage) || r == Warn(BadSymbol) || r.CryptoAdded?
    case RmCripto => r == Warn(RemoveCryptoUsage) || r.CryptoRemoved?
    case ListaCripto => r == Empty(NoCrypto) || r.CryptoList?
  }

  /** The cases whose handler only ensures the user row and then reads. */
  predicate ReadOnly(h: Handler) {
    match h
    case Shared(c) =>
      c.Relatorio? || c.BancoFolgas? || c.Categorias? || c.Previsao? || c.ExportCsv? || c.ExportPdf?
    case Limites => true
    case Preferencias => true
    case ListaCripto => true
    case _ => false
  }

  /** What the handler of case `h` leaves behind, given the message's words `parts`, the
      clock, the Sheets outcome and the store `before`: the effect its own contract states. */
  predicate Effect(h: Handler, phone: string, parts: seq<string>, now: Stamp, today: Date,
                   sheets: Result<(), string>, before: Db, after: Db, r: Reply)
  {
    match h
    case Shared(c) => SharedEffect(c, phone, parts, now, today, before, after, r)
    case SalarioMes => MonthlySalaryEffect(phone, parts, before, after, r)
    case Alerta => AlertConfigEffect(phone, parts, before, after, r)
    case LimiteCategoria => CategoryLimitEffect(phone, parts, before, after, r)
    case Limites => CategoryLimitsEffect(phone, before, after, r)
    case ExportarSheets => ExportSheetsEffect(phone, parts, sheets, before, after, r)
    case Preferencias => PrefsEffect(phone, before, after, r)
    case HoraNotificar => NotifyHourEffect(phone, parts, before, after, r)
    case Briefing => BriefingEffect(phone, parts, before, after, r)
    case BriefingHora => BriefingHourEffect(phone, parts, before, after, r)
    case AddCripto => AddCryptoEffect(phone, parts, before, after, r)
    case RmCripto => RemoveCryptoEffect(phone, parts, before, after, r)
    case ListaCripto => ListCryptoEffect(phone, before, after, r)
  }

  /** `dispatchCommand`: the lower-cased first word picks the case with exactly that label,
      whose handler runs on the message's own words; an unknown word is answered with the fixed
      not-recognised reply and touches nothing. The read-only cases only ensure the user
      row, and `!menu` and `!ajuda` touch nothing. */
  method Dispatch(s: Store, phone: string, text: string, now: Stamp, today: Date, sheets: Result<(), string>)
    returns (r: Reply)
    requires s.Valid() && ValidStamp(now) && ValidDate(today)
    modifies s
    ensures s.Valid()
    ensures var t := Lower(SplitArgs(text)[0]);
            && (r.Unrecognized? <==> Route(t).None?)
            && (Route(t).Some? ==> Token(Route(t).value) == t && RepliesAs(Route(t).value, r))
    ensures r.Unrecognized? ==> DbOf(s) == old(DbOf(s))
    ensures var route := Route(Lower(SplitArgs(text)[0]));
            && (route.Some? && ReadOnly(route.value) ==> DbOf(s) == Ensured(old(DbOf(s)), phone))
            && (route == Some(Shared(Nlu.Menu)) || route == Some(Shared(Nlu.Ajuda)) ==> DbOf(s) == old(DbOf(s)))
    ensures var route := Route(Lower(SplitArgs(text)[0]));
            route.Some? ==> Effect(route.value, phone, SplitArgs(text), now, today, sheets, old(DbOf(s)), DbOf(s), r)
  {
    var parts := SplitArgs(text);
    var route := Route(Lower(parts[0]));
    if route.None? {
      return Unrecognized;
    }
    match route.value
    case Shared(c) => r := DispatchShared(s, phone, c, parts, now, today);
    case SalarioMes => r := HandleMonthlySalary(s, phone, parts);
    case Alerta => r := HandleAlertConfig(s, phone, parts);
    case LimiteCategoria => r := HandleCategoryLimit(s, phone, parts);
    case Limites => r := HandleCategoryLimits(s, phone);
    case ExportarSheets => r := HandleExportSheets(s, phone, parts, sheets);
    case Preferencias => r := HandlePrefs(s, phone);
    case HoraNotificar => r := HandleNotifyHour(s, phone, parts);
    case Briefing => r := HandleBriefing(s, phone, parts);
    case BriefingHora => r := HandleBriefingHour(s, phone, parts);
    case AddCripto => r := HandleAddCrypto(s, phone, parts);
    case RmCripto => r := HandleRemoveCrypto(s, phone, parts);
    case ListaCripto => r := HandleListCrypto(s, phone);
  }

  /** What the handler of the shared case `c` leaves behind. */
  predicate SharedEffect(c: Nlu.Cmd, phone: string, parts: seq<string>, now: Stamp, today: Date,
                         before: Db, after: Db, r: Reply)
  {
    match c
    case Salario => SalaryEffect(phone, parts, now, before, after, r)
    case Gasto => ExpenseEffect(phone, parts, now, today, before, after, r)
    case HoraExtra => OvertimeEffect(phone, parts, now, before, after, r)
    case Folga => LeaveEffect(phone, parts, now, today, before, after, r)
    case Trabalhei => WorkedEffect(phone, parts, now, today, before, after, r)
    case Relatorio => ReportEffect(phone, before, after, r)
    case RelatorioMes => MonthlyReportEffect(phone, parts, before, after, r)
    case Meta => SetGoalEffect(phone, parts, before, after, r)
    case BancoFolgas => LeaveBankEffect(phone, before, after, r)
    case ExportCsv => ExportCsvEffect(phone, before, after, r)
    case ExportPdf => ExportPdfEffect(phone, before, after, r)
    case Notificar => NotificationsEffect(phone, parts, before, after, r)
    case Categorias => CategoriesEffect(phone, before, after, r)
    case Previsao => PredictionEffect(phone, before, after, r)
    case Historico => HistoricalEffect(phone, parts, before, after, r)
    case Idioma => LanguageEffect(phone, parts, before, after, r)
    case Insight => InsightEffect(phone, parts, before, after, r)
    case Menu => after == before && r == MenuReply(MenuButtons)
    case Ajuda => after == before && r == HelpReply
  }

  /** The cases of `dispatchCommand` whose labels the free-text interpreter also produces,
      in five groups that follow the order of the `switch`. */
  method DispatchShared(s: Store, phone: string, c: Nlu.Cmd, parts: seq<string>, now: Stamp, today: Date)
    returns (r: Reply)
    requires s.Valid() && ValidStamp(now) && ValidDate(today)
    modifies s
    ensures s.Valid() && !r.Unrecognized?
    ensures RepliesAs(Shared(c), r)
    ensures ReadOnly(Shared(c)) ==> DbOf(s) == Ensured(old(DbOf(s)), phone)
    ensures c.Menu? || c.Ajuda? ==> DbOf(s) == old(DbOf(s))
    ensures SharedEffect(c, phone, parts, now, today, old(DbOf(s)), DbOf(s), r)
  {
    if MoneyEntry(c) {
      r := DispatchMoney(s, phone, c, parts, now, today);
    } else if HoursEntry(c) {
      r := DispatchHours(s, phone, c, parts, now, today);
    } else if ChangesSetting(c) {
      r := DispatchSetting(s, phone, c, parts, now, today);
    } else if BuildsReport(c) {
      r := DispatchReport(s, phone, c, parts, now, today);
    } else {
      r := DispatchLookup(s, phone, c, parts, now, today);
    }
  }

  /** The shared cases that record money received or spent. */
  predicate MoneyEntry(c: Nlu.Cmd) {
    c.Salario? || c.Gasto?
  }

  /** The shared cases that record extra hours, a day off or a worked day off. */
  predicate HoursEntry(c: Nlu.Cmd) {
    c.HoraExtra? || c.Folga? || c.Trabalhei?
  }

  /** The shared cases that change one of the user's settings. */
  predicate ChangesSetting(c: Nlu.Cmd) {
    c.Meta? || c.Notificar? || c.Idioma? || c.Insight?
  }

  /** The shared cases that build a report or an export from the store. */
  predicate BuildsReport(c: Nlu.Cmd) {
    c.Relatorio? || c.RelatorioMes? || c.BancoFolgas? || c.ExportCsv? || c.ExportPdf?
  }

  /** The shared cases that record money received or spent. */
  method DispatchMoney(s: Store, phone: string, c: Nlu.Cmd, parts: seq<string>, now: Stamp, today: Date)
    returns (r: Reply)
    requires MoneyEntry(c)
    requires s.Valid() && ValidStamp(now) && ValidDate(today)
    modifies s
    ensures s.Valid() && !r.Unrecognized?
    ensures RepliesAs(Shared(c), r)
    ensures ReadOnly(Shared(c)) ==> DbOf(s) == Ensured(old(DbOf(s)), phone)
    ensures c.Menu? || c.Ajuda? ==> DbOf(s) == old(DbOf(s))
    ensures SharedEffect(c, phone, parts, now, today, old(DbOf(s)), DbOf(s), r)
  {
    match c
    case Salario => r := HandleSalary(s, phone, parts, now);
    case Gasto => r := HandleExpense(s, phone, parts, now, today);
  }

  /** The shared cases that record extra hours, a day off or a worked day off. */
  method DispatchHours(s: Store, phone: string, c: Nlu.Cmd, parts: seq<string>, now: Stamp, today: Date)
    returns (r: Reply)
    requires HoursEntry(c)
    requires s.Valid() && ValidStamp(now) && ValidDate(today)
    modifies s
    ensures s.Valid() && !r.Unrecognized?
    ensures RepliesAs(Shared(c), r)
    ensures ReadOnly(Shared(c)) ==> DbOf(s) == Ensured(old(DbOf(s)), phone)
    ensures c.Menu? || c.Ajuda? ==> DbOf(s) == old(DbOf(s))
    ensures SharedEffect(c, phone, parts, now, today, old(DbOf(s)), DbOf(s), r)
  {
    match c
    case HoraExtra => r := HandleOvertime(s, phone, parts, now);
    case Folga => r := HandleLeave(s, phone, parts, now, today);
    case Trabalhei => r := HandleWorked(s, phone, parts, now, today);
  }

  /** The shared cases that change one of the user's settings. */
  method DispatchSetting(s: Store, phone: string, c: Nlu.Cmd, parts: seq<string>, now: Stamp, today: Date)
    returns (r: Reply)
    requires ChangesSetting(c)
    requires s.Valid() && ValidStamp(now) && ValidDate(today)
    modifies s
    ensures s.Valid() && !r.Unrecognized?
    ensures RepliesAs(Shared(c), r)
    ensures ReadOnly(Shared(c)) ==> DbOf(s) == Ensured(old(DbOf(s)), phone)
    ensures c.Menu? || c.Ajuda? ==> DbOf(s) == old(DbOf(s))
    ensures SharedEffect(c, phone, parts, now, today, old(DbOf(s)), DbOf(s), r)
  {
    match c
    case Meta => r := HandleSetGoal(s, phone, parts);
    case Notificar => r := HandleNotifications(s, phone, parts);
    case Idioma => r := HandleLanguage(s, phone, parts);
    case Insight => r := HandleInsight(s, phone, parts);
  }

  /** The shared cases that build a report or an export from the store. */
  method DispatchReport(s: Store, phone: string, c: Nlu.Cmd, parts: seq<string>, now: Stamp, today: Date)
    returns (r: Reply)
    requires BuildsReport(c)
    requires s.Valid() && ValidStamp(now) && ValidDate(today)
    modifies s
    ensures s.Valid() && !r.Unrecognized?
    ensures RepliesAs(Shared(c), r)
    ensures ReadOnly(Shared(c)) ==> DbOf(s) == Ensured(old(DbOf(s)), phone)
    ensures c.Menu? || c.Ajuda? ==> DbOf(s) == old(DbOf(s))
    ensures SharedEffect(c, phone, parts, now, today, old(DbOf(s)), DbOf(s), r)
  {
    match c
    case Relatorio => r := HandleReport(s, phone);
    case RelatorioMes => r := HandleMonthlyReport(s, phone, parts);
    case BancoFolgas => r := HandleLeaveBank(s, phone);
    case ExportCsv => r := HandleExportCsv(s, phone);
    case ExportPdf => r := HandleExportPdf(s, phone);
  }

  /** The remaining shared cases: the breakdown, the forecast, the history and the two fixed replies. */
  method DispatchLookup(s: Store, phone: string, c: Nlu.Cmd, parts: seq<string>, now: Stamp, today: Date)
    returns (r: Reply)
    requires !MoneyEntry(c) && !HoursEntry(c) && !ChangesSetting(c) && !BuildsReport(c)
    requires s.Valid() && ValidStamp(now) && ValidDate(today)
    modifies s
    ensures s.Valid() && !r.Unrecognized?
    ensures RepliesAs(Shared(c), r)
    ensures ReadOnly(Shared(c)) ==> DbOf(s) == Ensured(old(DbOf(s)), phone)
    ensures c.Menu? || c.Ajuda? ==> DbOf(s) == old(DbOf(s))
    ensures SharedEffect(c, phone, parts, now, today, old(DbOf(s)), DbOf(s), r)
  {
    match c
    case Categorias => r := HandleCategories(s, phone);
    case Previsao => r := HandlePrediction(s, phone);
    case Historico => r := HandleHistorical(s, phone, parts);
    case Menu => r := MenuReply(MenuButtons);
    case Ajuda => r := HelpReply;
  }
}
