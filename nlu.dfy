/** The free-text command resolver: `normalize`, the number, date, month and category
    extractors, the ordered rule table `interpret` and the fallback hints `suggest`. */
module Nlu {
  import opened Wrappers
  import opened Text
  import opened Numbers
  import Dates

  // ---------------------------------------------------------------------------------------
  // normalize

  /** Combining diacritical marks, removed after canonical decomposition. */
  predicate IsCombining(c: char) { '\U{300}' <= c <= '\U{36F}' }

  /** `toLowerCase` followed by canonical decomposition, keeping the base letter, on the
      ASCII and Latin-1 range. */
  function FoldChar(c: char): (r: char)
    ensures c < '\U{C0}' ==> r == LowerAscii(c)
  {
    var l := if IsUpperAscii(c) || ('\U{C0}' <= c <= '\U{DE}' && c != '\U{D7}') then (c as int + 32) as char else c;
    if '\U{E0}' <= l <= '\U{E5}' then 'a'
    else if l == '\U{E7}' then 'c'
    else if '\U{E8}' <= l <= '\U{EB}' then 'e'
    else if '\U{EC}' <= l <= '\U{EF}' then 'i'
    else if l == '\U{F1}' then 'n'
    else if '\U{F2}' <= l <= '\U{F6}' then 'o'
    else if '\U{F9}' <= l <= '\U{FC}' then 'u'
    else if l == '\U{FD}' || l == '\U{FF}' then 'y'
    else l
  }

  /** The characters the class `[a-z0-9#\s.,:-]` admits. */
  predicate Kept(c: char) {
    IsLowerAscii(c) || IsDigit(c) || c == '#' || IsSpace(c) || c == '.' || c == ',' || c == ':' || c == '-'
  }

  /** Case folding, accent removal and the replacement of every other character by a space. */
  function Scrub(s: string): (r: string)
    ensures |r| <= |s|
    ensures forall i :: 0 <= i < |r| ==> Kept(r[i])
  {
    if s == [] then []
    else
      var f := FoldChar(s[0]);
      (if IsCombining(s[0]) then [] else [if Kept(f) then f else ' ']) + Scrub(s[1..])
  }

  /** `replace(/\s+/g, ' ')`: every run of white space becomes one space. */
  function Collapse(s: string): (r: string)
    ensures |r| <= |s|
    ensures r == [] <==> s == []
    ensures r != [] ==> r[0] == (if IsSpace(s[0]) then ' ' else s[0])
    ensures forall i :: 0 <= i < |r| ==> r[i] == ' ' || (!IsSpace(r[i]) && r[i] in s)
    ensures forall i :: 0 <= i < |r| - 1 ==> !(r[i] == ' ' && r[i + 1] == ' ')
  {
    if s == [] then []
    else if IsSpace(s[0]) && |s| > 1 && IsSpace(s[1]) then Collapse(s[1..])
    else [if IsSpace(s[0]) then ' ' else s[0]] + Collapse(s[1..])
  }

  function Normalize(s: string): string {
    Trim(Collapse(Scrub(s)))
  }

  /** The alphabet of normalized text. */
  predicate NormalChar(c: char) {
    IsLowerAscii(c) || IsDigit(c) || c == '#' || c == '.' || c == ',' || c == ':' || c == '-' || c == ' '
  }

  /** Normalized text: its alphabet only, single spaces, no space at either end. */
  predicate IsNormal(t: string) {
    NormalChars(t) && SingleSpaced(t) && (t == [] || (t[0] != ' ' && t[|t| - 1] != ' '))
  }

  predicate NormalChars(t: string) {
    forall i :: 0 <= i < |t| ==> NormalChar(t[i])
  }

  predicate SingleSpaced(t: string) {
    forall i :: 0 <= i < |t| - 1 ==> !(t[i] == ' ' && t[i + 1] == ' ')
  }

  lemma NormalizeIsNormal(s: string)
    ensures IsNormal(Normalize(s))
  {
    var c := Collapse(Scrub(s));
    CollapsedChars(Scrub(s));
    var t := Trim(c);
    var k :| OccursAt(c, t, k);
    SliceKeeps(c, t, k);
  }

  /** A slice of normalized characters, single spaced, is so too. */
  lemma SliceKeeps(c: string, t: string, k: int)
    requires OccursAt(c, t, k) && NormalChars(c) && SingleSpaced(c)
    ensures NormalChars(t) && SingleSpaced(t)
  {
    SliceAt(c, t, k);
  }

  /** Collapsing kept characters leaves only characters of the normal alphabet. */
  lemma CollapsedChars(sc: string)
    requires forall i :: 0 <= i < |sc| ==> Kept(sc[i])
    ensures NormalChars(Collapse(sc))
  {
    var c := Collapse(sc);
    forall i | 0 <= i < |c| ensures NormalChar(c[i]) {
      if c[i] != ' ' {
        var j :| 0 <= j < |sc| && sc[j] == c[i];
      }
    }
  }

  lemma SliceAt(c: string, t: string, k: int)
    requires OccursAt(c, t, k)
    ensures forall i :: 0 <= i < |t| ==> t[i] == c[k + i]
  {
  }

  lemma {:induction false} ScrubFixed(t: string)
    requires forall i :: 0 <= i < |t| ==> NormalChar(t[i])
    ensures Scrub(t) == t
  {
    if t != [] {
      assert NormalChar(t[0]);
      ScrubFixed(t[1..]);
      assert t == [t[0]] + t[1..];
    }
  }

  lemma {:induction false} CollapseFixed(t: string)
    requires forall i :: 0 <= i < |t| ==> NormalChar(t[i])
    requires forall i :: 0 <= i < |t| - 1 ==> !(t[i] == ' ' && t[i + 1] == ' ')
    ensures Collapse(t) == t
  {
    if t != [] {
      assert NormalChar(t[0]);
      assert |t| > 1 ==> NormalChar(t[1]);
      CollapseFixed(t[1..]);
      assert t == [t[0]] + t[1..];
    }
  }

  /** Normalized text is left as it is. */
  lemma NormalFixed(t: string)
    requires IsNormal(t)
    ensures Normalize(t) == t
  {
    ScrubFixed(t);
    CollapseFixed(t);
  }

  lemma NormalizeIdempotent(s: string)
    ensures Normalize(Normalize(s)) == Normalize(s)
  {
    NormalizeIsNormal(s);
    NormalFixed(Normalize(s));
  }

  // ---------------------------------------------------------------------------------------
  // extractNumbers

  predicate IsSep(c: char) { c == '.' || c == ',' }

  /** End of `\d{1,3}` at a digit: greedy, so up to three digits. */
  function LeadEnd(s: string, i: nat): (e: nat)
    requires i < |s| && IsDigit(s[i])
    ensures i < e <= i + 3 && e <= |s|
    ensures forall k :: i <= k < e ==> IsDigit(s[k])
    ensures e == i + 3 || e == |s| || !IsDigit(s[e])
  {
    var n := RunEnd(s, i);
    if n < i + 3 then n else i + 3
  }

  /** End of the greedy `(?:[.,]\d{3})*` starting at `j`. */
  function GroupsEnd(s: string, j: nat): (e: nat)
    requires j <= |s|
    ensures j <= e <= |s|
    decreases |s| - j
  {
    if j + 4 <= |s| && IsSep(s[j]) && IsDigit(s[j + 1]) && IsDigit(s[j + 2]) && IsDigit(s[j + 3])
    then GroupsEnd(s, j + 4)
    else j
  }

  /** End of the match of `\d{1,3}(?:[.,]\d{3})*(?:[.,]\d{2})?` at the digit `s[i]`: the first
      alternative of the number pattern, which always succeeds at a digit. */
  function TokenEnd(s: string, i: nat): (e: nat)
    requires i < |s| && IsDigit(s[i])
    ensures i < e <= |s|
  {
    var g := GroupsEnd(s, LeadEnd(s, i));
    if g + 3 <= |s| && IsSep(s[g]) && IsDigit(s[g + 1]) && IsDigit(s[g + 2]) then g + 3 else g
  }

  /** A separator that `(?!^)[.,](?=\d{3}(?:[.,]|$))` removes: not first, followed by three
      digits and then a separator or the end. */
  predicate Dropped(raw: string, j: nat) {
    0 < j && j + 4 <= |raw| && IsSep(raw[j]) && IsDigit(raw[j + 1]) && IsDigit(raw[j + 2]) && IsDigit(raw[j + 3])
    && (j + 4 == |raw| || IsSep(raw[j + 4]))
  }

  function CleanFrom(raw: string, j: nat): (r: string)
    ensures |r| <= |raw| - j || j >= |raw|
    decreases |raw| - j
  {
    if j >= |raw| then []
    else (if Dropped(raw, j) then [] else [raw[j]]) + CleanFrom(raw, j + 1)
  }

  /** The thousands separators removed from a captured number. */
  function Clean(raw: string): string {
    CleanFrom(raw, 0)
  }

  /** `parseFloat` of the captured text once thousands separators are removed and `,` is `.`. */
  function TokenValue(raw: string): Option<Decimal> {
    ParseFloat(ReplaceChar(Clean(raw), ',', '.'))
  }

  /** A captured number starts with a digit, so it always parses, to a non-negative value. */
  lemma TokenParses(raw: string)
    requires raw != [] && IsDigit(raw[0])
    ensures TokenValue(raw).Some? && !TokenValue(raw).value.negative
  {
    var c := Clean(raw);
    assert c == [raw[0]] + CleanFrom(raw, 1) by { assert !Dropped(raw, 0); }
    var t := ReplaceChar(c, ',', '.');
    assert t[0] == raw[0];
    ParseLeadingDigit(t);
  }

  /** The global scan of `regex.exec` from index `i`: each number found, in order. */
  function NumbersFrom(s: string, i: nat): (r: seq<Decimal>)
    ensures forall k :: 0 <= k < |r| ==> !r[k].negative
    decreases |s| - i
  {
    if i >= |s| then []
    else if !IsDigit(s[i]) then NumbersFrom(s, i + 1)
    else
      var e := TokenEnd(s, i);
      Captured(s[i..e]) + NumbersFrom(s, e)
  }

  /** What one match contributes: its value, unless `parseFloat` gives NaN, which it never
      does for a captured number. */
  function Captured(raw: string): (r: seq<Decimal>)
    requires raw != [] && IsDigit(raw[0])
    ensures |r| == 1 && !r[0].negative
  {
    TokenParses(raw);
    match TokenValue(raw)
    case Some(v) => [v]
    case None => []
  }

  /** One match of the scan at index `i`: the value it pushes and where the scan goes on. */
  lemma ScanStep(str: string, i: nat, e: nat, value: Option<Decimal>)
    requires i < |str| && IsDigit(str[i]) && e == TokenEnd(str, i)
    requires value == TokenValue(str[i..e])
    ensures value.Some? && NumbersFrom(str, i) == [value.value] + NumbersFrom(str, e)
  {
    TokenParses(str[i..e]);
  }

  /** `extractNumbers(str)`. */
  function NumbersOf(s: string): seq<Decimal> {
    NumbersFrom(s, 0)
  }

  /** The loop of `extractNumbers`: `regex.exec` until no match, pushing every value that is
      not NaN. */
  method ExtractNumbers(str: string) returns (matches: seq<Decimal>)
    ensures matches == NumbersOf(str)
    ensures forall k :: 0 <= k < |matches| ==> Value(matches[k]) >= 0.0
  {
    matches := [];
    var i := 0;
    while i < |str|
      invariant 0 <= i <= |str|
      invariant matches + NumbersFrom(str, i) == NumbersOf(str)
      decreases |str| - i
    {
      if IsDigit(str[i]) {
        var e := TokenEnd(str, i);
        var raw := str[i..e];
        var cleaned := Clean(raw);
        var normalized := ReplaceChar(cleaned, ',', '.');
        var value := ParseFloat(normalized);
        ScanStep(str, i, e, value);
        if value.Some? {
          matches := matches + [value.value];
        }
        i := e;
      } else {
        i := i + 1;
      }
    }
    NumbersAtEnd(str, i);
    assert matches == NumbersOf(str) by { assert matches + [] == matches; }
    assert Unsigned(NumbersOf(str));
    SignsOf(matches);
  }

  /** Numbers that are not negative have values that are not negative. */
  lemma SignsOf(nums: seq<Decimal>)
    requires Unsigned(nums)
    ensures forall k :: 0 <= k < |nums| ==> Value(nums[k]) >= 0.0
  {
    forall k | 0 <= k < |nums| ensures Value(nums[k]) >= 0.0 {
      ValueSign(nums[k]);
    }
  }

  /** On a string of digits a number is captured three digits at a time. */
  lemma {:induction false} DigitChunks(s: string, i: nat)
    requires AllDigits(s) && i <= |s|
    ensures |NumbersFrom(s, i)| == (|s| - i + 2) / 3
    decreases |s| - i
  {
    if i < |s| {
      var e := DigitChunk(s, i);
      DigitChunks(s, e);
    }
  }

  /** The first number captured from a string of digits is its first three digits (or fewer,
      at the end). */
  lemma DigitChunk(s: string, i: nat) returns (e: nat)
    requires AllDigits(s) && i < |s|
    ensures e == (if |s| - i < 3 then |s| else i + 3)
    ensures NumbersFrom(s, i) == [Decimal(false, DigitsValue(s[i..e]), 0)] + NumbersFrom(s, e)
  {
    e := TokenEndInDigits(s, i);
    DigitsToken(s[i..e]);
    assert Captured(s[i..e]) == [Decimal(false, DigitsValue(s[i..e]), 0)];
  }

  lemma TokenEndInDigits(s: string, i: nat) returns (e: nat)
    requires AllDigits(s) && i < |s|
    ensures e == TokenEnd(s, i) && e == (if |s| - i < 3 then |s| else i + 3)
  {
    var le := LeadEnd(s, i);
    assert GroupsEnd(s, le) == le;
    e := le;
  }

  /** A run of digits is read by `parseFloat` as the integer it denotes. */
  lemma DigitsToken(raw: string)
    requires raw != [] && AllDigits(raw)
    ensures TokenValue(raw).Some? && TokenValue(raw).value == Decimal(false, DigitsValue(raw), 0)
  {
    assert forall j :: 0 <= j < |raw| ==> !Dropped(raw, j);
    CleanAll(raw, 0);
    assert ReplaceChar(raw, ',', '.') == raw;
    ParseDigits(raw);
  }

  lemma {:induction false} CleanAll(raw: string, j: nat)
    requires j <= |raw|
    requires forall k :: j <= k < |raw| ==> !Dropped(raw, k)
    ensures CleanFrom(raw, j) == raw[j..]
    decreases |raw| - j
  {
    if j < |raw| {
      CleanAll(raw, j + 1);
    }
  }

  /** Four digits are captured as two numbers: the first three digits, then the last. */
  lemma FourDigitRun(s: string)
    requires |s| == 4 && AllDigits(s)
    ensures |NumbersOf(s)| == 2
    ensures NumbersOf(s)[0] == Decimal(false, DigitsValue(s[..3]), 0)
    ensures NumbersOf(s)[1] == Decimal(false, DigitValue(s[3]), 0)
  {
    var n0, n3, n4 := NumbersFrom(s, 0), NumbersFrom(s, 3), NumbersFrom(s, 4);
    NumbersAtEnd(s, 4);
    ChunkOf(s, 3, 4);
    OneDigit(s[3..4]);
    assert n3 == [Decimal(false, DigitValue(s[3]), 0)];
    ChunkOf(s, 0, 3);
    assert s[0..3] == s[..3];
  }

  /** `DigitChunk` with the end of the chunk given. */
  lemma ChunkOf(s: string, i: nat, e: nat)
    requires AllDigits(s) && i < e <= |s| && e == (if |s| - i < 3 then |s| else i + 3)
    ensures NumbersFrom(s, i) == [Decimal(false, DigitsValue(s[i..e]), 0)] + NumbersFrom(s, e)
  {
    var e' := DigitChunk(s, i);
  }

  /** "4500" yields 450 and 0. */
  lemma FourDigitsSplit(s: string)
    requires |s| == 4 && s[0] == '4' && s[1] == '5' && s[2] == '0' && s[3] == '0'
    ensures |NumbersOf(s)| == 2
    ensures NumbersOf(s)[0] == Decimal(false, 450, 0) && NumbersOf(s)[1] == Decimal(false, 0, 0)
  {
    assert AllDigits(s);
    FourDigitRun(s);
    ThreeDigits(s[..3]);
  }

  lemma NumbersAtEnd(s: string, i: nat)
    requires i >= |s|
    ensures NumbersFrom(s, i) == []
  {
  }

  lemma OneDigit(t: string)
    requires |t| == 1 && AllDigits(t)
    ensures DigitsValue(t) == DigitValue(t[0])
  {
    assert t[..0] == [];
  }

  lemma TwoDigits(t: string)
    requires |t| == 2 && AllDigits(t)
    ensures DigitsValue(t) == 10 * DigitValue(t[0]) + DigitValue(t[1])
  {
    var t1 := t[..1];
    OneDigit(t1);
  }

  lemma ThreeDigits(t: string)
    requires |t| == 3 && AllDigits(t)
    ensures DigitsValue(t) == 100 * DigitValue(t[0]) + 10 * DigitValue(t[1]) + DigitValue(t[2])
  {
    var t2 := t[..2];
    TwoDigits(t2);
  }

  /** "1.234,56" yields 1234.56: the thousands point is dropped and the decimal comma read. */
  lemma BrazilianAmount(s: string)
    requires s == "1.234,56"
    ensures NumbersOf(s) == [Decimal(false, 123456, -2)]
  {
    BrazilianEnd(s);
    assert s[0..8] == s;
    BrazilianValue(s);
    assert NumbersFrom(s, 8) == [];
    assert NumbersFrom(s, 0) == Captured(s) + NumbersFrom(s, 8);
  }

  lemma BrazilianEnd(s: string)
    requires s == "1.234,56"
    ensures TokenEnd(s, 0) == 8
  {
    assert LeadEnd(s, 0) == 1 by {
      assert RunEnd(s, 1) == 1;
    }
    assert GroupsEnd(s, 5) == 5;
    assert GroupsEnd(s, 1) == 5;
  }

  lemma BrazilianValue(raw: string)
    requires raw == "1.234,56"
    ensures Captured(raw) == [Decimal(false, 123456, -2)]
  {
    BrazilianClean(raw);
    var t := ReplaceChar("1234,56", ',', '.');
    assert t == "1234.56";
    BrazilianParse(t);
  }

  lemma BrazilianClean(raw: string)
    requires raw == "1.234,56"
    ensures Clean(raw) == "1234,56"
  {
    var tail := CleanFrom(raw, 5);
    assert tail == ",56" by { BrazilianCleanTail(raw); }
    assert Dropped(raw, 1);
    assert CleanFrom(raw, 1) == CleanFrom(raw, 2);
    KeepOne(raw, 4);
    KeepOne(raw, 3);
    KeepOne(raw, 2);
    KeepOne(raw, 0);
  }

  lemma BrazilianCleanTail(raw: string)
    requires raw == "1.234,56"
    ensures CleanFrom(raw, 5) == ",56"
  {
    assert CleanFrom(raw, 8) == [];
    KeepOne(raw, 7);
    KeepOne(raw, 6);
    KeepOne(raw, 5);
  }

  /** A character that is not a dropped separator is kept. */
  lemma KeepOne(raw: string, j: nat)
    requires j < |raw| && !Dropped(raw, j)
    ensures CleanFrom(raw, j) == [raw[j]] + CleanFrom(raw, j + 1)
  {
  }

  lemma BrazilianParse(t: string)
    requires t == "1234.56"
    ensures ParseFloat(t).Some? && ParseFloat(t).value == Decimal(false, 123456, -2)
  {
    BrazilianDigits(t);
    assert t[5..] == t[5..7];
    assert AllDigits(t[..4]) && AllDigits(t[5..]);
    ParsePointAt(t, 4, 123456, -2);
  }

  lemma BrazilianDigits(t: string)
    requires t == "1234.56"
    ensures DigitsValue(t[..4]) == 1234 && DigitsValue(t[5..7]) == 56
  {
    var a, b := t[..4], t[5..7];
    assert a[..3] == t[..3];
    ThreeDigits(t[..3]);
    assert DigitsValue(a) == DigitsValue(a[..3]) * 10 + 4;
    TwoDigits(b);
  }

  // ---------------------------------------------------------------------------------------
  // Word tests: `\b(w1|w2|...)\b`

  /** `\b` at index `i`: exactly one of the neighbouring characters is a word character. */
  predicate Boundary(s: string, i: int)
    requires 0 <= i <= |s|
  {
    (i > 0 && IsWordChar(s[i - 1])) != (i < |s| && IsWordChar(s[i]))
  }

  /** `w` occurs at `i` with a word boundary on both sides. */
  predicate WordAt(s: string, w: string, i: int) {
    OccursAt(s, w, i) && Boundary(s, i) && Boundary(s, i + |w|)
  }

  predicate HasWord(s: string, w: string) {
    exists i | 0 <= i <= |s| - |w| :: WordAt(s, w, i)
  }

  /** `/\b(w1|...|wn)\b/.test(s)`: some alternative occurs as a whole word somewhere. */
  predicate AnyWord(s: string, ws: seq<string>) {
    exists k | 0 <= k < |ws| :: HasWord(s, ws[k])
  }

  /** A word with a character that `s` does not contain does not occur in `s`. */
  lemma Absent(s: string, w: string, j: nat)
    requires j < |w| && w[j] !in s
    ensures !HasWord(s, w)
  {
    forall i | 0 <= i <= |s| - |w| ensures !OccursAt(s, w, i) {
      assert s[i + j] in s;
    }
  }

  predicate Foreign(s: string, w: string) {
    exists j | 0 <= j < |w| :: w[j] !in s
  }

  /** No alternative occurs when each has a character `s` lacks. */
  lemma NoneOf(s: string, ws: seq<string>)
    requires forall k | 0 <= k < |ws| :: Foreign(s, ws[k])
    ensures !AnyWord(s, ws)
  {
    forall k | 0 <= k < |ws| ensures !HasWord(s, ws[k]) {
      var j :| 0 <= j < |ws[k]| && ws[k][j] !in s;
      Absent(s, ws[k], j);
    }
  }

  const HelpWords := ["ajuda", "help", "comandos"]
  const MenuWords := ["menu", "opcoes", "buttons", "botoes"]
  const ReportWords := ["relatorio", "resumo", "status"]
  const GoalWords := ["meta", "objetivo", "goal", "target"]
  const SalaryWords := ["salario", "salary", "recebi", "ganhei", "pay", "payment", "deposito", "pagamento"]
  const ExpenseWords := ["gasto", "gastei", "despesa", "comprei", "paguei", "custou", "spent", "expense", "buy", "bought", "cost"]
  const OvertimeWords := ["hora extra", "horaextra", "extras", "overtime"]
  const LeaveWords := ["folga", "descanso", "ferias", "day off", "leave", "pto"]
  const WorkedWords := ["trabalhei", "dia trabalhado", "workday", "worked today", "worked"]
  const LeaveBankWords := ["banco de folgas", "banco folgas", "folgas saldo", "leave bank"]
  const CategoryWords := ["categorias", "gastos por categoria", "category breakdown", "categories"]
  const ForecastWords := ["previsao", "previsao proximo mes", "prever", "forecast", "prediction"]
  const HistoryWords := ["historico", "historico de", "history", "historical"]
  const CsvWords := ["exportar csv", "csv", "planilha", "exportar planilha", "export csv", "spreadsheet"]
  const PdfWords := ["exportar pdf", "pdf relatorio", "export pdf"]
  const DailyOnWords := ["ativar notificacoes diarias", "enable daily notifications"]
  const DailyOffWords := ["desativar notificacoes diarias", "disable daily notifications"]
  const WeeklyOnWords := ["ativar notificacoes semanais", "enable weekly notifications"]
  const WeeklyOffWords := ["desativar notificacoes semanais", "disable weekly notifications"]
  const EnglishWords := ["idioma ingles", "english language", "set english", "english"]
  const PortugueseWords := ["idioma portugues", "portuguese language", "set portuguese", "portugues"]
  const InsightOnWords := ["ativar insights", "enable insights"]
  const InsightOffWords := ["desativar insights", "disable insights"]
  const NotifyHourWords := ["hora notificacao", "hora notificar", "notification hour", "notify hour"]

  // ---------------------------------------------------------------------------------------
  // extractDate, the month tokens and extractCategory

  /** The fixed-length patterns the resolver searches for. */
  datatype Pattern =
    | DatePattern         // 20\d{2}-\d{2}-\d{2}
    | MonthPattern        // 20\d{2}-\d{2}
    | ReportMonthPattern  // 20\d{2}[-](0[1-9]|1[0-2])

  function PatternLength(p: Pattern): nat {
    if p.DatePattern? then 10 else 7
  }

  predicate IsMonthText(t: string) {
    |t| == 7 && t[0] == '2' && t[1] == '0' && IsDigit(t[2]) && IsDigit(t[3]) && t[4] == '-'
    && IsDigit(t[5]) && IsDigit(t[6])
  }

  predicate Matches(p: Pattern, t: string) {
    match p
    case DatePattern =>
      |t| == 10 && IsMonthText(t[..7]) && t[7] == '-' && IsDigit(t[8]) && IsDigit(t[9])
    case MonthPattern => IsMonthText(t)
    case ReportMonthPattern =>
      IsMonthText(t) && ((t[5] == '0' && t[6] != '0') || (t[5] == '1' && '0' <= t[6] <= '2'))
  }

  /** `p` matches the characters of `s` from `j`. */
  predicate MatchAt(p: Pattern, s: string, j: int) {
    0 <= j && j + PatternLength(p) <= |s| && Matches(p, s[j..j + PatternLength(p)])
  }

  /** The leftmost match of `p` from index `i`. */
  function FirstAt(s: string, i: nat, p: Pattern): (r: Option<nat>)
    ensures r.Some? ==> i <= r.value && MatchAt(p, s, r.value)
    ensures r.Some? ==> forall j :: i <= j < r.value ==> !MatchAt(p, s, j)
    ensures r.None? ==> forall j :: i <= j ==> !MatchAt(p, s, j)
    decreases |s| - i
  {
    if i + PatternLength(p) > |s| then None
    else if MatchAt(p, s, i) then Some(i)
    else FirstAt(s, i + 1, p)
  }

  /** `s.match(p)`: the text of the leftmost match, if any. */
  function FirstText(s: string, p: Pattern): (r: Option<string>)
    ensures r.Some? ==> exists k :: 0 <= k && MatchAt(p, s, k) && r.value == s[k..k + PatternLength(p)]
                                 && (forall j :: 0 <= j < k ==> !MatchAt(p, s, j))
    ensures r.None? <==> forall j :: 0 <= j ==> !MatchAt(p, s, j)
  {
    match FirstAt(s, 0, p)
    case None => None
    case Some(j) => Some(s[j..j + PatternLength(p)])
  }

  /** `extractDate`: the first `20dd-dd-dd` in the text. */
  function ExtractDate(text: string): Option<string> {
    FirstText(text, DatePattern)
  }

  /** The month of a report phrase: the first `20YY-MM` with month 01 to 12. */
  function ReportMonth(text: string): Option<string> {
    FirstText(text, ReportMonthPattern)
  }

  /** `text.match(/(20\d{2}-\d{2})/g)` from index `i`: all non-overlapping month tokens, left
      to right. */
  function MonthTokensFrom(s: string, i: nat): (r: seq<string>)
    ensures forall k :: 0 <= k < |r| ==> IsMonthText(r[k])
    decreases |s| - i
  {
    match FirstAt(s, i, MonthPattern)
    case None => []
    case Some(j) => [s[j..j + 7]] + MonthTokensFrom(s, j + 7)
  }

  /** End of the run of word characters starting at `i`. */
  function WordRun(s: string, i: nat): (e: nat)
    requires i <= |s|
    ensures i <= e <= |s|
    ensures forall k :: i <= k < e ==> IsWordChar(s[k])
    ensures e == |s| || !IsWordChar(s[e])
    decreases |s| - i
  {
    if i < |s| && IsWordChar(s[i]) then WordRun(s, i + 1) else i
  }

  /** The first match of `/#([a-z0-9_]+)/i` from `i`: the index of `#` and the end of the tag. */
  function TagFrom(s: string, i: nat): (r: Option<(nat, nat)>)
    ensures r.Some? ==> i <= r.value.0 && r.value.0 + 1 < r.value.1 <= |s| && s[r.value.0] == '#'
    ensures r.Some? ==> forall k :: r.value.0 < k < r.value.1 ==> IsWordChar(s[k])
    ensures r.Some? ==> r.value.1 == |s| || !IsWordChar(s[r.value.1])
    ensures r.Some? ==> forall j :: i <= j < r.value.0 ==> !(s[j] == '#' && j + 1 < |s| && IsWordChar(s[j + 1]))
    ensures r.None? ==> forall j :: i <= j < |s| ==> !(s[j] == '#' && j + 1 < |s| && IsWordChar(s[j + 1]))
    decreases |s| - i
  {
    if i >= |s| then None
    else if s[i] == '#' && i + 1 < |s| && IsWordChar(s[i + 1]) then Some((i, WordRun(s, i + 1)))
    else TagFrom(s, i + 1)
  }

  /** `extractCategory`: the first tag, without the `#`. */
  function ExtractCategory(text: string): (r: Option<string>)
    ensures r.Some? ==> r.value != [] && forall k :: 0 <= k < |r.value| ==> IsWordChar(r.value[k])
  {
    match TagFrom(text, 0)
    case None => None
    case Some((j, e)) => Some(text[j + 1..e])
  }

  // ---------------------------------------------------------------------------------------
  // The description of an expense phrase

  /** `replace(/#([a-z0-9_]+)/i, '')`: only the first tag goes. */
  function RemoveTag(s: string): (r: string)
    ensures |r| <= |s|
  {
    match TagFrom(s, 0)
    case None => s
    case Some((j, e)) => s[..j] + s[e..]
  }

  /** Index after the white space starting at `i`. */
  function SpaceRun(s: string, i: nat): (e: nat)
    requires i <= |s|
    ensures i <= e <= |s| && (e == |s| || !IsSpace(s[e]))
    decreases |s| - i
  {
    if i < |s| && IsSpace(s[i]) then SpaceRun(s, i + 1) else i
  }

  /** `r$`, any white space and then a digit at `i` (case-insensitive `r`). */
  predicate MoneyPrefix(s: string, i: nat) {
    i + 2 <= |s| && (s[i] == 'r' || s[i] == 'R') && s[i + 1] == '$'
    && SpaceRun(s, i + 2) < |s| && IsDigit(s[SpaceRun(s, i + 2)])
  }

  /** The global number replace on the original text, from index `i`: every number, with its
      `R$` prefix, removed; nothing else changes. */
  function RemoveNumbersFrom(s: string, i: nat): (r: string)
    ensures NoDigit(r)
    decreases |s| - i
  {
    if i >= |s| then []
    else if MoneyPrefix(s, i) then RemoveNumbersFrom(s, TokenEnd(s, SpaceRun(s, i + 2)))
    else if IsDigit(s[i]) then RemoveNumbersFrom(s, TokenEnd(s, i))
    else [s[i]] + RemoveNumbersFrom(s, i + 1)
  }

  /** `w` at `i` ignoring ASCII case, as a whole word. */
  predicate CaseWordAt(s: string, w: string, i: nat) {
    w != [] && i + |w| <= |s| && Lower(s[i..i + |w|]) == w && Boundary(s, i) && Boundary(s, i + |w|)
  }

  /** Length of the first alternative of `ws` (from `k`) that matches at `i`. */
  function KeywordAt(s: string, i: nat, ws: seq<string>, k: nat): (r: Option<nat>)
    ensures r.Some? ==> 0 < r.value && i + r.value <= |s|
    ensures r.Some? <==> exists m :: k <= m < |ws| && CaseWordAt(s, ws[m], i)
    decreases |ws| - k
  {
    if k >= |ws| then None
    else if CaseWordAt(s, ws[k], i) then Some(|ws[k]|)
    else KeywordAt(s, i, ws, k + 1)
  }

  /** The global keyword replace `/\b(gasto|...|cost)\b/gi`, from index `i`. */
  function RemoveKeywordsFrom(s: string, i: nat): (r: string)
    ensures NoDigit(s) ==> NoDigit(r)
    decreases |s| - i
  {
    if i >= |s| then []
    else match KeywordAt(s, i, ExpenseWords, 0)
      case Some(n) => RemoveKeywordsFrom(s, i + n)
      case None => [s[i]] + RemoveKeywordsFrom(s, i + 1)
  }

  predicate NoDigit(s: string) {
    forall k :: 0 <= k < |s| ==> !IsDigit(s[k])
  }

  /** The description of an expense phrase: the original text without its first tag, its
      numbers and its expense keywords, trimmed; `gasto` when nothing is left. */
  function Description(original: string): (r: string)
    ensures r != [] && !IsSpace(r[0]) && !IsSpace(r[|r| - 1])
    ensures NoDigit(r)
  {
    var stripped := Stripped(original);
    TrimNoDigit(stripped);
    var d := Trim(stripped);
    if d == [] then DefaultDescription() else d
  }

  /** `gasto`, the description of an expense phrase that has nothing else. */
  function DefaultDescription(): (r: string)
    ensures r != [] && !IsSpace(r[0]) && !IsSpace(r[|r| - 1]) && NoDigit(r)
  {
    var g := "gasto";
    assert forall k :: 0 <= k < |g| ==> g[k] in "agost";
    g
  }

  /** The original text with its first tag, its numbers and its expense keywords removed. */
  function Stripped(original: string): (r: string)
    ensures NoDigit(r)
  {
    var plain := RemoveNumbersFrom(RemoveTag(original), 0);
    RemoveKeywordsFrom(plain, 0)
  }

  lemma TrimNoDigit(s: string)
    requires NoDigit(s)
    ensures NoDigit(Trim(s))
  {
    var d := Trim(s);
    var k :| OccursAt(s, d, k);
    assert forall m :: 0 <= m < |d| ==> d[m] == s[k + m];
  }

  // ---------------------------------------------------------------------------------------
  // interpret

  /** The command names a rule can produce. */
  datatype Cmd =
    | Ajuda | Menu | RelatorioMes | Relatorio | Meta | Salario | Gasto | HoraExtra | Folga
    | Trabalhei | BancoFolgas | Categorias | Previsao | Historico | ExportCsv | ExportPdf
    | Notificar | Idioma | Insight

  /** The text of a command name. */
  function Name(c: Cmd): (n: string)
    ensures CommandName(n)
  {
    match c
    case Ajuda => "!ajuda"
    case Menu => "!menu"
    case RelatorioMes => "!relatoriomes"
    case Relatorio => "!relatorio"
    case Meta => "!meta"
    case Salario => "!salario"
    case Gasto => "!gasto"
    case HoraExtra => "!horaextra"
    case Folga => "!folga"
    case Trabalhei => "!trabalhei"
    case BancoFolgas => "!bancofolgas"
    case Categorias => "!categorias"
    case Previsao => "!previsao"
    case Historico => "!historico"
    case ExportCsv => "!exportcsv"
    case ExportPdf => "!exportpdf"
    case Notificar => "!notificar"
    case Idioma => "!idioma"
    case Insight => "!insight"
  }

  /** A command name: `!` and lower-case letters, so it is its own first word. */
  predicate CommandName(n: string) {
    |n| >= 2 && n[0] == '!' && forall i :: 1 <= i < |n| ==> IsLowerAscii(n[i])
  }

  /** Arguments of a command line: nothing, or text after a space. */
  predicate ArgsText(args: string) {
    args == [] || args[0] == ' '
  }

  /** What `interpret` gives back: the command line `name + args` it returns, `null`, or the
      exception the notification-hour rule throws (it calls a function that is not defined). */
  datatype Outcome = Command(cmd: Cmd, args: string) | NoCommand | Crash

  /** The command text `interpret` returns. */
  function Line(o: Outcome): string
    requires o.Command?
  {
    Name(o.cmd) + o.args
  }

  /** The rules of the table, one per test, in the order they are tried. */
  datatype Rule =
    | HelpR | MenuR | ReportR | GoalR | SalaryR | ExpenseR | OvertimeR | LeaveR | WorkedR
    | LeaveBankR | CategoriesR | ForecastR | HistoryR | CsvR | PdfR
    | DailyOnR | DailyOffR | WeeklyOnR | WeeklyOffR | EnglishR | PortugueseR
    | InsightOnR | InsightOffR | NotifyHourR

  const Rules: seq<Rule> := [
    HelpR, MenuR, ReportR, GoalR, SalaryR, ExpenseR, OvertimeR, LeaveR, WorkedR,
    LeaveBankR, CategoriesR, ForecastR, HistoryR, CsvR, PdfR,
    DailyOnR, DailyOffR, WeeklyOnR, WeeklyOffR, EnglishR, PortugueseR,
    InsightOnR, InsightOffR, NotifyHourR]

  /** The keyword alternation a rule tests with `\b(...)\b`. */
  function Keywords(rule: Rule): seq<string> {
    match rule
    case HelpR => HelpWords
    case MenuR => MenuWords
    case ReportR => ReportWords
    case GoalR => GoalWords
    case SalaryR => SalaryWords
    case ExpenseR => ExpenseWords
    case OvertimeR => OvertimeWords
    case LeaveR => LeaveWords
    case WorkedR => WorkedWords
    case LeaveBankR => LeaveBankWords
    case CategoriesR => CategoryWords
    case ForecastR => ForecastWords
    case HistoryR => HistoryWords
    case CsvR => CsvWords
    case PdfR => PdfWords
    case DailyOnR => DailyOnWords
    case DailyOffR => DailyOffWords
    case WeeklyOnR => WeeklyOnWords
    case WeeklyOffR => WeeklyOffWords
    case EnglishR => EnglishWords
    case PortugueseR => PortugueseWords
    case InsightOnR => InsightOnWords
    case InsightOffR => InsightOffWords
    case NotifyHourR => NotifyHourWords
  }

  /** The test of a rule on the normalized text; the goal rule also accepts the phrases
      `quero ganhar` and `quero receber` anywhere. */
  predicate Fires(rule: Rule, text: string) {
    AnyWord(text, Keywords(rule))
    || (rule == GoalR && (Contains(text, "quero ganhar") || Contains(text, "quero receber")))
  }

  /** Which rules of the table fire on the text, in table order. */
  function Firing(text: string): (f: seq<bool>)
    ensures |f| == |Rules|
  {
    seq(|Rules|, j requires 0 <= j < |Rules| => Fires(Rules[j], text))
  }

  /** The first position, from `k` on, whose flag is set: the rules are tried top to bottom
      and the first that fires decides. */
  function FirstSet(flags: seq<bool>, k: nat): (r: Option<nat>)
    ensures r.Some? ==> k <= r.value < |flags| && flags[r.value]
    ensures r.Some? ==> forall j :: k <= j < r.value ==> !flags[j]
    ensures r.None? ==> forall j :: k <= j < |flags| ==> !flags[j]
    decreases |flags| - k
  {
    if k >= |flags| then None
    else if flags[k] then Some(k)
    else FirstSet(flags, k + 1)
  }

  /** The flags pick the first rule of the table that fires, and none when no rule fires. */
  lemma FirstFiring(text: string)
    ensures FirstSet(Firing(text), 0).Some? ==>
      var j := FirstSet(Firing(text), 0).value;
      j < |Rules| && Fires(Rules[j], text) && forall i :: 0 <= i < j ==> !Fires(Rules[i], text)
    ensures FirstSet(Firing(text), 0).None? ==> forall i :: 0 <= i < |Rules| ==> !Fires(Rules[i], text)
  {
    var f := Firing(text);
    forall i | 0 <= i < |Rules| ensures f[i] == Fires(Rules[i], text) {
    }
  }

  /** ` ${date}` when the text holds a date, nothing otherwise. */
  function DateSuffix(text: string): (r: string)
    ensures r == [] || r[0] == ' '
  {
    match ExtractDate(text)
    case Some(d) => " " + d
    case None => ""
  }

  /** The value of an expense phrase: the first number, or the last one when the first is
      zero; `None` when no non-zero value is left. */
  function ExpenseValue(nums: seq<Decimal>): (r: Option<Decimal>)
    ensures r.Some? ==> nums != [] && r.value.mantissa != 0
    ensures r.Some? ==> r.value == nums[0] || r.value == nums[|nums| - 1]
    ensures r.None? <==> (nums == [] || (nums[0].mantissa == 0 && nums[|nums| - 1].mantissa == 0))
    ensures nums != [] && nums[0].mantissa != 0 ==> r == Some(nums[0])
  {
    if nums == [] then None
    else if nums[0].mantissa != 0 then Some(nums[0])
    else if nums[|nums| - 1].mantissa != 0 then Some(nums[|nums| - 1])
    else None
  }

  /** Numbers as `extractNumbers` captures them, never negative. */
  predicate Unsigned(nums: seq<Decimal>) {
    forall k :: 0 <= k < |nums| ==> !nums[k].negative
  }

  /** The report rule: the monthly report when the text holds a `YYYY-MM` month. */
  function ReportCommand(text: string): (r: Outcome)
    ensures r.Command? && ArgsText(r.args)
    ensures ReportMonth(text).Some? ==> r == Command(RelatorioMes, " " + ReportMonth(text).value)
    ensures ReportMonth(text).None? ==> r == Command(Relatorio, "")
  {
    match ReportMonth(text)
    case Some(m) => Command(RelatorioMes, " " + m)
    case None => Command(Relatorio, "")
  }

  /** The goal rule: the first number, or `0` when there is none. */
  function GoalCommand(nums: seq<Decimal>): (r: Outcome)
    requires Unsigned(nums)
    ensures r.Command? && r.cmd == Meta && ArgsText(r.args)
    ensures nums == [] ==> r.args == " 0"
    ensures nums != [] ==> r.args == " " + Show(nums[0])
  {
    if nums != [] then Command(Meta, " " + Show(nums[0])) else Command(Meta, " 0")
  }

  /** The salary rule: the first number; nothing without a number. */
  function SalaryCommand(nums: seq<Decimal>): (r: Outcome)
    requires Unsigned(nums)
    ensures r.Command? <==> nums != []
    ensures r.Command? ==> r.cmd == Salario && r.args == " " + Show(nums[0])
    ensures !r.Command? ==> r.NoCommand?
  {
    if nums != [] then Command(Salario, " " + Show(nums[0])) else NoCommand
  }

  /** The expense rule: value, description and, when the text names one, the `#category`. */
  function ExpenseCommand(original: string, text: string, nums: seq<Decimal>): (r: Outcome)
    requires Unsigned(nums)
    ensures r.Command? <==> ExpenseValue(nums).Some?
    ensures r.Command? ==> r.cmd == Gasto && ArgsText(r.args)
    ensures !r.Command? ==> r.NoCommand?
  {
    match ExpenseValue(nums)
    case None => NoCommand
    case Some(v) =>
      var tag := match ExtractCategory(text) case Some(c) => " #" + c case None => "";
      Command(Gasto, " " + Show(v) + " " + Description(original) + tag)
  }

  /** The overtime rule: a non-zero first number, then the date when there is one. */
  function OvertimeCommand(text: string, nums: seq<Decimal>): (r: Outcome)
    requires Unsigned(nums)
    ensures r.Command? <==> nums != [] && nums[0].mantissa != 0
    ensures r.Command? ==> r.cmd == HoraExtra && r.args == " " + Show(nums[0]) + DateSuffix(text)
    ensures !r.Command? ==> r.NoCommand?
  {
    if nums == [] || nums[0].mantissa == 0 then NoCommand
    else Command(HoraExtra, " " + Show(nums[0]) + DateSuffix(text))
  }

  /** The history rule: the first two `YYYY-MM` tokens; nothing with fewer. */
  function HistoryCommand(text: string): (r: Outcome)
    ensures r.Command? <==> |MonthTokensFrom(text, 0)| >= 2
    ensures r.Command? ==> r.cmd == Historico && ArgsText(r.args)
    ensures !r.Command? ==> r.NoCommand?
  {
    var months := MonthTokensFrom(text, 0);
    if |months| >= 2 then Command(Historico, " " + months[0] + " " + months[1]) else NoCommand
  }

  /** What a rule that fired returns, given the trimmed original text and its normalized
      form. */
  function Apply(rule: Rule, original: string, text: string): (r: Outcome)
    ensures r.Command? ==> ArgsText(r.args)
    ensures r.Crash? <==> rule == NotifyHourR
  {
    match rule
    case HelpR => Command(Ajuda, "")
    case MenuR => Command(Menu, "")
    case ReportR => ReportCommand(text)
    case GoalR => GoalCommand(NumbersOf(text))
    case SalaryR => SalaryCommand(NumbersOf(text))
    case ExpenseR => ExpenseCommand(original, text, NumbersOf(text))
    case OvertimeR => OvertimeCommand(text, NumbersOf(text))
    case LeaveR => Command(Folga, DateSuffix(text))
    case WorkedR => Command(Trabalhei, DateSuffix(text))
    case LeaveBankR => Command(BancoFolgas, "")
    case CategoriesR => Command(Categorias, "")
    case ForecastR => Command(Previsao, "")
    case HistoryR => HistoryCommand(text)
    case CsvR => Command(ExportCsv, "")
    case PdfR => Command(ExportPdf, "")
    case DailyOnR => Command(Notificar, " diaria sim")
    case DailyOffR => Command(Notificar, " diaria nao")
    case WeeklyOnR => Command(Notificar, " semanal sim")
    case WeeklyOffR => Command(Notificar, " semanal nao")
    case EnglishR => Command(Idioma, " en")
    case PortugueseR => Command(Idioma, " pt")
    case InsightOnR => Command(Insight, " sim")
    case InsightOffR => Command(Insight, " nao")
    case NotifyHourR => Crash
  }

  /** The normalized form of the trimmed input, which every rule tests. */
  function TextOf(raw: string): string {
    Normalize(Trim(raw))
  }

  /** The position in the table of the rule that decides `interpret(raw)`: none for the empty
      string, otherwise the first rule that fires. */
  function Resolve(raw: string): (r: Option<nat>)
    ensures r.Some? ==> r.value < |Rules|
  {
    if raw == [] then None else FirstSet(Firing(TextOf(raw)), 0)
  }

  /** `interpret(raw)`. */
  function Interpret(raw: string): (r: Outcome)
    ensures r.Command? ==> ArgsText(r.args)
    ensures raw == [] ==> r.NoCommand?
  {
    match Resolve(raw)
    case None => NoCommand
    case Some(j) => Apply(Rules[j], Trim(raw), TextOf(raw))
  }

  /** Text with the word `ajuda`, `help` or `comandos` asks for help, before any other rule. */
  lemma HelpWins(raw: string)
    requires AnyWord(TextOf(raw), HelpWords)
    ensures Interpret(raw).Command? && Interpret(raw).cmd == Ajuda && Interpret(raw).args == []
  {
    if raw == [] {
      EmptyText();
      assert false;
    }
    FirstRuleAtStart(TextOf(raw));
    InterpretBy(raw, 0);
  }

  /** `interpret` applies the rule that `Resolve` picks to the trimmed and normalized text. */
  lemma InterpretBy(raw: string, j: nat)
    requires Resolve(raw).Some? && Resolve(raw).value == j
    ensures j < |Rules| && Interpret(raw) == Apply(Rules[j], Trim(raw), TextOf(raw))
  {
  }

  /** `interpret` is decided by the first rule of the table that fires. */
  lemma InterpretFirst(raw: string, j: nat)
    requires raw != [] && j < |Rules| && Fires(Rules[j], TextOf(raw))
    requires forall i :: 0 <= i < j ==> !Fires(Rules[i], TextOf(raw))
    ensures Interpret(raw) == Apply(Rules[j], Trim(raw), TextOf(raw))
  {
    FirstFiring(TextOf(raw));
    assert Resolve(raw).Some?;
    var r := Resolve(raw).value;
    assert r == j;
    InterpretBy(raw, j);
  }

  /** Text on which no rule fires is not a command. */
  lemma NoRuleNoCommand(raw: string)
    requires forall i :: 0 <= i < |Rules| ==> !Fires(Rules[i], TextOf(raw))
    ensures Interpret(raw).NoCommand?
  {
    FirstFiring(TextOf(raw));
  }

  /** A command name is a single word. */
  lemma NameWord(c: Cmd)
    ensures Name(c) != [] && forall i :: 0 <= i < |Name(c)| ==> !IsSpace(Name(c)[i])
  {
    assert CommandName(Name(c));
  }

  /** The first word of a command line is its command name, which is what the dispatcher
      looks at. */
  lemma CommandHead(o: Outcome)
    requires o.Command? && ArgsText(o.args)
    ensures SplitArgs(Line(o))[0] == Name(o.cmd)
  {
    NameWord(o.cmd);
    WordsAfter(Name(o.cmd), o.args);
  }

  /** A command with one number splits into its name and the printed number. */
  lemma NumberLine(c: Cmd, d: Decimal)
    requires !d.negative
    ensures SplitArgs(Name(c) + " " + Show(d)) == [Name(c), Show(d)]
  {
    var w := Show(d);
    ShowChars(d);
    NameWord(c);
    SpacedWord(w);
    WordsAfter(Name(c), " " + w);
    assert Name(c) + " " + w == Name(c) + (" " + w);
  }

  /** A space and then one word split into that word. */
  lemma SpacedWord(w: string)
    requires w != [] && forall i :: 0 <= i < |w| ==> !IsSpace(w[i])
    ensures Words(" " + w) == [w]
  {
    assert (" " + w)[1..] == w;
    WordsAfter(w, []);
    assert w + [] == w;
  }

  /** The first rule of the table decides whenever it fires. */
  lemma FirstRuleAtStart(text: string)
    requires AnyWord(text, HelpWords)
    ensures FirstSet(Firing(text), 0).Some? && FirstSet(Firing(text), 0).value == 0
  {
    assert Fires(Rules[0], text);
    assert Firing(text)[0];
  }

  lemma EmptyText()
    ensures TextOf([]) == []
  {
    assert Trim([]) == [];
  }

  /** A report month is a month that `moment(m, 'YYYY-MM', true)` accepts. */
  lemma ReportMonthIsStrict(text: string)
    requires ReportMonth(text).Some?
    ensures Dates.ParseStrictMonth(ReportMonth(text).value).Some?
  {
    var m := ReportMonth(text).value;
    var k :| 0 <= k && MatchAt(ReportMonthPattern, text, k) && m == text[k..k + 7];
    StrictMonthText(m);
  }

  /** Text the report-month pattern matches is accepted by the strict month parser. */
  lemma StrictMonthText(m: string)
    requires Matches(ReportMonthPattern, m)
    ensures Dates.ParseStrictMonth(m).Some?
  {
    var y, mm := m[..4], m[5..];
    assert y[..2] == m[..2] && y[2..] == m[2..4];
    assert Dates.Read2(y[..2]).Some? && Dates.Read2(y[2..]).Some?;
    assert Dates.Read4(y).Some?;
    assert Dates.Read2(mm).Some?;
    assert 1 <= Dates.Read2(mm).value <= 12;
  }

  // ---------------------------------------------------------------------------------------
  // suggest

  /** The substring families `suggest` tests, in order, and the hint each one adds. */
  const FamilyCount := 10

  function Family(k: nat): seq<string>
    requires k < FamilyCount
  {
    match k
    case 0 => ["sal"]
    case 1 => ["gast", "desp", "spent", "expens"]
    case 2 => ["meta", "goal", "target"]
    case 3 => ["hora"]
    case 4 => ["folg", "leave", "day off"]
    case 5 => ["trabalh", "work"]
    case 6 => ["prev", "forecast", "predict"]
    case 7 => ["hist"]
    case 8 => ["categ"]
    case _ => ["csv", "sheet", "plan"]
  }

  function Hint(k: nat): string
    requires k < FamilyCount
  {
    match k
    case 0 => "Ex: salario 4500"
    case 1 => "Ex: gastei 25 lanche"
    case 2 => "Ex: meta 6000"
    case 3 => "Ex: hora extra 2"
    case 4 => "Ex: folga 2025-12-10"
    case 5 => "Ex: trabalhei hoje"
    case 6 => "Ex: previsao"
    case 7 => "Ex: historico 2025-09 2025-12"
    case 8 => "Ex: categorias"
    case _ => "Ex: exportar csv"
  }

  /** The hint when no family matches. */
  const DefaultHint := "Ex: gasto 20 cafe"

  /** `/a|b|.../.test(t)`: one of the family's strings occurs somewhere in `t`. */
  predicate FamilyMatches(t: string, k: nat)
    requires k < FamilyCount
  {
    exists m | 0 <= m < |Family(k)| :: Contains(t, Family(k)[m])
  }

  /** The hints of the families before `n` that match, in family order. */
  function MatchedUpTo(t: string, n: nat): (r: seq<string>)
    requires n <= FamilyCount
    ensures |r| <= n
  {
    if n == 0 then []
    else MatchedUpTo(t, n - 1) + (if FamilyMatches(t, n - 1) then [Hint(n - 1)] else [])
  }

  /** What `suggest(raw)` returns. */
  function Suggestions(raw: string): (r: seq<string>)
    ensures r == [] <==> raw == []
    ensures |r| <= 3
  {
    if raw == [] then [] else HintsFor(Normalize(raw))
  }

  /** The hints for normalized text: the first three that match, or the default one. */
  function HintsFor(t: string): (r: seq<string>)
    ensures 1 <= |r| <= 3
  {
    var hints := MatchedUpTo(t, FamilyCount);
    if hints == [] then [DefaultHint] else Take(hints, 3)
  }

  /** `hints.slice(0, 3)`. */
  function Take(s: seq<string>, n: nat): (r: seq<string>)
    ensures |r| <= n && |r| <= |s|
    ensures r == s[..|r|]
    ensures |r| == if |s| < n then |s| else n
  {
    if |s| <= n then s else s[..n]
  }

  /** The matched hints are the hints of exactly the families that match, in family order. */
  lemma {:induction false} MatchedFamilies(t: string, n: nat) returns (ks: seq<nat>)
    requires n <= FamilyCount
    ensures |ks| == |MatchedUpTo(t, n)|
    ensures forall i :: 0 <= i < |ks| ==> ks[i] < n && FamilyMatches(t, ks[i])
    ensures forall i :: 0 <= i < |ks| ==> MatchedUpTo(t, n)[i] == Hint(ks[i])
    ensures forall i, j :: 0 <= i < j < |ks| ==> ks[i] < ks[j]
    ensures forall k :: 0 <= k < n && FamilyMatches(t, k) ==> k in ks
  {
    if n == 0 {
      ks := [];
    } else {
      var prev := MatchedFamilies(t, n - 1);
      var before := MatchedUpTo(t, n - 1);
      if FamilyMatches(t, n - 1) {
        assert MatchedUpTo(t, n) == before + [Hint(n - 1)];
        ks := prev + [n - 1];
      } else {
        assert MatchedUpTo(t, n) == before;
        ks := prev;
      }
    }
  }

  /** No hint is matched exactly when no family matches. */
  lemma {:induction false} NoneMatched(t: string, n: nat)
    requires n <= FamilyCount
    ensures MatchedUpTo(t, n) == [] <==> forall k :: 0 <= k < n ==> !FamilyMatches(t, k)
  {
    if n > 0 {
      NoneMatched(t, n - 1);
    }
  }

  /** For non-empty input the default hint alone comes back exactly when no family matches;
      otherwise the hints are the first three matched, in family order. */
  lemma SuggestionsDefault(raw: string)
    requires raw != []
    ensures Suggestions(raw) == [DefaultHint] <==>
      forall k :: 0 <= k < FamilyCount ==> !FamilyMatches(Normalize(raw), k)
    ensures (exists k :: 0 <= k < FamilyCount && FamilyMatches(Normalize(raw), k)) ==>
      Suggestions(raw) == Take(MatchedUpTo(Normalize(raw), FamilyCount), 3)
  {
    HintsDefault(Normalize(raw));
  }

  /** The same on normalized text. */
  lemma HintsDefault(t: string)
    ensures HintsFor(t) == [DefaultHint] <==> forall k :: 0 <= k < FamilyCount ==> !FamilyMatches(t, k)
    ensures (exists k :: 0 <= k < FamilyCount && FamilyMatches(t, k)) ==>
      HintsFor(t) == Take(MatchedUpTo(t, FamilyCount), 3)
  {
    NoneMatched(t, FamilyCount);
    var m := MatchedUpTo(t, FamilyCount);
    if m != [] {
      FirstHintNotDefault(t, m);
    }
  }

  /** When some hint is matched, the first one is not the default hint. */
  lemma FirstHintNotDefault(t: string, m: seq<string>)
    requires m == MatchedUpTo(t, FamilyCount) && m != []
    ensures Take(m, 3) != [DefaultHint]
  {
    var ks := MatchedFamilies(t, FamilyCount);
    HintLength(ks[0]);
    assert Take(m, 3)[0] == Hint(ks[0]);
  }

  /** No family hint has the length of the default hint. */
  lemma HintLength(k: nat)
    requires k < FamilyCount
    ensures |Hint(k)| != |DefaultHint|
  {
  }

  /** `suggest(raw)`. */
  method Suggest(raw: string) returns (result: seq<string>)
    ensures result == Suggestions(raw)
  {
    if raw == [] {
      return [];
    }
    var t := Normalize(raw);
    result := CollectHints(t);
  }

  /** The body of `suggest` after `normalize`: the family tests in table order, each pushing
      its hint when it holds, then the default hint and the cut to three. */
  method CollectHints(t: string) returns (result: seq<string>)
    ensures result == HintsFor(t)
  {
    var hints: seq<string> := [];
    for k := 0 to FamilyCount
      invariant hints == MatchedUpTo(t, k)
    {
      if FamilyMatches(t, k) {
        hints := hints + [Hint(k)];
      }
    }
    if |hints| == 0 {
      hints := hints + [DefaultHint];
    }
    result := Take(hints, 3);
  }
}
