/** `getInvestmentSuggestions`: one advice line chosen by the share of the salary spent, then
    the fixed diversification tip. The market price and news fetches are not modelled. */
module MarketData {
  import opened Wrappers

  /** The totals as the caller passes them; a missing or zero value reads as 0 (`|| 0`). */
  datatype Figures = Figures(salary: Option<real>, expense: Option<real>)

  /** The suggestions the rule can give. */
  datatype Suggestion = LowSpend | MidSpend | HighSpend | NoSalary | Diversify

  function SuggestionText(t: Suggestion): string {
    match t
    case LowSpend => "Você mantém bons níveis de gasto: considere aportar em renda fixa (Tesouro Selic/CDI)."
    case MidSpend => "Reduza gastos supérfluos para liberar capital para investimentos mensais."
    case HighSpend => "Gastos altos: priorize quitação de dívidas antes de novos aportes."
    case NoSalary => "Registre seu salário para gerar sugestões mais precisas."
    case Diversify => "Diversifique: considere alocar parte em ETFs globais para proteção cambial."
  }

  function OrZero(v: Option<real>): real {
    v.GetOr(0.0)
  }

  /** The spend band of a positive salary, without dividing: `expense / salary * 100 < p`
      is `expense * 100 < p * salary` when the salary is positive. */
  predicate SpentBelow(expense: real, salary: real, percent: real)
    requires salary > 0.0
  {
    expense * 100.0 < percent * salary
  }

  /** The first suggestion. */
  function Advice(f: Figures): Suggestion {
    var salary := OrZero(f.salary);
    var expense := OrZero(f.expense);
    if salary > 0.0 then
      if SpentBelow(expense, salary, 40.0) then LowSpend
      else if SpentBelow(expense, salary, 70.0) then MidSpend
      else HighSpend
    else NoSalary
  }

  /** The division-free band test is the source's percentage test. */
  lemma SpentBelowIsPercent(expense: real, salary: real, percent: real)
    requires salary > 0.0
    ensures SpentBelow(expense, salary, percent) <==> (expense / salary) * 100.0 < percent
  {
    var q := expense / salary;
    assert q * salary == expense;
    if q * 100.0 < percent {
      assert expense * 100.0 == (q * 100.0) * salary;
    } else {
      assert expense * 100.0 == (q * 100.0) * salary;
    }
  }

  /** Exactly one band is chosen for a positive salary, by where the spent share falls; no
      salary gives the register-your-salary line. */
  lemma AdviceBands(f: Figures)
    ensures var salary := OrZero(f.salary);
            var expense := OrZero(f.expense);
            && (salary <= 0.0 <==> Advice(f) == NoSalary)
            && (salary > 0.0 ==>
                  && (Advice(f) == LowSpend <==> expense * 100.0 < 40.0 * salary)
                  && (Advice(f) == MidSpend <==> 40.0 * salary <= expense * 100.0 < 70.0 * salary)
                  && (Advice(f) == HighSpend <==> 70.0 * salary <= expense * 100.0))
  {
  }

  /** A missing figure counts as zero. */
  lemma MissingIsZero(f: Figures)
    ensures Advice(f) == Advice(Figures(Some(OrZero(f.salary)), Some(OrZero(f.expense))))
  {
  }

  /** `getInvestmentSuggestions`, building the list by two pushes; the texts are
      `SuggestionText` of its items. */
  method InvestmentSuggestions(f: Figures) returns (suggestions: seq<Suggestion>)
    ensures |suggestions| == 2
    ensures suggestions[0] == Advice(f) && suggestions[1] == Diversify
  {
    suggestions := [];
    var salary := OrZero(f.salary);
    var expense := OrZero(f.expense);
    if salary > 0.0 {
      if SpentBelow(expense, salary, 40.0) {
        suggestions := suggestions + [LowSpend];
      } else if SpentBelow(expense, salary, 70.0) {
        suggestions := suggestions + [MidSpend];
      } else {
        suggestions := suggestions + [HighSpend];
      }
    } else {
      suggestions := suggestions + [NoSalary];
    }
    suggestions := suggestions + [Diversify];
  }
}
