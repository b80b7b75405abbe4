/** The Savings Rate Calculator: a share of the annual salary, spread over weeks, fortnights
    and months. */
module SavingsRate {
  import opened Common

  /** The parsed salary and the saved share as a fraction (`parseFloat / 100`). */
  datatype SavingsInput = SavingsInput(salary: real, percent: real)

  /** The guard of `calculateSavingsRate`: both fields non-empty, both parse, a positive
      salary and a share between 0 and 1 inclusive. */
  function ValidateSavings(salaryText: string, percentText: string, parseFloat: string -> Option<real>)
    : (r: Result<SavingsInput>)
    ensures salaryText == [] || percentText == [] ==> r == Err(MissingInput)
    ensures r.Ok? <==>
      && salaryText != [] && percentText != []
      && parseFloat(salaryText).Some? && parseFloat(percentText).Some?
      && parseFloat(salaryText).value > 0.0
      && 0.0 <= parseFloat(percentText).value <= 100.0
    ensures r.Ok? ==> r.value == SavingsInput(parseFloat(salaryText).value, parseFloat(percentText).value / 100.0)
    ensures r.Ok? ==> r.value.salary > 0.0 && 0.0 <= r.value.percent <= 1.0
    ensures r.Err? && salaryText != [] && percentText != [] ==> r == Err(InvalidNumber)
  {
    if salaryText == [] || percentText == [] then Err(MissingInput)
    else
      var salary := parseFloat(salaryText);
      var rate := parseFloat(percentText);
      if salary.None? || rate.None? then Err(InvalidNumber)
      else
        var percent := rate.value / 100.0;
        if salary.value <= 0.0 || percent < 0.0 || percent > 1.0 then Err(InvalidNumber)
        else Ok(SavingsInput(salary.value, percent))
  }

  /** The four amounts handed to `setResults`, before they are formatted. */
  datatype SavingsSplit = SavingsSplit(weekly: real, biWeekly: real, monthly: real, annual: real)

  /** The period split: the annual saving divided by 52, 26 and 12. Every period amount
      adds back up to the same annual saving, and a fortnight saves two weeks' worth. */
  function Split(salary: real, percent: real): (r: SavingsSplit)
    ensures r.annual == salary * percent
    ensures r.weekly * 52.0 == r.annual && r.biWeekly * 26.0 == r.annual && r.monthly * 12.0 == r.annual
    ensures r.biWeekly == 2.0 * r.weekly
  {
    SavingsSplit((salary * percent) / 52.0, (salary * percent) / 26.0, (salary * percent) / 12.0, salary * percent)
  }

  /** For a valid input the amounts are ordered by period length and the annual saving is
      at most the salary. */
  lemma SplitOrdered(salary: real, percent: real)
    requires salary > 0.0 && 0.0 <= percent <= 1.0
    ensures var r := Split(salary, percent);
      0.0 <= r.weekly <= r.biWeekly <= r.monthly <= r.annual <= salary
  {
    ShareOfSalary(salary, percent);
  }

  /** `0 <= s * p <= s` for a share p in [0, 1]. */
  lemma ShareOfSalary(salary: real, percent: real)
    requires salary > 0.0 && 0.0 <= percent <= 1.0
    ensures 0.0 <= salary * percent <= salary
  {
    assert salary - salary * percent == salary * (1.0 - percent);
  }

  /** Saving nothing gives zero in every period. */
  lemma SplitOfNothing(salary: real)
    ensures Split(salary, 0.0) == SavingsSplit(0.0, 0.0, 0.0, 0.0)
  {
  }

  /** `calculateSavingsRate`: validate, split, and request the monthly series only after a
      valid submission that names an investment. */
  function CalculateSavingsRate(salaryText: string, percentText: string, investmentType: string,
                                parseFloat: string -> Option<real>)
    : (s: Submission<SavingsSplit>)
    ensures var v := ValidateSavings(salaryText, percentText, parseFloat);
      && (v.Err? ==> s == Submission(Err(v.error), false))
      && (v.Ok? ==>
            && s.outcome == Ok(Split(v.value.salary, v.value.percent))
            && 0.0 <= s.outcome.value.annual <= v.value.salary
            && s.fetchHistory == (investmentType != []))
  {
    match ValidateSavings(salaryText, percentText, parseFloat)
    case Err(e) => Submission(Err(e), false)
    case Ok(input) =>
      ShareOfSalary(input.salary, input.percent);
      Submission(Ok(Split(input.salary, input.percent)), investmentType != [])
  }
}
