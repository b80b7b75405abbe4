/** The Compound Growth Calculator: a yearly contribution that is paid in first and then
    earns a fixed rate on the whole balance, year after year. */
module CompoundGrowth {
  import opened Common

  /** The three parsed fields; `interest` is the rate as a fraction (`parseFloat / 100`). */
  datatype GrowthInput = GrowthInput(length: int, contribution: real, interest: real)

  /** The guard of `calculateCompoundGrowth`: every field non-empty, every field parses,
      a positive length and contribution, and a rate that is not negative. */
  function ValidateGrowth(lengthText: string, contributionText: string, rateText: string,
                          parseInt: string -> Option<int>, parseFloat: string -> Option<real>)
    : (r: Result<GrowthInput>)
    ensures lengthText == [] || contributionText == [] || rateText == [] ==> r == Err(MissingInput)
    ensures r.Ok? <==>
      && lengthText != [] && contributionText != [] && rateText != []
      && parseInt(lengthText).Some? && parseFloat(contributionText).Some? && parseFloat(rateText).Some?
      && parseInt(lengthText).value > 0 && parseFloat(contributionText).value > 0.0
      && parseFloat(rateText).value >= 0.0
    ensures r.Ok? ==> r.value == GrowthInput(parseInt(lengthText).value, parseFloat(contributionText).value,
                                             parseFloat(rateText).value / 100.0)
    ensures r.Err? && lengthText != [] && contributionText != [] && rateText != [] ==> r == Err(InvalidNumber)
  {
    if lengthText == [] || contributionText == [] || rateText == [] then Err(MissingInput)
    else
      var length := parseInt(lengthText);
      var contribution := parseFloat(contributionText);
      var rate := parseFloat(rateText);
      if length.None? || contribution.None? || rate.None? then Err(InvalidNumber)
      else
        var interest := rate.value / 100.0;
        if length.value <= 0 || contribution.value <= 0.0 || interest < 0.0 then Err(InvalidNumber)
        else Ok(GrowthInput(length.value, contribution.value, interest))
  }

  /** The balance after `years` years: each year the contribution is added and then the
      whole balance grows by the factor `1 + interest`. */
  function Balance(years: nat, contribution: real, interest: real): real
  {
    if years == 0 then 0.0
    else (Balance(years - 1, contribution, interest) + contribution) * (1.0 + interest)
  }

  /** One pass of the year loop: the contribution is paid in, then the new balance earns
      the rate, which takes the running totals from year `year - 1` to year `year`. */
  lemma YearStep(year: nat, stash: real, interestSoFar: real, c: real, r: real)
    requires year >= 1
    requires stash == (year - 1) as real * c
    requires stash + interestSoFar == Balance(year - 1, c, r)
    ensures stash + c == year as real * c
    ensures (stash + c) + (interestSoFar + (stash + c + interestSoFar) * r) == Balance(year, c, r)
  {
    var b := Balance(year - 1, c, r);
    assert (stash + c) + (interestSoFar + (stash + c + interestSoFar) * r) == (b + c) * (1.0 + r);
  }

  /** The `for (let year = 1; year <= length; year++)` loop: the contributions paid in and
      the interest earned on them. */
  method Accumulate(length: int, contribution: real, interest: real)
    returns (totalUserStash: real, totalInterest: real)
    ensures var years := if length <= 0 then 0 else length;
      && totalUserStash == years as real * contribution
      && totalUserStash + totalInterest == Balance(years, contribution, interest)
  {
    totalUserStash := 0.0;
    totalInterest := 0.0;
    var year := 1;
    while year <= length
      invariant 1 <= year <= if length <= 0 then 1 else length + 1
      invariant totalUserStash == (year - 1) as real * contribution
      invariant totalUserStash + totalInterest == Balance(year - 1, contribution, interest)
    {
      YearStep(year, totalUserStash, totalInterest, contribution, interest);
      totalUserStash := totalUserStash + contribution;
      var interestForThisYear := (totalUserStash + totalInterest) * interest;
      totalInterest := totalInterest + interestForThisYear;
      year := year + 1;
    }
  }

  /** The interest part of the balance after `years` years. */
  function Interest(years: nat, contribution: real, interest: real): real
  {
    Balance(years, contribution, interest) - years as real * contribution
  }

  /** At a zero rate nothing is earned, however long the money stays in. */
  lemma {:induction false} ZeroRateEarnsNothing(years: nat, contribution: real)
    ensures Balance(years, contribution, 0.0) == years as real * contribution
    ensures Interest(years, contribution, 0.0) == 0.0
  {
    if years > 0 {
      ZeroRateEarnsNothing(years - 1, contribution);
    }
  }

  /** One more year adds the contribution and the interest on the new balance. */
  lemma YearOverYear(years: nat, contribution: real, interest: real)
    ensures Balance(years + 1, contribution, interest)
         == Balance(years, contribution, interest) + contribution
          + (Balance(years, contribution, interest) + contribution) * interest
  {
  }

  /** With a positive contribution and a rate that is not negative, the balance is never
      below what was paid in, so the interest is never negative. */
  lemma {:induction false} BalanceCoversStash(years: nat, contribution: real, interest: real)
    requires contribution > 0.0 && interest >= 0.0
    ensures Balance(years, contribution, interest) >= years as real * contribution
    ensures Interest(years, contribution, interest) >= 0.0
  {
    if years > 0 {
      BalanceCoversStash(years - 1, contribution, interest);
      var b := Balance(years - 1, contribution, interest);
      GrowthAtLeast(b + contribution, interest);
    }
  }

  /** `x * (1 + r) >= x` for non-negative x and r. */
  lemma GrowthAtLeast(x: real, r: real)
    requires x >= 0.0 && r >= 0.0
    ensures x * (1.0 + r) >= x
  {
    assert x * (1.0 + r) == x + x * r;
  }

  /** From one year to the next the interest never shrinks, and the total strictly grows. */
  lemma YearlyGrowth(years: nat, contribution: real, interest: real)
    requires contribution > 0.0 && interest >= 0.0
    ensures Interest(years, contribution, interest) <= Interest(years + 1, contribution, interest)
    ensures Balance(years, contribution, interest) < Balance(years + 1, contribution, interest)
  {
    BalanceCoversStash(years, contribution, interest);
    var b := Balance(years, contribution, interest);
    YearOverYear(years, contribution, interest);
    NonNegativeProduct(b + contribution, interest);
  }

  lemma NonNegativeProduct(x: real, y: real)
    requires x >= 0.0 && y >= 0.0
    ensures x * y >= 0.0
  {
  }

  /** Staying in longer never gives a smaller total. */
  lemma {:induction false} BalanceMonotone(m: nat, n: nat, contribution: real, interest: real)
    requires m <= n && contribution > 0.0 && interest >= 0.0
    ensures Balance(m, contribution, interest) <= Balance(n, contribution, interest)
  {
    if m < n {
      BalanceMonotone(m, n - 1, contribution, interest);
      YearlyGrowth(n - 1, contribution, interest);
    }
  }

  /** Staying in longer never gives less interest. */
  lemma {:induction false} InterestMonotone(m: nat, n: nat, contribution: real, interest: real)
    requires m <= n && contribution > 0.0 && interest >= 0.0
    ensures Interest(m, contribution, interest) <= Interest(n, contribution, interest)
  {
    if m < n {
      InterestMonotone(m, n - 1, contribution, interest);
      YearlyGrowth(n - 1, contribution, interest);
    }
  }

  function Pow(x: real, n: nat): real
  {
    if n == 0 then 1.0 else x * Pow(x, n - 1)
  }

  /** The annuity-due formula: `r * B(n) == c * (1 + r) * ((1 + r)^n - 1)`. */
  lemma {:induction false} BalanceClosedForm(years: nat, contribution: real, interest: real)
    ensures interest * Balance(years, contribution, interest)
         == contribution * (1.0 + interest) * (Pow(1.0 + interest, years) - 1.0)
  {
    if years > 0 {
      var b := Balance(years - 1, contribution, interest);
      var p := Pow(1.0 + interest, years - 1);
      BalanceClosedForm(years - 1, contribution, interest);
      ClosedFormStep(b, p, Balance(years, contribution, interest), Pow(1.0 + interest, years),
                     contribution, interest);
    }
  }

  /** The inductive step of BalanceClosedForm, over plain reals. */
  lemma ClosedFormStep(b: real, p: real, b': real, p': real, c: real, r: real)
    requires r * b == c * (1.0 + r) * (p - 1.0)
    requires b' == (b + c) * (1.0 + r) && p' == (1.0 + r) * p
    ensures r * b' == c * (1.0 + r) * (p' - 1.0)
  {
    calc {
      r * b';
      == r * ((b + c) * (1.0 + r));
      == (r * b + r * c) * (1.0 + r);
      == (c * (1.0 + r) * (p - 1.0) + r * c) * (1.0 + r);
      == c * (1.0 + r) * ((1.0 + r) * p - 1.0);
      == c * (1.0 + r) * (p' - 1.0);
    }
  }

  /** Three years of 1000 at 10%: 3000 paid in, 641 earned, 3641 in all. */
  lemma ThreeYearsAtTenPercent()
    ensures Balance(3, 1000.0, 0.1) == 3641.0
    ensures Interest(3, 1000.0, 0.1) == 641.0
  {
    assert Balance(1, 1000.0, 0.1) == 1100.0;
    assert Balance(2, 1000.0, 0.1) == 2310.0;
  }

  /** The three figures handed to `setResults`, before they are formatted. */
  datatype GrowthResult = GrowthResult(contribution: real, interest: real, total: real)

  /** `calculateCompoundGrowth`: validate, accumulate, report; the monthly series is requested
      only after a valid submission that names an investment. */
  method CalculateCompoundGrowth(lengthText: string, contributionText: string, rateText: string,
                                 investmentType: string,
                                 parseInt: string -> Option<int>, parseFloat: string -> Option<real>)
    returns (s: Submission<GrowthResult>)
    ensures var v := ValidateGrowth(lengthText, contributionText, rateText, parseInt, parseFloat);
      && (v.Err? ==> s == Submission(Err(v.error), false))
      && (v.Ok? ==>
            var g := v.value;
            && s.outcome.Ok?
            && s.outcome.value.contribution == g.length as real * g.contribution
            && s.outcome.value.total == Balance(g.length, g.contribution, g.interest)
            && s.outcome.value.total == s.outcome.value.contribution + s.outcome.value.interest
            && s.outcome.value.interest >= 0.0
            && s.fetchHistory == (investmentType != []))
  {
    var v := ValidateGrowth(lengthText, contributionText, rateText, parseInt, parseFloat);
    if v.Err? {
      return Submission(Err(v.error), false);
    }
    var g := v.value;
    var stash, earned := Accumulate(g.length, g.contribution, g.interest);
    BalanceCoversStash(g.length, g.contribution, g.interest);
    s := Submission(Ok(GrowthResult(stash, earned, stash + earned)), investmentType != []);
  }
}
