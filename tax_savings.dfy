/** The Tax Savings Calculator: a progressive walk over a fixed table of federal tiers.

    The loop compares the income still to be taxed, which shrinks from tier to tier, with
    each tier's ABSOLUTE maximum, and subtracts the previous maximum from that. While the
    earlier tiers were filled, tier i taxes `min(income - L_i, max_i) - L_i`, where L_i is
    the previous tier's maximum (0 for the first); once a tier is not filled, every later
    amount is negative and is skipped. In closed form, tier i taxes
    `clamp(income - 2 * L_i, 0, max_i - L_i)`. */
module TaxSavings {
  import opened Common

  /** A tier maximum; the last tier's is `Infinity`. */
  datatype Bound = Finite(value: real) | Unbounded

  datatype Tier = Tier(rate: real, max: Bound)

  /** `taxTiers`: the seven brackets the calculator uses. */
  const TaxTiers: seq<Tier> := [
    Tier(0.10, Finite(10276.0)),
    Tier(0.12, Finite(41776.0)),
    Tier(0.22, Finite(89076.0)),
    Tier(0.24, Finite(170051.0)),
    Tier(0.32, Finite(215591.0)),
    Tier(0.35, Finite(539901.0)),
    Tier(0.37, Unbounded)
  ]

  /** The shape of a tier table the loop is meant for: positive, strictly ascending finite
      maxima, an unbounded last tier, and ascending rates strictly between 0 and 1. */
  ghost predicate ValidTable(tiers: seq<Tier>)
  {
    && |tiers| >= 1
    && tiers[|tiers| - 1].max == Unbounded
    && (forall i :: 0 <= i < |tiers| - 1 ==> tiers[i].max.Finite? && tiers[i].max.value > 0.0)
    && (forall i :: 0 <= i < |tiers| - 2 ==> tiers[i].max.value < tiers[i + 1].max.value)
    && (forall i :: 0 <= i < |tiers| ==> 0.0 < tiers[i].rate < 1.0)
    && (forall i :: 0 <= i < |tiers| - 1 ==> tiers[i].rate <= tiers[i + 1].rate)
  }

  /** `Math.min(x, tier.max)`. */
  function Cap(x: real, b: Bound): real
  {
    match b
    case Finite(m) => if x <= m then x else m
    case Unbounded => x
  }

  /** Whether `x` lies at or below a tier maximum. */
  predicate Within(x: real, b: Bound)
  {
    b.Unbounded? || x <= b.value
  }

  /** `taxTiers[taxTiers.indexOf(tier) - 1]?.max || 0`: the maximum of the tier before
      tier i, and 0 for the first tier. */
  function Lower(tiers: seq<Tier>, i: int): (r: real)
    requires ValidTable(tiers) && 0 <= i < |tiers|
    ensures 0.0 <= r
  {
    if i == 0 then 0.0 else tiers[i - 1].max.value
  }

  /** The maxima seen through Lower are ascending, strictly so from tier to tier. */
  lemma {:induction false} LowerAscending(tiers: seq<Tier>, i: int, j: int)
    requires ValidTable(tiers) && 0 <= i < j < |tiers|
    ensures Lower(tiers, i) < Lower(tiers, j)
    ensures tiers[i].max.Finite? && Lower(tiers, j) >= tiers[i].max.value
  {
    if i + 1 < j {
      LowerAscending(tiers, i, j - 1);
      assert tiers[j - 2].max.value < tiers[j - 1].max.value;
    }
  }

  /** The width of tier i, `max_i - L_i`; the last tier is unbounded. */
  function Width(tiers: seq<Tier>, i: int): Bound
    requires ValidTable(tiers) && 0 <= i < |tiers|
  {
    match tiers[i].max
    case Finite(m) => Finite(m - Lower(tiers, i))
    case Unbounded => Unbounded
  }

  /** The amount the loop taxes in tier i, in closed form:
      `clamp(income - 2 * L_i, 0, max_i - L_i)`. */
  function Slice(tiers: seq<Tier>, income: real, i: int): (r: real)
    requires ValidTable(tiers) && 0 <= i < |tiers|
    ensures 0.0 <= r
    ensures tiers[i].max.Finite? ==> r <= tiers[i].max.value - Lower(tiers, i)
  {
    var d := income - 2.0 * Lower(tiers, i);
    if d <= 0.0 then 0.0 else Cap(d, Width(tiers, i))
  }

  /** Tax owed on the first k tiers, by the closed form. */
  function TaxUpTo(tiers: seq<Tier>, income: real, k: int): real
    requires ValidTable(tiers) && 0 <= k <= |tiers|
  {
    if k == 0 then 0.0 else TaxUpTo(tiers, income, k - 1) + Slice(tiers, income, k - 1) * tiers[k - 1].rate
  }

  /** Tax owed on the whole table: `Σ rate_i * clamp(income - 2 * L_i, 0, max_i - L_i)`. */
  function TableTax(tiers: seq<Tier>, income: real): real
    requires ValidTable(tiers)
  {
    TaxUpTo(tiers, income, |tiers|)
  }

  /** When every tier from k on has nothing to tax, the tiers from k on add nothing. */
  lemma {:induction false} TaxTailIsZero(tiers: seq<Tier>, income: real, k: int, m: int)
    requires ValidTable(tiers) && 0 <= k <= m <= |tiers|
    requires forall j :: k <= j < |tiers| ==> income <= 2.0 * Lower(tiers, j)
    ensures TaxUpTo(tiers, income, m) == TaxUpTo(tiers, income, k)
  {
    if m > k {
      TaxTailIsZero(tiers, income, k, m - 1);
      assert Slice(tiers, income, m - 1) == 0.0;
    }
  }

  /** What the loop knows about `remainingIncome` before the body runs for tier `steps`.
      `spilled` records whether some earlier tier was not filled. */
  ghost predicate LoopState(tiers: seq<Tier>, income: real, steps: int, remaining: real, spilled: bool)
    requires ValidTable(tiers)
  {
    && 0 <= steps <= |tiers|
    && (steps == 0 ==> remaining == income && !spilled)
    && (!spilled ==> steps < |tiers| && remaining == income - Lower(tiers, steps))
    && (spilled ==> steps >= 1 && remaining == Lower(tiers, steps - 1))
    && (spilled ==> forall j :: steps <= j < |tiers| ==> income <= 2.0 * Lower(tiers, j))
    && (steps >= 1 ==> income > 0.0)
    && (steps >= 1 ==> (remaining > 0.0 <==> !Within(income, tiers[0].max)))
    && (steps >= 2 ==> !Within(income, tiers[0].max))
  }

  /** The `for (let tier of taxTiers)` loop, with its early `break`, as written. It returns
      the tax and the number of tiers whose body ran: none for a non-positive income, only
      the first when the income fits in it, and otherwise all of them. */
  method ComputeTax(income: real, tiers: seq<Tier>) returns (tax: real, steps: nat)
    requires ValidTable(tiers)
    ensures tax == TableTax(tiers, income)
    ensures steps == if income <= 0.0 then 0 else if Within(income, tiers[0].max) then 1 else |tiers|
  {
    tax := 0.0;
    var remainingIncome := income;
    ghost var spilled := false;
    steps := 0;
    while steps < |tiers|
      invariant steps <= |tiers|
      invariant tax == TaxUpTo(tiers, income, steps)
      invariant LoopState(tiers, income, steps, remainingIncome, spilled)
    {
      if remainingIncome <= 0.0 {
        LoopExhausted(tiers, income, steps, remainingIncome, spilled);
        break;
      }
      var tier := tiers[steps];
      var taxableAmount := Cap(remainingIncome, tier.max) - Lower(tiers, steps);
      TierStep(tiers, income, steps, remainingIncome, spilled);
      AddSlice(tiers, income, steps, tax, taxableAmount);
      if taxableAmount > 0.0 {
        tax := tax + taxableAmount * tier.rate;
      }
      spilled := spilled || !(tier.max.Finite? && remainingIncome >= tier.max.value);
      remainingIncome := remainingIncome - taxableAmount;
      steps := steps + 1;
    }
    if steps == |tiers| {
      LoopCompleted(tiers, income, remainingIncome, spilled);
      assert steps == if income <= 0.0 then 0 else if Within(income, tiers[0].max) then 1 else |tiers|;
    }
  }

  /** The early `break`: every tier not yet visited would have added nothing, and the body
      ran for no tier or only for the first. */
  lemma LoopExhausted(tiers: seq<Tier>, income: real, steps: int, remaining: real, spilled: bool)
    requires ValidTable(tiers) && steps < |tiers| && remaining <= 0.0
    requires LoopState(tiers, income, steps, remaining, spilled)
    ensures TaxUpTo(tiers, income, |tiers|) == TaxUpTo(tiers, income, steps)
    ensures steps == if income <= 0.0 then 0 else if Within(income, tiers[0].max) then 1 else |tiers|
  {
    forall j | steps <= j < |tiers|
      ensures income <= 2.0 * Lower(tiers, j)
    {
      if !spilled && steps < j {
        LowerAscending(tiers, steps, j);
      }
    }
    TaxTailIsZero(tiers, income, steps, |tiers|);
  }

  /** The loop ran to the end of the table: the income did not fit in the first tier, or
      the table has a single tier. */
  lemma LoopCompleted(tiers: seq<Tier>, income: real, remaining: real, spilled: bool)
    requires ValidTable(tiers) && LoopState(tiers, income, |tiers|, remaining, spilled)
    ensures income > 0.0 && (|tiers| == 1 || !Within(income, tiers[0].max))
  {
  }

  /** Adding tier k's amount, when it is positive, extends the sum by one tier. */
  lemma AddSlice(tiers: seq<Tier>, income: real, k: int, taxSoFar: real, taxable: real)
    requires ValidTable(tiers) && 0 <= k < |tiers| && taxSoFar == TaxUpTo(tiers, income, k)
    requires (if taxable > 0.0 then taxable else 0.0) == Slice(tiers, income, k)
    ensures (if taxable > 0.0 then taxSoFar + taxable * tiers[k].rate else taxSoFar) == TaxUpTo(tiers, income, k + 1)
  {
  }

  /** One pass of the loop body, in the closed form's terms: tier i taxes its closed-form
      amount, and the loop's knowledge carries over to the next tier. */
  lemma TierStep(tiers: seq<Tier>, income: real, i: int, remaining: real, spilled: bool)
    requires ValidTable(tiers) && 0 <= i < |tiers| && remaining > 0.0
    requires LoopState(tiers, income, i, remaining, spilled)
    ensures var taxable := Cap(remaining, tiers[i].max) - Lower(tiers, i);
      && (if taxable > 0.0 then taxable else 0.0) == Slice(tiers, income, i)
      && var filled := tiers[i].max.Finite? && remaining >= tiers[i].max.value;
         LoopState(tiers, income, i + 1, remaining - taxable, spilled || !filled)
  {
    var taxable := Cap(remaining, tiers[i].max) - Lower(tiers, i);
    var filled := tiers[i].max.Finite? && remaining >= tiers[i].max.value;
    if spilled {
      if i + 1 < |tiers| {
        LowerAscending(tiers, i, i + 1);
      }
      if i >= 2 {
        LowerAscending(tiers, i - 1, i);
      }
      assert Lower(tiers, i - 1) < Lower(tiers, i);
    } else if !filled {
      forall j | i + 1 <= j < |tiers|
        ensures income <= 2.0 * Lower(tiers, j)
      {
        LowerAscending(tiers, i, j);
        if i + 1 < j {
          LowerAscending(tiers, i + 1, j);
        }
      }
    }
  }

  /** The untaxed part of tier i ends where its closed-form amount stops growing:
      `L_i + max_i`. End(k) is where the first k tiers stop growing (0 for none). */
  function End(tiers: seq<Tier>, k: int): Bound
    requires ValidTable(tiers) && 0 <= k <= |tiers|
  {
    if k == 0 then Finite(0.0)
    else match tiers[k - 1].max
      case Finite(m) => Finite(Lower(tiers, k - 1) + m)
      case Unbounded => Unbounded
  }

  /** What the first k tiers tax, before their rates are applied. */
  function SlicesUpTo(tiers: seq<Tier>, income: real, k: int): real
    requires ValidTable(tiers) && 0 <= k <= |tiers|
  {
    if k == 0 then 0.0 else SlicesUpTo(tiers, income, k - 1) + Slice(tiers, income, k - 1)
  }

  /** The ranges where successive tiers' amounts grow do not overlap, so together the first
      k tiers grow no faster than the income does, and never shrink. */
  lemma {:induction false} SlicesLipschitz(tiers: seq<Tier>, x: real, y: real, k: int)
    requires ValidTable(tiers) && 0 <= k <= |tiers| && x <= y
    ensures SlicesUpTo(tiers, x, k) <= SlicesUpTo(tiers, y, k)
    ensures SlicesUpTo(tiers, y, k) - SlicesUpTo(tiers, x, k) <= Cap(y, End(tiers, k)) - Cap(x, End(tiers, k))
  {
    if k > 0 {
      var i := k - 1;
      SlicesLipschitz(tiers, x, y, i);
      if i >= 1 {
        LowerAscending(tiers, i - 1, i);
      }
      if i + 1 < |tiers| {
        LowerAscending(tiers, i, i + 1);
      }
      // tier i grows on [2 * L_i, L_i + max_i], which starts at or after End(i)
      assert End(tiers, i).Finite? && End(tiers, i).value <= 2.0 * Lower(tiers, i);
    }
  }

  /** Each tier's closed-form amount grows with the income. */
  lemma SliceMonotone(tiers: seq<Tier>, x: real, y: real, i: int)
    requires ValidTable(tiers) && 0 <= i < |tiers| && x <= y
    ensures Slice(tiers, x, i) <= Slice(tiers, y, i)
  {
  }

  /** No tier table makes anyone owe a negative tax. */
  lemma {:induction false} TaxUpToNonNegative(tiers: seq<Tier>, income: real, k: int)
    requires ValidTable(tiers) && 0 <= k <= |tiers|
    ensures 0.0 <= TaxUpTo(tiers, income, k)
  {
    if k > 0 {
      TaxUpToNonNegative(tiers, income, k - 1);
      assert 0.0 <= Slice(tiers, income, k - 1) * tiers[k - 1].rate;
    }
  }

  /** One step of TaxUpTo with the tier's rate named. */
  lemma TaxUpToStep(tiers: seq<Tier>, income: real, k: int, rate: real)
    requires ValidTable(tiers) && 1 <= k <= |tiers| && tiers[k - 1].rate == rate
    ensures TaxUpTo(tiers, income, k) == TaxUpTo(tiers, income, k - 1) + Slice(tiers, income, k - 1) * rate
  {
  }

  /** The calculator's table satisfies ValidTable. */
  lemma TaxTiersValid()
    ensures ValidTable(TaxTiers)
  {
    var t := TaxTiers;
    assert |t| == 7;
    assert t[0] == Tier(0.10, Finite(10276.0)) && t[1] == Tier(0.12, Finite(41776.0));
    assert t[2] == Tier(0.22, Finite(89076.0)) && t[3] == Tier(0.24, Finite(170051.0));
    assert t[4] == Tier(0.32, Finite(215591.0)) && t[5] == Tier(0.35, Finite(539901.0));
    assert t[6] == Tier(0.37, Unbounded);
    forall i | 0 <= i < |t| - 1
      ensures t[i].max.Finite? && t[i].max.value > 0.0
      ensures t[i].rate <= t[i + 1].rate
      ensures i < |t| - 2 ==> t[i].max.value < t[i + 1].max.value
    {
      if i == 0 {} else if i == 1 {} else if i == 2 {} else if i == 3 {} else if i == 4 {} else {}
    }
  }

  /** The tax the calculator's table gives, by the loop's closed form. */
  function FederalTax(income: real): real
  {
    TaxTiersValid();
    TableTax(TaxTiers, income)
  }

  /** The calculator's table, tier by tier. */
  lemma TaxTiersTax(income: real)
    ensures ValidTable(TaxTiers)
    ensures FederalTax(income)
         == Slice(TaxTiers, income, 0) * 0.10 + Slice(TaxTiers, income, 1) * 0.12
          + Slice(TaxTiers, income, 2) * 0.22 + Slice(TaxTiers, income, 3) * 0.24
          + Slice(TaxTiers, income, 4) * 0.32 + Slice(TaxTiers, income, 5) * 0.35
          + Slice(TaxTiers, income, 6) * 0.37
  {
    TaxTiersValid();
    TaxUpToStep(TaxTiers, income, 1, 0.10);
    TaxUpToStep(TaxTiers, income, 2, 0.12);
    TaxUpToStep(TaxTiers, income, 3, 0.22);
    TaxUpToStep(TaxTiers, income, 4, 0.24);
    TaxUpToStep(TaxTiers, income, 5, 0.32);
    TaxUpToStep(TaxTiers, income, 6, 0.35);
    TaxUpToStep(TaxTiers, income, 7, 0.37);
  }

  /** The first k tiers' closed-form amounts, unfolded for the calculator's table. */
  lemma TaxTiersSlices(income: real)
    ensures ValidTable(TaxTiers)
    ensures SlicesUpTo(TaxTiers, income, 7)
         == Slice(TaxTiers, income, 0) + Slice(TaxTiers, income, 1) + Slice(TaxTiers, income, 2)
          + Slice(TaxTiers, income, 3) + Slice(TaxTiers, income, 4) + Slice(TaxTiers, income, 5)
          + Slice(TaxTiers, income, 6)
  {
    TaxTiersValid();
    assert SlicesUpTo(TaxTiers, income, 1) == Slice(TaxTiers, income, 0);
    assert SlicesUpTo(TaxTiers, income, 2) == SlicesUpTo(TaxTiers, income, 1) + Slice(TaxTiers, income, 1);
    assert SlicesUpTo(TaxTiers, income, 3) == SlicesUpTo(TaxTiers, income, 2) + Slice(TaxTiers, income, 2);
    assert SlicesUpTo(TaxTiers, income, 4) == SlicesUpTo(TaxTiers, income, 3) + Slice(TaxTiers, income, 3);
    assert SlicesUpTo(TaxTiers, income, 5) == SlicesUpTo(TaxTiers, income, 4) + Slice(TaxTiers, income, 4);
    assert SlicesUpTo(TaxTiers, income, 6) == SlicesUpTo(TaxTiers, income, 5) + Slice(TaxTiers, income, 5);
  }

  /** An income that fits in the first tier is taxed at 10%, and the loop stops right
      after that tier. */
  lemma TaxFirstTier(income: real)
    requires 0.0 <= income <= 10276.0
    ensures FederalTax(income) == 0.10 * income
  {
    TaxTiersTax(income);
  }

  /** Between the first maximum and twice it, every later tier's amount is non-positive,
      so the tax stays at the first tier's full 1027.6. */
  lemma TaxPlateau(income: real)
    requires 10276.0 <= income <= 20552.0
    ensures FederalTax(income) == 1027.6
  {
    TaxTiersTax(income);
  }

  /** A larger income never owes less tax. */
  lemma TaxMonotone(x: real, y: real)
    requires x <= y
    ensures FederalTax(x) <= FederalTax(y)
  {
    TaxTiersTax(x);
    TaxTiersTax(y);
    forall i | 0 <= i < 7
      ensures Slice(TaxTiers, x, i) <= Slice(TaxTiers, y, i)
    {
      SliceMonotone(TaxTiers, x, y, i);
    }
  }

  /** The tax grows by at most the top rate of any raise in income. */
  lemma TaxGrowthBounded(x: real, y: real)
    requires x <= y
    ensures FederalTax(y) - FederalTax(x) <= 0.37 * (y - x)
  {
    TaxTiersTax(x);
    TaxTiersTax(y);
    TaxTiersSlices(x);
    TaxTiersSlices(y);
    SlicesLipschitz(TaxTiers, x, y, 7);
    forall i | 0 <= i < 7
      ensures Slice(TaxTiers, x, i) <= Slice(TaxTiers, y, i)
    {
      SliceMonotone(TaxTiers, x, y, i);
    }
  }

  /** The tax is never negative and never more than 37% of a non-negative income. */
  lemma TaxBounds(income: real)
    requires 0.0 <= income
    ensures 0.0 <= FederalTax(income) <= 0.37 * income
  {
    TaxTiersValid();
    TaxUpToNonNegative(TaxTiers, income, 7);
    TaxGrowthBounded(0.0, income);
    TaxTiersTax(0.0);
  }

  /** `income - tax`: never negative, and it grows with the income. */
  lemma NetIncomeBounds(x: real, y: real)
    requires 0.0 <= x <= y
    ensures 0.0 <= x - FederalTax(x) <= y - FederalTax(y)
  {
    TaxBounds(x);
    TaxGrowthBounded(x, y);
  }

  /** A worked value: 10% of the first tier and 12% of the 29448 counted in the second. */
  lemma TaxAt50000()
    ensures FederalTax(50000.0) == 4561.36
  {
    TaxTiersTax(50000.0);
  }

  // ---------------------------------------------------------------------------------------
  // The bracket scheme the table describes: tier i taxes the part of the income between
  // L_i and max_i, so each tier's width is max_i - L_i.

  /** The part of the income that falls in tier i: `clamp(income - L_i, 0, width_i)`. */
  function MarginalSlice(tiers: seq<Tier>, income: real, i: int): (r: real)
    requires ValidTable(tiers) && 0 <= i < |tiers|
    ensures 0.0 <= r
  {
    var d := income - Lower(tiers, i);
    if d <= 0.0 then 0.0 else Cap(d, Width(tiers, i))
  }

  function MarginalTaxUpTo(tiers: seq<Tier>, income: real, k: int): real
    requires ValidTable(tiers) && 0 <= k <= |tiers|
  {
    if k == 0 then 0.0
    else MarginalTaxUpTo(tiers, income, k - 1) + MarginalSlice(tiers, income, k - 1) * tiers[k - 1].rate
  }

  /** Bracket tax: `Σ rate_i * clamp(income - L_i, 0, width_i)`. */
  function MarginalTax(tiers: seq<Tier>, income: real): real
    requires ValidTable(tiers)
  {
    MarginalTaxUpTo(tiers, income, |tiers|)
  }

  lemma {:induction false} MarginalTailIsZero(tiers: seq<Tier>, income: real, k: int, m: int)
    requires ValidTable(tiers) && 0 <= k <= m <= |tiers|
    requires forall j :: k <= j < |tiers| ==> income <= Lower(tiers, j)
    ensures MarginalTaxUpTo(tiers, income, m) == MarginalTaxUpTo(tiers, income, k)
  {
    if m > k {
      MarginalTailIsZero(tiers, income, k, m - 1);
      assert MarginalSlice(tiers, income, m - 1) == 0.0;
    }
  }

  /** One pass of the corrected loop body. */
  lemma MarginalStep(tiers: seq<Tier>, income: real, i: int, remaining: real)
    requires ValidTable(tiers) && 0 <= i < |tiers| && remaining > 0.0
    requires remaining == income - Lower(tiers, i)
    ensures var taxable := Cap(remaining, Width(tiers, i));
      && 0.0 < taxable && taxable == MarginalSlice(tiers, income, i)
      && var remaining' := remaining - taxable;
         && (remaining' > 0.0 ==> i + 1 < |tiers| && remaining' == income - Lower(tiers, i + 1))
         && (remaining' <= 0.0 ==> forall j :: i + 1 <= j < |tiers| ==> income <= Lower(tiers, j))
  {
    forall j | i + 1 <= j < |tiers|
      ensures Lower(tiers, i + 1) <= Lower(tiers, j)
    {
      if i + 1 < j {
        LowerAscending(tiers, i + 1, j);
      }
    }
  }

  /** Adding tier k's positive bracket amount extends the bracket sum by one tier. */
  lemma AddMarginalSlice(tiers: seq<Tier>, income: real, k: int, taxSoFar: real, taxable: real)
    requires ValidTable(tiers) && 0 <= k < |tiers| && taxSoFar == MarginalTaxUpTo(tiers, income, k)
    requires 0.0 < taxable == MarginalSlice(tiers, income, k)
    ensures taxSoFar + taxable * tiers[k].rate == MarginalTaxUpTo(tiers, income, k + 1)
  {
  }

  /** The loop with the evident intent carried out: each tier takes at most its width of
      what is left, `Math.min(remainingIncome, tier.max - previousMax)`. */
  method ComputeMarginalTax(income: real, tiers: seq<Tier>) returns (tax: real)
    requires ValidTable(tiers)
    ensures tax == MarginalTax(tiers, income)
  {
    tax := 0.0;
    var remainingIncome := income;
    var i := 0;
    while i < |tiers|
      invariant i <= |tiers|
      invariant tax == MarginalTaxUpTo(tiers, income, i)
      invariant remainingIncome > 0.0 ==> i < |tiers| && remainingIncome == income - Lower(tiers, i)
      invariant remainingIncome <= 0.0 ==> forall j :: i <= j < |tiers| ==> income <= Lower(tiers, j)
    {
      if remainingIncome <= 0.0 {
        MarginalTailIsZero(tiers, income, i, |tiers|);
        break;
      }
      var taxableAmount := Cap(remainingIncome, Width(tiers, i));
      MarginalStep(tiers, income, i, remainingIncome);
      AddMarginalSlice(tiers, income, i, tax, taxableAmount);
      if taxableAmount > 0.0 {
        tax := tax + taxableAmount * tiers[i].rate;
      }
      remainingIncome := remainingIncome - taxableAmount;
      i := i + 1;
    }
  }

  /** The bracket tax of the calculator's table. */
  function FederalBracketTax(income: real): real
  {
    TaxTiersValid();
    MarginalTax(TaxTiers, income)
  }

  /** Under the bracket scheme an income in the second tier pays 10% of the first 10276
      and 12% of the rest. */
  lemma MarginalSecondTier(income: real)
    requires 10276.0 <= income <= 41776.0
    ensures FederalBracketTax(income) == 1027.6 + 0.12 * (income - 10276.0)
  {
    TaxTiersValid();
    MarginalTaxTiers(income);
  }

  /** The bracket tax of the calculator's table, tier by tier. */
  lemma MarginalTaxTiers(income: real)
    ensures ValidTable(TaxTiers)
    ensures FederalBracketTax(income)
         == MarginalSlice(TaxTiers, income, 0) * 0.10 + MarginalSlice(TaxTiers, income, 1) * 0.12
          + MarginalSlice(TaxTiers, income, 2) * 0.22 + MarginalSlice(TaxTiers, income, 3) * 0.24
          + MarginalSlice(TaxTiers, income, 4) * 0.32 + MarginalSlice(TaxTiers, income, 5) * 0.35
          + MarginalSlice(TaxTiers, income, 6) * 0.37
  {
    TaxTiersValid();
    MarginalStepRate(TaxTiers, income, 1, 0.10);
    MarginalStepRate(TaxTiers, income, 2, 0.12);
    MarginalStepRate(TaxTiers, income, 3, 0.22);
    MarginalStepRate(TaxTiers, income, 4, 0.24);
    MarginalStepRate(TaxTiers, income, 5, 0.32);
    MarginalStepRate(TaxTiers, income, 6, 0.35);
    MarginalStepRate(TaxTiers, income, 7, 0.37);
  }

  lemma MarginalStepRate(tiers: seq<Tier>, income: real, k: int, rate: real)
    requires ValidTable(tiers) && 1 <= k <= |tiers| && tiers[k - 1].rate == rate
    ensures MarginalTaxUpTo(tiers, income, k)
         == MarginalTaxUpTo(tiers, income, k - 1) + MarginalSlice(tiers, income, k - 1) * rate
  {
  }

  /** The loop as written charges one dollar past the first maximum nothing, where the
      bracket scheme charges it 12 cents: 1027.6 against 1027.72. */
  lemma AsWrittenSkipsSecondTier()
    ensures FederalTax(10277.0) == 1027.6
    ensures FederalBracketTax(10277.0) == 1027.72
  {
    TaxPlateau(10277.0);
    MarginalSecondTier(10277.0);
  }

  // ---------------------------------------------------------------------------------------
  // The submit handler `preTaxSavingsCalc`.

  /** The checks before the loop: the field must be non-empty, and must parse to a number
      that is not negative; 0 is accepted. */
  function ValidateIncome(taxableIncome: string, parseFloat: string -> Option<real>): (r: Result<real>)
    ensures taxableIncome == [] ==> r == Err(MissingInput)
    ensures taxableIncome != [] && (parseFloat(taxableIncome).None? || parseFloat(taxableIncome).value < 0.0)
            ==> r == Err(InvalidNumber)
    ensures r.Ok? <==> taxableIncome != [] && parseFloat(taxableIncome).Some? && parseFloat(taxableIncome).value >= 0.0
    ensures r.Ok? ==> r.value == parseFloat(taxableIncome).value
  {
    if taxableIncome == [] then Err(MissingInput)
    else match parseFloat(taxableIncome)
      case None => Err(InvalidNumber)
      case Some(income) => if income < 0.0 then Err(InvalidNumber) else Ok(income)
  }

  /** The two figures handed to `setResults`, before they are formatted. */
  datatype TaxResult = TaxResult(totalTax: real, netIncome: real)

  /** Validates the field, runs the tier loop on the calculator's table and reports the tax
      and `income - tax`. */
  method CalculateTax(taxableIncome: string, parseFloat: string -> Option<real>) returns (r: Result<TaxResult>)
    ensures ValidateIncome(taxableIncome, parseFloat).Err? ==> r == Err(ValidateIncome(taxableIncome, parseFloat).error)
    ensures ValidateIncome(taxableIncome, parseFloat).Ok? ==>
      var income := ValidateIncome(taxableIncome, parseFloat).value;
      && r.Ok?
      && r.value.totalTax == FederalTax(income)
      && r.value.netIncome == income - r.value.totalTax
      && 0.0 <= r.value.totalTax <= 0.37 * income
      && 0.0 <= r.value.netIncome
      && (income == 0.0 ==> r.value.totalTax == 0.0)
  {
    var validated := ValidateIncome(taxableIncome, parseFloat);
    if validated.Err? {
      return Err(validated.error);
    }
    var income := validated.value;
    TaxTiersValid();
    var tax, steps := ComputeTax(income, TaxTiers);
    TaxBounds(income);
    r := Ok(TaxResult(tax, income - tax));
  }
}
