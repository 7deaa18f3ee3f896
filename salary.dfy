/** The salary estimator and the two board adapters that feed it.

    A salary bound arrives from a board's JSON either as `null` or as an integer
    amount; the estimator tests it with Python truthiness, so an amount of 0 is
    treated exactly like a missing bound. Estimates are exact reals: the 1.2 and
    0.8 multipliers and the halving of the mean are not subject to rounding here. */
module Salary {
  import opened Wrappers

  /** A salary bound as the boards report it: absent (`null`) or an amount. */
  type Bound = Option<int>

  /** Python truthiness of a bound: `None` and `0` are both false. */
  predicate Truthy(b: Bound): (t: bool)
    ensures !t <==> b == None || b == Some(0)
  {
    b.Some? && b.value != 0
  }

  /** Python truthiness of an estimate, as tested by `if salary:` in the
      aggregators: `None` and `0.0` are both false. */
  predicate IsKept(e: Option<real>): (t: bool)
    ensures !t <==> e == None || e == Some(0.0)
  {
    e.Some? && e.value != 0.0
  }

  /** `calculate_salary`: one figure from an optional minimum and maximum —
      the mean of both, the minimum raised by 20%, the maximum lowered by 20%,
      or no estimate at all (the implicit `None` of the fall-through). */
  function CalculateSalary(minSalary: Bound, maxSalary: Bound): (r: Option<real>)
    ensures r.Some? <==> Truthy(minSalary) || Truthy(maxSalary)
    ensures Truthy(minSalary) && Truthy(maxSalary) ==>
              r.value * 2.0 == (minSalary.value + maxSalary.value) as real
    ensures Truthy(minSalary) && Truthy(maxSalary) && minSalary.value <= maxSalary.value ==>
              minSalary.value as real <= r.value <= maxSalary.value as real
    ensures Truthy(minSalary) && !Truthy(maxSalary) ==> r.value == minSalary.value as real * 1.2
    ensures !Truthy(minSalary) && Truthy(maxSalary) ==> r.value == maxSalary.value as real * 0.8
  {
    if Truthy(minSalary) && Truthy(maxSalary) then
      Some((minSalary.value + maxSalary.value) as real / 2.0)
    else if Truthy(minSalary) then
      Some(minSalary.value as real * 1.2)
    else if Truthy(maxSalary) then
      Some(maxSalary.value as real * 0.8)
    else
      None
  }

  /** A bound of 0 is indistinguishable from a missing bound, on either side. */
  lemma ZeroBoundIsAbsent(other: Bound)
    ensures CalculateSalary(Some(0), other) == CalculateSalary(None, other)
    ensures CalculateSalary(other, Some(0)) == CalculateSalary(other, None)
  {
  }

  /** For bounds that are not negative (as salaries are), the aggregators'
      `if salary:` filter keeps the estimate exactly when some bound is positive,
      and a kept estimate is positive. A one-sided estimate lies above a lone
      minimum and below a lone maximum. */
  lemma KeptIffSomePositiveBound(minSalary: Bound, maxSalary: Bound)
    requires minSalary.Some? ==> minSalary.value >= 0
    requires maxSalary.Some? ==> maxSalary.value >= 0
    ensures IsKept(CalculateSalary(minSalary, maxSalary)) <==>
              (minSalary.Some? && minSalary.value > 0) || (maxSalary.Some? && maxSalary.value > 0)
    ensures IsKept(CalculateSalary(minSalary, maxSalary)) ==> CalculateSalary(minSalary, maxSalary).value > 0.0
    ensures Truthy(minSalary) && !Truthy(maxSalary) ==>
              CalculateSalary(minSalary, maxSalary).value > minSalary.value as real
    ensures !Truthy(minSalary) && Truthy(maxSalary) ==>
              CalculateSalary(minSalary, maxSalary).value < maxSalary.value as real
  {
  }

  /** With bounds of opposite sign the estimate can be present yet zero, and the
      aggregators' truthiness filter then drops it like a missing one. */
  lemma ZeroEstimateIsDropped()
    ensures CalculateSalary(Some(-5000), Some(5000)) == Some(0.0)
    ensures !IsKept(CalculateSalary(Some(-5000), Some(5000)))
  {
  }

  /** The reference-currency code of each board. */
  const HHRouble: string := "RUR"
  const SJRouble: string := "rub"

  /** HeadHunter's salary object: `from`, `to` and `currency`. */
  datatype HHSalary = HHSalary(salaryFrom: Bound, salaryTo: Bound, currency: string)

  /** A HeadHunter vacancy as far as the estimator reads it: its `salary`
      object, which may be `null`. */
  datatype HHVacancy = HHVacancy(salary: Option<HHSalary>)

  /** A SuperJob vacancy's flat `payment_from`, `payment_to` and `currency`. */
  datatype SJVacancy = SJVacancy(paymentFrom: Bound, paymentTo: Bound, currency: string)

  /** `predict_rub_hh_salary`: estimate only for a present salary quoted in
      roubles; any other vacancy yields no estimate, whatever its amounts. */
  function PredictRubHHSalary(vacancy: HHVacancy): (r: Option<real>)
    ensures vacancy.salary.None? ==> r.None?
    ensures vacancy.salary.Some? && vacancy.salary.value.currency != HHRouble ==> r.None?
    ensures vacancy.salary.Some? && vacancy.salary.value.currency == HHRouble ==>
              r == CalculateSalary(vacancy.salary.value.salaryFrom, vacancy.salary.value.salaryTo)
  {
    match vacancy.salary
    case None => None
    case Some(s) =>
      if s.currency == HHRouble then CalculateSalary(s.salaryFrom, s.salaryTo) else None
  }

  /** `predict_rub_sj_salary`: estimate only for a vacancy quoted in roubles;
      any other currency yields no estimate, whatever the amounts. */
  function PredictRubSJSalary(vacancy: SJVacancy): (r: Option<real>)
    ensures vacancy.currency != SJRouble ==> r.None?
    ensures vacancy.currency == SJRouble ==> r == CalculateSalary(vacancy.paymentFrom, vacancy.paymentTo)
  {
    if vacancy.currency == SJRouble then CalculateSalary(vacancy.paymentFrom, vacancy.paymentTo) else None
  }
}
